/** The workspace file cache: a map with last-use stamps and pins, evicting the
    least recently used unpinned files, against a plain recency list. */
module WorkspaceFileCache {
  import opened CodeUnits

  const FILE_CACHE_BUDGET_BYTES: nat := 8 * 1024 * 1024 * 1024
  const FILE_CACHE_MAX_UNPINNED: nat := 16

  datatype CachedFile = CachedFile(sessionId: Str, path: Str, size: nat, content: int)

  datatype Key = Key(text: Str)

  /** `${sessionId}\0${path}` */
  function CacheKey(sessionId: Str, path: Str): Key {
    Key(sessionId + [0] + path)
  }

  // ---------- The recency list ----------

  datatype Item = Item(key: Key, file: CachedFile, pinned: bool)

  /** Least recently used first. */
  type Recency = seq<Item>

  predicate DistinctKeys(items: Recency) {
    forall i, j | 0 <= i < j < |items| :: items[i].key != items[j].key
  }

  function Find(items: Recency, key: Key): Option<Item> {
    if items == [] then None
    else if items[0].key == key then Some(items[0])
    else Find(items[1..], key)
  }

  function Without(items: Recency, key: Key): Recency {
    if items == [] then []
    else if items[0].key == key then Without(items[1..], key)
    else [items[0]] + Without(items[1..], key)
  }

  function UnpinnedCount(items: Recency): nat {
    if items == [] then 0 else (if items[0].pinned then 0 else 1) + UnpinnedCount(items[1..])
  }

  function UnpinnedBytes(items: Recency): nat {
    if items == [] then 0 else (if items[0].pinned then 0 else items[0].file.size) + UnpinnedBytes(items[1..])
  }

  predicate WithinBudget(items: Recency) {
    UnpinnedBytes(items) <= FILE_CACHE_BUDGET_BYTES && UnpinnedCount(items) <= FILE_CACHE_MAX_UNPINNED
  }

  /** Drop the first unpinned item. */
  function DropOldest(items: Recency): Recency {
    if items == [] then []
    else if !items[0].pinned then items[1..]
    else [items[0]] + DropOldest(items[1..])
  }

  lemma {:induction false} DropOldestShrinks(items: Recency)
    requires UnpinnedCount(items) > 0
    ensures UnpinnedCount(DropOldest(items)) == UnpinnedCount(items) - 1
  {
    if items[0].pinned {
      DropOldestShrinks(items[1..]);
      assert DropOldest(items)[1..] == DropOldest(items[1..]);
    }
  }

  lemma {:induction false} OverBudgetHasUnpinned(items: Recency)
    requires UnpinnedBytes(items) > 0
    ensures UnpinnedCount(items) > 0
  {
    if items[0].pinned {
      OverBudgetHasUnpinned(items[1..]);
    }
  }

  lemma EvictProgress(items: Recency)
    requires !WithinBudget(items)
    ensures UnpinnedCount(items) > 0
    ensures UnpinnedCount(DropOldest(items)) < UnpinnedCount(items)
  {
    if UnpinnedBytes(items) > FILE_CACHE_BUDGET_BYTES {
      OverBudgetHasUnpinned(items);
    }
    DropOldestShrinks(items);
  }

  /** `evict`: drop oldest unpinned items until both budgets hold. */
  function Evict(items: Recency): Recency
    decreases UnpinnedCount(items)
  {
    if WithinBudget(items) then items else EvictProgress(items); Evict(DropOldest(items))
  }

  datatype Operation =
    | Get(sessionId: Str, path: Str)
    | Set(file: CachedFile, pinned: bool)
    | Pin(sessionId: Str, path: Str)
    | Unpin(sessionId: Str, path: Str)
    | Invalidate(sessionId: Str, path: Str)
    | ClearSession(sessionId: Str)
    | Clear

  function NotInSession(items: Recency, sessionId: Str): Recency {
    if items == [] then []
    else if StartsWith(items[0].key.text, sessionId + [0]) then NotInSession(items[1..], sessionId)
    else [items[0]] + NotInSession(items[1..], sessionId)
  }

  /** Make a present item the most recent one, with the given pin. */
  function Touch(items: Recency, key: Key, pinned: Option<bool>): Recency {
    match Find(items, key)
    case None => items
    case Some(item) => Without(items, key) + [if pinned.Some? then item.(pinned := pinned.value) else item]
  }

  function Apply(items: Recency, op: Operation): Recency {
    match op
    case Get(sessionId, path) => Touch(items, CacheKey(sessionId, path), None)
    case Set(file, pinned) =>
      var key := CacheKey(file.sessionId, file.path);
      Evict(Without(items, key) + [Item(key, file, pinned)])
    case Pin(sessionId, path) => Touch(items, CacheKey(sessionId, path), Some(true))
    case Unpin(sessionId, path) =>
      var key := CacheKey(sessionId, path);
      if Find(items, key).None? then items else Evict(Touch(items, key, Some(false)))
    case Invalidate(sessionId, path) => Without(items, CacheKey(sessionId, path))
    case ClearSession(sessionId) => NotInSession(items, sessionId)
    case Clear => []
  }

  function Run(ops: seq<Operation>): Recency {
    if ops == [] then [] else Apply(Run(ops[..|ops| - 1]), ops[|ops| - 1])
  }

  // ---------- Eviction removes a minimal least-recent set ----------

  /** The list without its `k` least recent unpinned items. */
  function Keep(items: Recency, k: nat): Recency {
    if items == [] then []
    else if items[0].pinned then [items[0]] + Keep(items[1..], k)
    else if k > 0 then Keep(items[1..], k - 1)
    else items
  }

  lemma {:induction false} KeepAll(items: Recency)
    ensures Keep(items, 0) == items
  {
    if items != [] {
      KeepAll(items[1..]);
    }
  }

  lemma {:induction false} DropFromKept(items: Recency, k: nat)
    ensures DropOldest(Keep(items, k)) == Keep(items, k + 1)
  {
    if items != [] {
      if items[0].pinned {
        DropFromKept(items[1..], k);
        assert Keep(items, k)[1..] == Keep(items[1..], k);
      } else if k > 0 {
        DropFromKept(items[1..], k - 1);
      } else {
        KeepAll(items[1..]);
      }
    }
  }

  /** Eviction removes the `k` least recent unpinned items, for the smallest `k` that meets
      both budgets. */
  lemma {:induction false} EvictFrom(items: Recency, k: nat) returns (n: nat)
    ensures k <= n && Evict(Keep(items, k)) == Keep(items, n) && WithinBudget(Keep(items, n))
    ensures forall j | k <= j < n :: !WithinBudget(Keep(items, j))
    decreases UnpinnedCount(Keep(items, k))
  {
    if WithinBudget(Keep(items, k)) {
      n := k;
    } else {
      EvictProgress(Keep(items, k));
      DropFromKept(items, k);
      n := EvictFrom(items, k + 1);
    }
  }

  lemma EvictMinimal(items: Recency) returns (n: nat)
    ensures Evict(items) == Keep(items, n) && WithinBudget(Evict(items))
    ensures forall j | 0 <= j < n :: !WithinBudget(Keep(items, j))
  {
    KeepAll(items);
    n := EvictFrom(items, 0);
  }

  /** Which items survive: every pinned one, and an unpinned one exactly when at least `k`
      unpinned ones are less recent. */
  lemma {:induction false} KeepMembers(items: Recency, k: nat, i: nat)
    requires DistinctKeys(items) && i < |items|
    ensures items[i] in Keep(items, k) <==> items[i].pinned || UnpinnedCount(items[..i]) >= k
    ensures forall x | x in Keep(items, k) :: x in items
  {
    var head := items[..1];
    assert items == head + items[1..];
    if i > 0 {
      KeepMembers(items[1..], k, i - 1);
      if !items[0].pinned && k > 0 {
        KeepMembers(items[1..], k - 1, i - 1);
      }
      assert items[..i][1..] == items[1..][..i - 1];
    } else if items[1..] != [] {
      KeepMembers(items[1..], k, 0);
      if !items[0].pinned && k > 0 {
        KeepMembers(items[1..], k - 1, 0);
      }
      assert forall x | x in items[1..] :: x.key != items[0].key;
    } else {
      assert items[1..] == [];
    }
  }

  /** Pinned files are never evicted, and an evicted file takes every less recent unpinned
      file with it. */
  lemma EvictsLeastRecent(items: Recency, i: nat, j: nat)
    requires DistinctKeys(items) && i < j < |items|
    ensures items[i].pinned ==> items[i] in Evict(items)
    ensures items[j].pinned ==> items[j] in Evict(items)
    ensures !items[i].pinned && items[j] !in Evict(items) ==> items[i] !in Evict(items)
  {
    var n := EvictMinimal(items);
    KeepMembers(items, n, i);
    KeepMembers(items, n, j);
    CountMonotone(items, i, j);
  }

  lemma {:induction false} CountMonotone(items: Recency, i: nat, j: nat)
    requires i <= j <= |items|
    ensures UnpinnedCount(items[..i]) <= UnpinnedCount(items[..j])
    decreases j
  {
    if i > 0 {
      CountMonotone(items[1..], i - 1, j - 1);
      assert items[..i][1..] == items[1..][..i - 1];
      assert items[..j][1..] == items[1..][..j - 1];
    }
  }

  // ---------- Counting ----------

  lemma {:induction false} UnpinnedConcat(a: Recency, b: Recency)
    ensures UnpinnedCount(a + b) == UnpinnedCount(a) + UnpinnedCount(b)
    ensures UnpinnedBytes(a + b) == UnpinnedBytes(a) + UnpinnedBytes(b)
  {
    if a == [] {
      assert a + b == b;
    } else {
      UnpinnedConcat(a[1..], b);
      assert (a + b)[1..] == a[1..] + b;
    }
  }

  lemma UnpinnedOne(item: Item)
    ensures UnpinnedCount([item]) == if item.pinned then 0 else 1
    ensures UnpinnedBytes([item]) == if item.pinned then 0 else item.file.size
  {
    assert [item][1..] == [];
  }

  lemma {:induction false} WithoutMembers(items: Recency, key: Key)
    requires DistinctKeys(items)
    ensures DistinctKeys(Without(items, key))
    ensures forall x :: x in Without(items, key) <==> x in items && x.key != key
  {
    if items != [] {
      WithoutMembers(items[1..], key);
      assert items == [items[0]] + items[1..];
      var rest := Without(items[1..], key);
      assert forall i | 0 <= i < |rest| :: rest[i] in items[1..];
      assert forall x | x in items[1..] :: x.key != items[0].key;
    }
  }

  lemma {:induction false} WithoutFacts(items: Recency, key: Key)
    requires DistinctKeys(items)
    ensures DistinctKeys(Without(items, key))
    ensures forall x :: x in Without(items, key) <==> x in items && x.key != key
    ensures var gone := if Find(items, key).Some? then [Find(items, key).value] else [];
            && UnpinnedCount(items) == UnpinnedCount(Without(items, key)) + UnpinnedCount(gone)
            && UnpinnedBytes(items) == UnpinnedBytes(Without(items, key)) + UnpinnedBytes(gone)
    ensures Find(items, key).Some? ==> Find(items, key).value.key == key
  {
    WithoutMembers(items, key);
    WithoutCounts(items, key);
  }

  lemma {:induction false} WithoutCounts(items: Recency, key: Key)
    requires DistinctKeys(items)
    ensures var gone := if Find(items, key).Some? then [Find(items, key).value] else [];
            && UnpinnedCount(items) == UnpinnedCount(Without(items, key)) + UnpinnedCount(gone)
            && UnpinnedBytes(items) == UnpinnedBytes(Without(items, key)) + UnpinnedBytes(gone)
    ensures Find(items, key).Some? ==> Find(items, key).value.key == key
  {
    if items != [] {
      if items[0].key == key {
        WithoutAbsent(items[1..], key);
        UnpinnedOne(items[0]);
      } else {
        WithoutCounts(items[1..], key);
        assert ([items[0]] + Without(items[1..], key))[1..] == Without(items[1..], key);
      }
    }
  }

  lemma {:induction false} WithoutAbsent(items: Recency, key: Key)
    requires forall i | 0 <= i < |items| :: items[i].key != key
    ensures Without(items, key) == items && Find(items, key).None?
  {
    if items != [] {
      WithoutAbsent(items[1..], key);
    }
  }

  lemma {:induction false} KeepDistinct(items: Recency, k: nat)
    requires DistinctKeys(items)
    ensures DistinctKeys(Keep(items, k))
    ensures forall x | x in Keep(items, k) :: x in items
  {
    if items != [] {
      assert items == [items[0]] + items[1..];
      KeepDistinct(items[1..], k);
      assert forall x | x in items[1..] :: x.key != items[0].key;
      var rest := Keep(items[1..], k);
      assert forall i | 0 <= i < |rest| :: rest[i] in items[1..];
      if k > 0 {
        KeepDistinct(items[1..], k - 1);
      }
    }
  }

  lemma {:induction false} NotInSessionMembers(items: Recency, sessionId: Str)
    ensures forall x :: x in NotInSession(items, sessionId) <==> x in items && !StartsWith(x.key.text, sessionId + [0])
  {
    if items != [] {
      NotInSessionMembers(items[1..], sessionId);
      assert items == [items[0]] + items[1..];
      hide StartsWith;
    }
  }

  lemma {:induction false} NotInSessionFacts(items: Recency, sessionId: Str)
    requires DistinctKeys(items)
    ensures DistinctKeys(NotInSession(items, sessionId))
    ensures forall x :: x in NotInSession(items, sessionId) <==> x in items && !StartsWith(x.key.text, sessionId + [0])
    ensures UnpinnedCount(NotInSession(items, sessionId)) <= UnpinnedCount(items)
    ensures UnpinnedBytes(NotInSession(items, sessionId)) <= UnpinnedBytes(items)
  {
    NotInSessionMembers(items, sessionId);
    if items != [] {
      hide StartsWith;
      NotInSessionFacts(items[1..], sessionId);
      var rest := NotInSession(items[1..], sessionId);
      assert ([items[0]] + rest)[1..] == rest;
    }
  }

  lemma TouchFacts(items: Recency, key: Key, pinned: Option<bool>)
    requires DistinctKeys(items)
    ensures DistinctKeys(Touch(items, key, pinned))
    ensures WithinBudget(items) && pinned != Some(false) ==> WithinBudget(Touch(items, key, pinned))
  {
    WithoutFacts(items, key);
    var found := Find(items, key);
    if found.Some? {
      var item := if pinned.Some? then found.value.(pinned := pinned.value) else found.value;
      UnpinnedConcat(Without(items, key), [item]);
      UnpinnedOne(item);
      UnpinnedOne(found.value);
    }
  }

  lemma EvictFacts(items: Recency)
    requires DistinctKeys(items)
    ensures DistinctKeys(Evict(items)) && WithinBudget(Evict(items))
  {
    var n := EvictMinimal(items);
    KeepDistinct(items, n);
  }

  lemma ApplyKeeps(items: Recency, op: Operation)
    requires DistinctKeys(items) && WithinBudget(items)
    ensures DistinctKeys(Apply(items, op)) && WithinBudget(Apply(items, op))
  {
    match op {
      case Get(sessionId, path) => TouchFacts(items, CacheKey(sessionId, path), None);
      case Set(file, pinned) =>
        var key := CacheKey(file.sessionId, file.path);
        WithoutFacts(items, key);
        EvictFacts(Without(items, key) + [Item(key, file, pinned)]);
      case Pin(sessionId, path) => TouchFacts(items, CacheKey(sessionId, path), Some(true));
      case Unpin(sessionId, path) =>
        TouchFacts(items, CacheKey(sessionId, path), Some(false));
        EvictFacts(Touch(items, CacheKey(sessionId, path), Some(false)));
      case Invalidate(sessionId, path) => WithoutFacts(items, CacheKey(sessionId, path));
      case ClearSession(sessionId) => NotInSessionFacts(items, sessionId);
      case Clear =>
    }
  }

  /** After every run of operations both unpinned budgets hold and no key occurs twice. */
  lemma {:induction false} BudgetsAlwaysHold(ops: seq<Operation>)
    ensures DistinctKeys(Run(ops)) && WithinBudget(Run(ops))
  {
    if ops != [] {
      BudgetsAlwaysHold(ops[..|ops| - 1]);
      ApplyKeeps(Run(ops[..|ops| - 1]), ops[|ops| - 1]);
    }
  }

  // ---------- The file just set ----------

  lemma {:induction false} KeepLast(older: Recency, item: Item, k: nat)
    requires k <= UnpinnedCount(older)
    ensures Keep(older + [item], k) == Keep(older, k) + [item]
  {
    if older == [] {
      KeepAll([item]);
      assert older + [item] == [item];
    } else {
      assert (older + [item])[1..] == older[1..] + [item];
      if older[0].pinned {
        KeepLast(older[1..], item, k);
      } else if k > 0 {
        KeepLast(older[1..], item, k - 1);
      }
    }
  }

  lemma {:induction false} KeepNoneUnpinned(items: Recency)
    ensures UnpinnedCount(Keep(items, UnpinnedCount(items))) == 0
    ensures UnpinnedBytes(Keep(items, UnpinnedCount(items))) == 0
  {
    if items != [] {
      KeepNoneUnpinned(items[1..]);
      if items[0].pinned {
        assert Keep(items, UnpinnedCount(items))[1..] == Keep(items[1..], UnpinnedCount(items[1..]));
      }
    }
  }

  lemma {:induction false} BytesAtLeast(items: Recency, item: Item)
    requires item in items && !item.pinned
    ensures item.file.size <= UnpinnedBytes(items)
  {
    if items[0] != item {
      assert items == [items[0]] + items[1..];
      BytesAtLeast(items[1..], item);
    }
  }

  /** A file set unpinned is still cached afterwards exactly when it fits the byte budget
      alone; a file set pinned always is. */
  lemma JustSetSurvives(items: Recency, file: CachedFile, pinned: bool)
    requires DistinctKeys(items)
    ensures Item(CacheKey(file.sessionId, file.path), file, pinned) in Apply(items, Set(file, pinned)) <==>
            pinned || file.size <= FILE_CACHE_BUDGET_BYTES
  {
    var key := CacheKey(file.sessionId, file.path);
    var older := Without(items, key);
    var item := Item(key, file, pinned);
    WithoutFacts(items, key);
    var all := older + [item];
    var n := EvictMinimal(all);
    KeepMembers(all, n, |older|);
    assert all[..|older|] == older && all[|older|] == item;
    if !pinned {
      if item in Evict(all) {
        BytesAtLeast(Evict(all), item);
      } else if file.size <= FILE_CACHE_BUDGET_BYTES {
        var alone := UnpinnedCount(older);
        KeepLast(older, item, alone);
        KeepNoneUnpinned(older);
        UnpinnedConcat(Keep(older, alone), [item]);
        UnpinnedOne(item);
        assert WithinBudget(Keep(all, alone));
      }
    }
  }

  // ---------- Keys ----------

  /** Session ids without NUL never share a key prefix, so clearing a session clears that
      session only, and no two files share a key. */
  lemma SessionPrefixExact(sessionId: Str, path: Str, cleared: Str)
    requires 0 !in sessionId && 0 !in cleared
    ensures StartsWith(CacheKey(sessionId, path).text, cleared + [0]) <==> sessionId == cleared
  {
    var text := CacheKey(sessionId, path).text;
    FirstIndex(sessionId, 0, path);
    assert text[..|sessionId| + 1] == sessionId + [0];
    if StartsWith(text, cleared + [0]) {
      FirstIndex(cleared, 0, text[|cleared| + 1..]);
      assert text == cleared + [0] + text[|cleared| + 1..];
      assert text[..|sessionId|] == sessionId && text[..|cleared|] == cleared;
    }
  }

  lemma CacheKeyInjective(s1: Str, p1: Str, s2: Str, p2: Str)
    requires 0 !in s1 && 0 !in s2 && CacheKey(s1, p1) == CacheKey(s2, p2)
    ensures s1 == s2 && p1 == p2
  {
    FirstIndex(s1, 0, p1);
    FirstIndex(s2, 0, p2);
    var text := CacheKey(s1, p1).text;
    assert text[..|s1|] == s1 && text[..|s2|] == s2;
    assert text[|s1| + 1..] == p1 && text[|s2| + 1..] == p2;
  }

  // ---------- The cache ----------

  datatype Entry = Entry(file: CachedFile, pinned: bool, lastUsed: nat)

  /** Unpinned files, and their bytes, among the given keys. */
  ghost function CountIn(items: Recency, keys: set<Key>): nat {
    if items == [] then 0
    else (if items[0].key in keys && !items[0].pinned then 1 else 0) + CountIn(items[1..], keys)
  }

  ghost function BytesIn(items: Recency, keys: set<Key>): nat {
    if items == [] then 0
    else (if items[0].key in keys && !items[0].pinned then items[0].file.size else 0) + BytesIn(items[1..], keys)
  }

  lemma {:induction false} InMore(items: Recency, keys: set<Key>, i: nat)
    requires DistinctKeys(items) && i < |items| && items[i].key !in keys
    ensures CountIn(items, keys + {items[i].key}) == CountIn(items, keys) + if items[i].pinned then 0 else 1
    ensures BytesIn(items, keys + {items[i].key}) == BytesIn(items, keys) + if items[i].pinned then 0 else items[i].file.size
  {
    if i > 0 {
      InMore(items[1..], keys, i - 1);
    } else {
      InElsewhere(items[1..], keys, items[0].key);
    }
  }

  lemma {:induction false} InElsewhere(items: Recency, keys: set<Key>, key: Key)
    requires forall i | 0 <= i < |items| :: items[i].key != key
    ensures CountIn(items, keys + {key}) == CountIn(items, keys)
    ensures BytesIn(items, keys + {key}) == BytesIn(items, keys)
  {
    if items != [] {
      InElsewhere(items[1..], keys, key);
    }
  }

  lemma {:induction false} InAll(items: Recency, keys: set<Key>)
    requires forall i | 0 <= i < |items| :: items[i].key in keys
    ensures CountIn(items, keys) == UnpinnedCount(items) && BytesIn(items, keys) == UnpinnedBytes(items)
  {
    if items != [] {
      InAll(items[1..], keys);
    }
  }

  lemma {:induction false} InNone(items: Recency)
    ensures CountIn(items, {}) == 0 && BytesIn(items, {}) == 0
  {
    if items != [] {
      InNone(items[1..]);
    }
  }

  ghost predicate Holds(entries: map<Key, Entry>, clock: nat, item: Item) {
    && item.key in entries
    && entries[item.key].file == item.file
    && entries[item.key].pinned == item.pinned
    && entries[item.key].lastUsed <= clock
  }

  ghost predicate HasKey(items: Recency, key: Key) {
    exists i | 0 <= i < |items| :: items[i].key == key
  }

  ghost function Stamp(entries: map<Key, Entry>, item: Item): nat {
    if item.key in entries then entries[item.key].lastUsed else 0
  }

  /** The map holds exactly the listed items, stamped in list order. */
  ghost predicate Represents(entries: map<Key, Entry>, clock: nat, items: Recency) {
    && DistinctKeys(items)
    && (forall i | 0 <= i < |items| :: Holds(entries, clock, items[i]))
    && (forall key | key in entries :: HasKey(items, key))
    && (forall i, j | 0 <= i < j < |items| :: Stamp(entries, items[i]) < Stamp(entries, items[j]))
  }

  method UnpinnedTotals(entries: map<Key, Entry>, ghost clock: nat, ghost items: Recency) returns (count: nat, bytes: nat)
    requires Represents(entries, clock, items)
    ensures count == UnpinnedCount(items) && bytes == UnpinnedBytes(items)
  {
    count, bytes := 0, 0;
    var rest := entries.Keys;
    InNone(items);
    assert entries.Keys - rest == {};
    while rest != {}
      invariant rest <= entries.Keys
      invariant count == CountIn(items, entries.Keys - rest) && bytes == BytesIn(items, entries.Keys - rest)
      decreases rest
    {
      var key :| key in rest;
      assert HasKey(items, key);
      ghost var i :| 0 <= i < |items| && items[i].key == key;
      assert Holds(entries, clock, items[i]);
      InMore(items, entries.Keys - rest, i);
      assert entries.Keys - (rest - {key}) == (entries.Keys - rest) + {key};
      if !entries[key].pinned {
        count := count + 1;
        bytes := bytes + entries[key].file.size;
      }
      rest := rest - {key};
    }
    assert forall i | 0 <= i < |items| :: Holds(entries, clock, items[i]);
    InAll(items, entries.Keys);
    assert entries.Keys - {} == entries.Keys;
  }

  /** The unpinned entry with the smallest stamp: the first after sorting by `lastUsed`. */
  method LeastRecentUnpinned(entries: map<Key, Entry>) returns (victim: Option<Key>)
    ensures victim.None? ==> forall key | key in entries :: entries[key].pinned
    ensures victim.Some? ==> victim.value in entries && !entries[victim.value].pinned
    ensures victim.Some? ==> forall key | key in entries && !entries[key].pinned ::
              entries[victim.value].lastUsed <= entries[key].lastUsed
  {
    victim := None;
    var rest := entries.Keys;
    while rest != {}
      invariant rest <= entries.Keys
      invariant victim.None? ==> forall key | key in entries && key !in rest :: entries[key].pinned
      invariant victim.Some? ==> victim.value in entries && !entries[victim.value].pinned
      invariant victim.Some? ==> forall key | key in entries && key !in rest && !entries[key].pinned ::
                  entries[victim.value].lastUsed <= entries[key].lastUsed
      decreases rest
    {
      var key :| key in rest;
      if !entries[key].pinned && (victim.None? || entries[key].lastUsed < entries[victim.value].lastUsed) {
        victim := Some(key);
      }
      rest := rest - {key};
    }
  }

  function Cut(items: Recency, i: nat): Recency
    requires i < |items|
  {
    items[..i] + items[i + 1..]
  }

  /** Removing a present key cuts one position out of the list. */
  lemma {:induction false} WithoutAt(items: Recency, i: nat)
    requires DistinctKeys(items) && i < |items|
    ensures Without(items, items[i].key) == Cut(items, i)
  {
    if i > 0 {
      WithoutAt(items[1..], i - 1);
      assert items[..i] == [items[0]] + items[1..][..i - 1];
    } else {
      WithoutAbsent(items[1..], items[0].key);
    }
  }

  /** Dropping the oldest unpinned item is removing its key. */
  lemma {:induction false} DropIsWithout(items: Recency, i: nat)
    requires DistinctKeys(items) && i < |items| && !items[i].pinned
    requires forall j | 0 <= j < i :: items[j].pinned
    ensures DropOldest(items) == Without(items, items[i].key)
  {
    if i > 0 {
      DropIsWithout(items[1..], i - 1);
    } else {
      WithoutAbsent(items[1..], items[0].key);
    }
  }

  lemma CutAt(items: Recency, i: nat, k: nat)
    requires i < |items| && k < |items| - 1
    ensures |Cut(items, i)| == |items| - 1
    ensures Cut(items, i)[k] == items[if k < i then k else k + 1]
  {
  }

  lemma CutHasKey(items: Recency, i: nat, key: Key)
    requires i < |items| && HasKey(items, key) && items[i].key != key
    ensures HasKey(Cut(items, i), key)
  {
    var k :| 0 <= k < |items| && items[k].key == key;
    assert Cut(items, i)[if k < i then k else k - 1].key == key;
  }

  lemma RemoveRepresented(entries: map<Key, Entry>, clock: nat, items: Recency, i: nat)
    requires Represents(entries, clock, items) && i < |items|
    ensures Represents(entries - {items[i].key}, clock, Cut(items, i))
  {
    var kept := Cut(items, i);
    assert |kept| == |items| - 1;
    var rest := entries - {items[i].key};
    hide Cut, HasKey;
    forall k | 0 <= k < |kept|
      ensures Holds(rest, clock, kept[k]) && Stamp(rest, kept[k]) == Stamp(entries, kept[k])
    {
      CutAt(items, i, k);
      assert Holds(entries, clock, items[if k < i then k else k + 1]);
    }
    hide Holds, Stamp;
    forall a, b | 0 <= a < b < |kept|
      ensures kept[a].key != kept[b].key && Stamp(rest, kept[a]) < Stamp(rest, kept[b])
    {
      CutAt(items, i, a);
      CutAt(items, i, b);
    }
    forall other | other in rest
      ensures HasKey(kept, other)
    {
      CutHasKey(items, i, other);
    }
  }

  lemma WithoutRepresented(entries: map<Key, Entry>, clock: nat, items: Recency, key: Key)
    requires Represents(entries, clock, items)
    ensures Represents(entries - {key}, clock, Without(items, key))
  {
    if key in entries {
      assert HasKey(items, key);
      var i :| 0 <= i < |items| && items[i].key == key;
      hide Represents;
      DistinctRepresented(entries, clock, items);
      WithoutAt(items, i);
      RemoveRepresented(entries, clock, items, i);
    } else {
      assert forall i | 0 <= i < |items| :: Holds(entries, clock, items[i]);
      WithoutAbsent(items, key);
      assert entries - {key} == entries;
    }
  }

  lemma DistinctRepresented(entries: map<Key, Entry>, clock: nat, items: Recency)
    requires Represents(entries, clock, items)
    ensures DistinctKeys(items)
  {
  }

  lemma AddRepresented(entries: map<Key, Entry>, clock: nat, items: Recency, item: Item)
    requires Represents(entries, clock, items) && item.key !in entries
    ensures Represents(entries[item.key := Entry(item.file, item.pinned, clock + 1)], clock + 1, items + [item])
  {
    var all := items + [item];
    var stamped := entries[item.key := Entry(item.file, item.pinned, clock + 1)];
    forall k | 0 <= k < |items|
      ensures items[k].key != item.key && Holds(stamped, clock + 1, items[k])
      ensures Stamp(stamped, items[k]) == Stamp(entries, items[k]) <= clock
    {
      assert Holds(entries, clock, items[k]);
    }
    assert Holds(stamped, clock + 1, item) && Stamp(stamped, item) == clock + 1;
    hide Holds, Stamp;
    forall key | key in stamped
      ensures HasKey(all, key)
    {
      if key == item.key {
        assert all[|items|].key == key;
      } else {
        assert HasKey(items, key);
        var i :| 0 <= i < |items| && items[i].key == key;
        assert all[i].key == key;
      }
    }
  }

  /** Stamping a key with the next clock value makes it the most recent. */
  lemma StampLast(entries: map<Key, Entry>, clock: nat, items: Recency, item: Item)
    requires Represents(entries, clock, items)
    ensures Represents(entries[item.key := Entry(item.file, item.pinned, clock + 1)], clock + 1,
                       Without(items, item.key) + [item])
  {
    hide Represents;
    WithoutRepresented(entries, clock, items, item.key);
    AddRepresented(entries - {item.key}, clock, Without(items, item.key), item);
    assert (entries - {item.key})[item.key := Entry(item.file, item.pinned, clock + 1)] ==
           entries[item.key := Entry(item.file, item.pinned, clock + 1)];
  }

  /** The unpinned entry with the smallest stamp is the first unpinned item of the list. */
  lemma VictimIsOldest(entries: map<Key, Entry>, clock: nat, items: Recency, victim: Key)
    requires Represents(entries, clock, items)
    requires victim in entries && !entries[victim].pinned
    requires forall key | key in entries && !entries[key].pinned :: entries[victim].lastUsed <= entries[key].lastUsed
    ensures DropOldest(items) == Without(items, victim)
  {
    assert HasKey(items, victim);
    var i :| 0 <= i < |items| && items[i].key == victim;
    assert Holds(entries, clock, items[i]);
    forall j | 0 <= j < i
      ensures items[j].pinned
    {
      assert Holds(entries, clock, items[j]);
      assert Stamp(entries, items[j]) < Stamp(entries, items[i]);
    }
    DropIsWithout(items, i);
  }

  lemma NoUnpinned(entries: map<Key, Entry>, clock: nat, items: Recency)
    requires Represents(entries, clock, items)
    requires forall key | key in entries :: entries[key].pinned
    ensures UnpinnedCount(items) == 0
  {
    assert forall i | 0 <= i < |items| :: Holds(entries, clock, items[i]);
    AllPinned(items);
  }

  lemma {:induction false} AllPinned(items: Recency)
    requires forall i | 0 <= i < |items| :: items[i].pinned
    ensures UnpinnedCount(items) == 0
  {
    if items != [] {
      AllPinned(items[1..]);
    }
  }

  lemma {:induction false} FindMatches(items: Recency, i: nat)
    requires DistinctKeys(items) && i < |items|
    ensures Find(items, items[i].key) == Some(items[i])
  {
    if i > 0 {
      FindMatches(items[1..], i - 1);
    }
  }

  lemma FindRepresented(entries: map<Key, Entry>, clock: nat, items: Recency, key: Key)
    requires Represents(entries, clock, items)
    ensures key in entries ==> Find(items, key) == Some(Item(key, entries[key].file, entries[key].pinned))
    ensures key !in entries ==> Find(items, key).None?
  {
    assert forall i | 0 <= i < |items| :: Holds(entries, clock, items[i]);
    if key in entries {
      assert HasKey(items, key);
      var i :| 0 <= i < |items| && items[i].key == key;
      FindMatches(items, i);
    } else {
      WithoutAbsent(items, key);
    }
  }

  /** `recency` is the specification state; the cache itself keeps the map and the clock. */
  class FileCache {
    var entries: map<Key, Entry>
    var clock: nat
    ghost var recency: Recency

    ghost predicate Valid()
      reads this
    {
      Represents(entries, clock, recency)
    }

    constructor ()
      ensures Valid() && recency == []
    {
      entries, clock, recency := map[], 0, [];
    }

    method GetFile(sessionId: Str, path: Str) returns (file: Option<CachedFile>)
      requires Valid()
      modifies this
      ensures Valid() && recency == Apply(old(recency), Get(sessionId, path))
      ensures file == match Find(old(recency), CacheKey(sessionId, path)) case None => None case Some(item) => Some(item.file)
    {
      hide Represents, Without, Find, Evict;
      var key := CacheKey(sessionId, path);
      FindRepresented(entries, clock, recency, key);
      if key !in entries { return None; }
      var entry := entries[key];
      StampLast(entries, clock, recency, Item(key, entry.file, entry.pinned));
      clock := clock + 1;
      entries := entries[key := entry.(lastUsed := clock)];
      recency := Touch(recency, key, None);
      return Some(entry.file);
    }

    method SetFile(file: CachedFile, pinned: bool)
      requires Valid()
      modifies this
      ensures Valid() && recency == Apply(old(recency), Set(file, pinned))
    {
      hide Represents, Without, Find, Evict;
      var key := CacheKey(file.sessionId, file.path);
      StampLast(entries, clock, recency, Item(key, file, pinned));
      clock := clock + 1;
      entries := entries[key := Entry(file, pinned, clock)];
      recency := Without(recency, key) + [Item(key, file, pinned)];
      EvictUnpinned();
    }

    method PinFile(sessionId: Str, path: Str)
      requires Valid()
      modifies this
      ensures Valid() && recency == Apply(old(recency), Pin(sessionId, path))
    {
      hide Represents, Without, Find, Evict;
      var key := CacheKey(sessionId, path);
      FindRepresented(entries, clock, recency, key);
      if key !in entries { return; }
      var entry := entries[key];
      StampLast(entries, clock, recency, Item(key, entry.file, true));
      clock := clock + 1;
      entries := entries[key := Entry(entry.file, true, clock)];
      recency := Touch(recency, key, Some(true));
    }

    method UnpinFile(sessionId: Str, path: Str)
      requires Valid()
      modifies this
      ensures Valid() && recency == Apply(old(recency), Unpin(sessionId, path))
    {
      hide Represents, Without, Find, Evict;
      var key := CacheKey(sessionId, path);
      FindRepresented(entries, clock, recency, key);
      if key !in entries { return; }
      var entry := entries[key];
      StampLast(entries, clock, recency, Item(key, entry.file, false));
      clock := clock + 1;
      entries := entries[key := Entry(entry.file, false, clock)];
      recency := Touch(recency, key, Some(false));
      EvictUnpinned();
    }

    method InvalidateFile(sessionId: Str, path: Str)
      requires Valid()
      modifies this
      ensures Valid() && recency == Apply(old(recency), Invalidate(sessionId, path))
    {
      hide Represents, Without, Find, Evict;
      var key := CacheKey(sessionId, path);
      WithoutRepresented(entries, clock, recency, key);
      entries := entries - {key};
      recency := Without(recency, key);
    }

    method ClearSessionFiles(sessionId: Str)
      requires Valid()
      modifies this
      ensures Valid() && recency == Apply(old(recency), ClearSession(sessionId))
    {
      hide Represents, Without, NotInSession;
      var rest := entries.Keys;
      while rest != {}
        invariant Valid() && rest <= entries.Keys
        invariant NotInSession(recency, sessionId) == NotInSession(old(recency), sessionId)
        invariant forall key | key in entries && key !in rest :: !StartsWith(key.text, sessionId + [0])
        decreases rest
      {
        var key :| key in rest;
        if StartsWith(key.text, sessionId + [0]) {
          WithoutRepresented(entries, clock, recency, key);
          NotInSessionWithout(recency, key, sessionId);
          entries := entries - {key};
          recency := Without(recency, key);
        }
        rest := rest - {key};
      }
      NothingInSession(entries, clock, recency, sessionId);
    }

    method ClearAll()
      requires Valid()
      modifies this
      ensures Valid() && recency == Apply(old(recency), Clear)
    {
      entries, recency := map[], [];
    }

    method EvictUnpinned()
      requires Valid()
      modifies this
      ensures Valid() && recency == Evict(old(recency))
    {
      hide Represents, DropOldest, Without, UnpinnedCount, UnpinnedBytes;
      while true
        invariant Valid() && Evict(recency) == Evict(old(recency))
        decreases UnpinnedCount(recency)
      {
        var count, bytes := UnpinnedTotals(entries, clock, recency);
        if bytes <= FILE_CACHE_BUDGET_BYTES && count <= FILE_CACHE_MAX_UNPINNED { return; }
        EvictProgress(recency);
        var victim := LeastRecentUnpinned(entries);
        if victim.None? {
          NoUnpinned(entries, clock, recency);
          assert false;
        }
        VictimIsOldest(entries, clock, recency, victim.value);
        WithoutRepresented(entries, clock, recency, victim.value);
        entries := entries - {victim.value};
        recency := DropOldest(recency);
      }
    }
  }

  lemma {:induction false} NotInSessionWithout(items: Recency, key: Key, sessionId: Str)
    requires StartsWith(key.text, sessionId + [0])
    ensures NotInSession(Without(items, key), sessionId) == NotInSession(items, sessionId)
  {
    if items != [] {
      NotInSessionWithout(items[1..], key, sessionId);
      if items[0].key != key {
        assert Without(items, key)[1..] == Without(items[1..], key);
      }
    }
  }

  lemma {:induction false} KeptInSession(items: Recency, sessionId: Str)
    requires forall i | 0 <= i < |items| :: !StartsWith(items[i].key.text, sessionId + [0])
    ensures NotInSession(items, sessionId) == items
  {
    if items != [] {
      KeptInSession(items[1..], sessionId);
    }
  }

  lemma NothingInSession(entries: map<Key, Entry>, clock: nat, items: Recency, sessionId: Str)
    requires Represents(entries, clock, items)
    requires forall key | key in entries :: !StartsWith(key.text, sessionId + [0])
    ensures NotInSession(items, sessionId) == items
  {
    forall i | 0 <= i < |items|
      ensures !StartsWith(items[i].key.text, sessionId + [0])
    {
      assert Holds(entries, clock, items[i]);
    }
    KeptInSession(items, sessionId);
  }
}
