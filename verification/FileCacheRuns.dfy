/** The file cache over whole runs, in terms of the operations alone: files stand in the
    order of their last use, hold what was last set, and go only when they are told to or
    when eviction takes the least recent unpinned ones. */
module FileCacheRuns {
  import opened CodeUnits
  import opened WorkspaceFileCache

  predicate Uses(op: Operation, key: Key) {
    match op
    case Get(sessionId, path) => CacheKey(sessionId, path) == key
    case Set(file, _) => CacheKey(file.sessionId, file.path) == key
    case Pin(sessionId, path) => CacheKey(sessionId, path) == key
    case Unpin(sessionId, path) => CacheKey(sessionId, path) == key
    case _ => false
  }

  /** When the key was last used, -1 if never. */
  function LastUse(ops: seq<Operation>, key: Key): int {
    if ops == [] then -1
    else if Uses(ops[|ops| - 1], key) then |ops| - 1
    else LastUse(ops[..|ops| - 1], key)
  }

  predicate Removes(op: Operation, key: Key) {
    match op
    case Invalidate(sessionId, path) => CacheKey(sessionId, path) == key
    case ClearSession(sessionId) => StartsWith(key.text, sessionId + [0])
    case Clear => true
    case _ => false
  }

  datatype Stored = Stored(file: CachedFile, pinned: bool)

  /** What a key holds, eviction aside: the file last set, pinned as last set, pinned or
      unpinned, until it is removed. */
  function Holds(ops: seq<Operation>, key: Key): Option<Stored> {
    if ops == [] then None
    else
      var op := ops[|ops| - 1];
      var before := Holds(ops[..|ops| - 1], key);
      if Removes(op, key) then None
      else if op.Set? && Uses(op, key) then Some(Stored(op.file, op.pinned))
      else if (op.Pin? || op.Unpin?) && Uses(op, key) && before.Some? then Some(before.value.(pinned := op.Pin?))
      else before
  }

  // ---------- Parts of a list ----------

  /** The same items in the same order, some left out. */
  ghost predicate Sorted(items: Recency, at: map<Key, int>) {
    && (forall i | 0 <= i < |items| :: items[i].key in at)
    && (forall i, j | 0 <= i < j < |items| :: at[items[i].key] < at[items[j].key])
  }

  lemma SortedTail(items: Recency, at: map<Key, int>)
    requires Sorted(items, at) && items != []
    ensures Sorted(items[1..], at) && forall i | 0 <= i < |items[1..]| :: at[items[0].key] < at[items[1..][i].key]
  {
  }

  lemma SortedCons(item: Item, rest: Recency, at: map<Key, int>)
    requires Sorted(rest, at) && item.key in at && forall i | 0 <= i < |rest| :: at[item.key] < at[rest[i].key]
    ensures Sorted([item] + rest, at)
  {
  }

  lemma {:induction false} SortedPart(items: Recency, at: map<Key, int>, key: Key, sessionId: Str, k: nat, low: int)
    requires Sorted(items, at) && forall i | 0 <= i < |items| :: low < at[items[i].key]
    ensures Sorted(Without(items, key), at) && forall i | 0 <= i < |Without(items, key)| :: low < at[Without(items, key)[i].key]
    ensures Sorted(NotInSession(items, sessionId), at) &&
            forall i | 0 <= i < |NotInSession(items, sessionId)| :: low < at[NotInSession(items, sessionId)[i].key]
    ensures Sorted(Keep(items, k), at) && forall i | 0 <= i < |Keep(items, k)| :: low < at[Keep(items, k)[i].key]
  {
    if items != [] {
      SortedTail(items, at);
      var first, rest := items[0], items[1..];
      SortedPart(rest, at, key, sessionId, k, at[first.key]);
      if k > 0 {
        SortedPart(rest, at, key, sessionId, k - 1, at[first.key]);
      }
      SortedCons(first, Without(rest, key), at);
      SortedCons(first, NotInSession(rest, sessionId), at);
      SortedCons(first, Keep(rest, k), at);
      hide Sorted, StartsWith;
    }
  }

  // ---------- Order of last use ----------

  function KeysOf(items: Recency): set<Key> { set i | 0 <= i < |items| :: items[i].key }

  /** When each listed key was last used. */
  function Times(items: Recency, ops: seq<Operation>): map<Key, int> {
    map key | key in KeysOf(items) :: LastUse(ops, key)
  }

  ghost predicate ByLastUse(items: Recency, ops: seq<Operation>) {
    forall i, j | 0 <= i < j < |items| :: LastUse(ops, items[i].key) < LastUse(ops, items[j].key)
  }

  lemma {:induction false} LastUseBound(ops: seq<Operation>, key: Key)
    ensures -1 <= LastUse(ops, key) < |ops|
  {
    if ops != [] {
      LastUseBound(ops[..|ops| - 1], key);
    }
  }

  lemma SortedTimes(items: Recency, ops: seq<Operation>)
    requires ByLastUse(items, ops)
    ensures Sorted(items, Times(items, ops)) && forall key | key in Times(items, ops) :: -2 < Times(items, ops)[key] < |ops|
  {
    forall key | key in Times(items, ops)
      ensures -2 < Times(items, ops)[key] < |ops|
    {
      LastUseBound(ops, key);
    }
    assert forall i | 0 <= i < |items| :: items[i].key in KeysOf(items);
    hide LastUse, KeysOf;
  }

  /** A list sorted by times that agree with the last uses is in order of last use. */
  lemma TimesSorted(items: Recency, at: map<Key, int>, ops: seq<Operation>)
    requires Sorted(items, at) && forall i | 0 <= i < |items| :: at[items[i].key] == LastUse(ops, items[i].key)
    ensures ByLastUse(items, ops)
  {
  }

  lemma LastUseStep(ops: seq<Operation>, op: Operation, key: Key)
    ensures LastUse(ops + [op], key) == if Uses(op, key) then |ops| else LastUse(ops, key)
  {
    assert (ops + [op])[..|ops|] == ops;
  }

  /** A part of the list that the operation does not use keeps its order; so does what is used
      now, put last. */
  lemma PutLast(part: Recency, at: map<Key, int>, last: Item, ops: seq<Operation>, op: Operation)
    requires Sorted(part, at) && forall i | 0 <= i < |part| :: at[part[i].key] == LastUse(ops, part[i].key) && !Uses(op, part[i].key)
    requires Uses(op, last.key)
    ensures var all := part + [last];
            && ByLastUse(part, ops + [op]) && ByLastUse(all, ops + [op])
            && Sorted(all, at[last.key := |ops|])
            && forall i | 0 <= i < |all| :: at[last.key := |ops|][all[i].key] == LastUse(ops + [op], all[i].key)
  {
    var all, later := part + [last], at[last.key := |ops|];
    forall i | 0 <= i < |all|
      ensures all[i].key in later && later[all[i].key] == LastUse(ops + [op], all[i].key)
      ensures i < |part| ==> later[all[i].key] < |ops|
    {
      LastUseStep(ops, op, all[i].key);
      if i < |part| {
        LastUseBound(ops, part[i].key);
        assert all[i] == part[i];
      }
    }
    hide LastUse, Uses;
    assert forall i | 0 <= i < |part| :: all[i] == part[i] && later[all[i].key] == at[part[i].key];
    assert all[|part|] == last;
    TimesSorted(all, later, ops + [op]);
    assert forall i, j | 0 <= i < j < |part| :: LastUse(ops + [op], all[i].key) < LastUse(ops + [op], all[j].key);
  }

  lemma Unused(part: Recency, at: map<Key, int>, ops: seq<Operation>, op: Operation)
    requires Sorted(part, at) && forall i | 0 <= i < |part| :: at[part[i].key] == LastUse(ops, part[i].key) && !Uses(op, part[i].key)
    ensures ByLastUse(part, ops + [op])
  {
    forall i | 0 <= i < |part|
      ensures at[part[i].key] == LastUse(ops + [op], part[i].key)
    {
      LastUseStep(ops, op, part[i].key);
    }
    hide LastUse, Uses;
  }

  lemma {:induction false} FindExact(items: Recency, key: Key)
    requires DistinctKeys(items)
    ensures Find(items, key).None? <==> forall i | 0 <= i < |items| :: items[i].key != key
    ensures Find(items, key).Some? ==> Find(items, key).value in items && Find(items, key).value.key == key
  {
    if items != [] {
      FindExact(items[1..], key);
      assert items == [items[0]] + items[1..];
    }
  }

  /** What is left of the list when `key` is taken out, ready to be put last. */
  lemma TakenOut(items: Recency, ops: seq<Operation>, op: Operation, key: Key)
    requires DistinctKeys(items) && ByLastUse(items, ops) && forall other | Uses(op, other) :: other == key
    ensures var part, at := Without(items, key), Times(items, ops);
            && DistinctKeys(part) && Sorted(part, at)
            && (forall i | 0 <= i < |part| :: part[i] in items && part[i].key != key)
            && forall i | 0 <= i < |part| :: at[part[i].key] == LastUse(ops, part[i].key) && !Uses(op, part[i].key)
  {
    var part, at := Without(items, key), Times(items, ops);
    SortedTimes(items, ops);
    SortedPart(items, at, key, [], 0, -2);
    WithoutMembers(items, key);
    hide Without, LastUse, Uses;
    assert forall i | 0 <= i < |part| :: part[i] in part;
  }

  lemma EvictedOrder(all: Recency, at: map<Key, int>, ops: seq<Operation>)
    requires DistinctKeys(all) && Sorted(all, at) && forall i | 0 <= i < |all| :: at[all[i].key] == LastUse(ops, all[i].key)
    ensures ByLastUse(Evict(all), ops)
  {
    var n := EvictMinimal(all);
    var low := if all == [] then 0 else at[all[0].key] - 1;
    assert forall i | 0 <= i < |all| :: low < at[all[i].key];
    SortedPart(all, at, Key([]), [], n, low);
    KeepDistinct(all, n);
    var kept := Keep(all, n);
    hide Keep, LastUse, Evict;
    assert forall i | 0 <= i < |kept| :: kept[i] in kept;
    TimesSorted(kept, at, ops);
  }

  lemma TouchOrder(items: Recency, ops: seq<Operation>, op: Operation, key: Key, pinned: Option<bool>)
    requires DistinctKeys(items) && ByLastUse(items, ops) && forall other :: Uses(op, other) <==> other == key
    ensures ByLastUse(Touch(items, key, pinned), ops + [op]) && ByLastUse(Evict(Touch(items, key, pinned)), ops + [op])
  {
    TakenOut(items, ops, op, key);
    FindExact(items, key);
    TouchFacts(items, key, pinned);
    var part, at := Without(items, key), Times(items, ops);
    var all := Touch(items, key, pinned);
    match Find(items, key) {
      case None =>
        WithoutAbsent(items, key);
        Unused(items, at, ops, op);
        assert forall i | 0 <= i < |items| :: at[items[i].key] == LastUse(ops + [op], items[i].key) by {
          forall i | 0 <= i < |items|
            ensures at[items[i].key] == LastUse(ops + [op], items[i].key)
          {
            LastUseStep(ops, op, items[i].key);
          }
        }
        hide Uses, LastUse, Touch, Evict;
        EvictedOrder(items, at, ops + [op]);
      case Some(item) =>
        var last := if pinned.Some? then item.(pinned := pinned.value) else item;
        hide Uses, LastUse, Evict;
        PutLast(part, at, last, ops, op);
        EvictedOrder(all, at[last.key := |ops|], ops + [op]);
    }
  }

  lemma SetOrder(items: Recency, ops: seq<Operation>, file: CachedFile, pinned: bool)
    requires DistinctKeys(items) && ByLastUse(items, ops)
    ensures ByLastUse(Apply(items, Set(file, pinned)), ops + [Set(file, pinned)])
  {
    var key := CacheKey(file.sessionId, file.path);
    var op := Set(file, pinned);
    TakenOut(items, ops, op, key);
    var part, at, last := Without(items, key), Times(items, ops), Item(key, file, pinned);
    PutLast(part, at, last, ops, op);
    hide LastUse, Evict, Uses, CacheKey;
    EvictedOrder(part + [last], at[key := |ops|], ops + [op]);
  }

  lemma RemoveOrder(items: Recency, ops: seq<Operation>, op: Operation)
    requires DistinctKeys(items) && ByLastUse(items, ops) && (op.Invalidate? || op.ClearSession? || op.Clear?)
    ensures ByLastUse(Apply(items, op), ops + [op])
  {
    match op {
      case Invalidate(sessionId, path) =>
        TakenOut(items, ops, op, CacheKey(sessionId, path));
        hide LastUse;
        Unused(Without(items, CacheKey(sessionId, path)), Times(items, ops), ops, op);
      case ClearSession(sessionId) =>
        SortedTimes(items, ops);
        SortedPart(items, Times(items, ops), Key([]), sessionId, 0, -2);
        NotInSessionMembers(items, sessionId);
        var part := NotInSession(items, sessionId);
        hide LastUse, NotInSession, StartsWith;
        assert forall i | 0 <= i < |part| :: part[i] in part;
        Unused(part, Times(items, ops), ops, op);
      case Clear =>
    }
  }

  /** Files stand in the order in which they were last set, got, pinned or unpinned, so the one
      just used is the last to be evicted. */
  lemma {:induction false} OrderedByLastUse(ops: seq<Operation>)
    ensures ByLastUse(Run(ops), ops)
  {
    if ops != [] {
      var n := |ops| - 1;
      var before, op, items := ops[..n], ops[n], Run(ops[..n]);
      assert before + [op] == ops;
      OrderedByLastUse(before);
      BudgetsAlwaysHold(before);
      hide ByLastUse, DistinctKeys, Run, Evict, Touch;
      match op {
        case Get(sessionId, path) => TouchOrder(items, before, op, CacheKey(sessionId, path), None);
        case Set(file, pinned) => SetOrder(items, before, file, pinned);
        case Pin(sessionId, path) => TouchOrder(items, before, op, CacheKey(sessionId, path), Some(true));
        case Unpin(sessionId, path) =>
          UnpinAbsent(items, CacheKey(sessionId, path));
          TouchOrder(items, before, op, CacheKey(sessionId, path), Some(false));
        case _ => RemoveOrder(items, before, op);
      }
      assert Run(ops) == Apply(items, op) by { RunStep(before, op); }
    }
  }

  lemma UnpinAbsent(items: Recency, key: Key)
    ensures Find(items, key).None? ==> Touch(items, key, Some(false)) == items
  {
  }

  lemma RunStep(ops: seq<Operation>, op: Operation)
    ensures Run(ops + [op]) == Apply(Run(ops), op)
  {
    assert (ops + [op])[..|ops|] == ops;
  }

  // ---------- What a key holds ----------

  lemma HoldsStep(ops: seq<Operation>, op: Operation, key: Key)
    ensures var before := Holds(ops, key);
            Holds(ops + [op], key) ==
            if Removes(op, key) then None
            else if op.Set? && Uses(op, key) then Some(Stored(op.file, op.pinned))
            else if (op.Pin? || op.Unpin?) && Uses(op, key) && before.Some? then Some(before.value.(pinned := op.Pin?))
            else before
  {
    assert (ops + [op])[..|ops|] == ops;
  }

  ghost predicate HeldAs(items: Recency, ops: seq<Operation>) {
    forall x | x in items :: Holds(ops, x.key) == Some(Stored(x.file, x.pinned))
  }

  lemma EvictMembers(items: Recency)
    requires DistinctKeys(items)
    ensures forall x | x in Evict(items) :: x in items
    ensures forall x | x in items && x.pinned :: x in Evict(items)
    ensures WithinBudget(items) ==> Evict(items) == items
  {
    var n := EvictMinimal(items);
    KeepDistinct(items, n);
    forall x | x in items && x.pinned
      ensures x in Evict(items)
    {
      var i :| 0 <= i < |items| && items[i] == x;
      KeepMembers(items, n, i);
    }
  }

  /** What every operation leaves of the list, before eviction. */
  function Unevicted(items: Recency, op: Operation): Recency {
    match op
    case Set(file, pinned) =>
      var key := CacheKey(file.sessionId, file.path);
      Without(items, key) + [Item(key, file, pinned)]
    case Unpin(sessionId, path) => Touch(items, CacheKey(sessionId, path), Some(false))
    case _ => Apply(items, op)
  }

  lemma EvictsAfter(items: Recency, op: Operation)
    requires DistinctKeys(items) && WithinBudget(items)
    ensures DistinctKeys(Unevicted(items, op))
    ensures Apply(items, op) == (if op.Set? || op.Unpin? then Evict(Unevicted(items, op)) else Unevicted(items, op))
  {
    match op {
      case Set(file, pinned) => WithoutFacts(items, CacheKey(file.sessionId, file.path));
      case Unpin(sessionId, path) =>
        TouchFacts(items, CacheKey(sessionId, path), Some(false));
        EvictMembers(items);
      case _ => ApplyKeeps(items, op);
    }
  }

  /** Before eviction the list holds exactly the items that were there and are not removed, with
      the one used as the operation says. */
  lemma UnevictedMembers(items: Recency, op: Operation)
    requires DistinctKeys(items)
    ensures forall x :: x in Unevicted(items, op) <==>
              || (x in items && !Removes(op, x.key) && (op.Get? || !Uses(op, x.key)))
              || (op.Set? && Uses(op, x.key) && x == Item(x.key, op.file, op.pinned))
              || ((op.Pin? || op.Unpin?) && Uses(op, x.key) && x.pinned == op.Pin? &&
                  (x.(pinned := true) in items || x.(pinned := false) in items))
  {
    match op {
      case Get(sessionId, path) => TouchMembers(items, CacheKey(sessionId, path), None);
      case Set(file, _) => WithoutMembers(items, CacheKey(file.sessionId, file.path));
      case Pin(sessionId, path) => TouchMembers(items, CacheKey(sessionId, path), Some(true));
      case Unpin(sessionId, path) => TouchMembers(items, CacheKey(sessionId, path), Some(false));
      case Invalidate(sessionId, path) => WithoutMembers(items, CacheKey(sessionId, path));
      case ClearSession(sessionId) => NotInSessionMembers(items, sessionId);
      case Clear =>
    }
    hide CacheKey, Without, Touch, NotInSession, StartsWith;
  }

  lemma TouchMembers(items: Recency, key: Key, pinned: Option<bool>)
    requires DistinctKeys(items)
    ensures forall x :: x in Touch(items, key, pinned) <==>
              || (x in items && (x.key != key || pinned.None?))
              || (pinned.Some? && x.key == key && x.pinned == pinned.value &&
                  (x.(pinned := true) in items || x.(pinned := false) in items))
  {
    WithoutMembers(items, key);
    FindExact(items, key);
    assert forall x | x in items && x.key == key :: Find(items, key) == Some(x) by {
      forall x | x in items && x.key == key
        ensures Find(items, key) == Some(x)
      {
        assert x.key == Find(items, key).value.key;
      }
    }
    hide Without, Find;
  }

  lemma HeldStep(items: Recency, ops: seq<Operation>, op: Operation)
    requires DistinctKeys(items) && WithinBudget(items) && HeldAs(items, ops)
    ensures HeldAs(Apply(items, op), ops + [op])
  {
    UnevictedMembers(items, op);
    EvictsAfter(items, op);
    EvictMembers(Unevicted(items, op));
    hide Apply, Unevicted, Evict, DistinctKeys, WithinBudget, Uses, Removes, Holds;
    forall x | x in Apply(items, op)
      ensures Holds(ops + [op], x.key) == Some(Stored(x.file, x.pinned))
    {
      assert x in Unevicted(items, op);
      HoldsStep(ops, op, x.key);
      UseIsNoRemoval(op, x.key);
      assert x.(pinned := x.pinned) == x;
    }
  }

  lemma UseIsNoRemoval(op: Operation, key: Key)
    ensures Uses(op, key) ==> !Removes(op, key)
    ensures Uses(op, key) ==> op.Get? || op.Set? || op.Pin? || op.Unpin?
  {
  }

  /** Whatever is cached is the file last set under its key, pinned as it was last set, pinned or
      unpinned, and has not been removed since. */
  lemma {:induction false} FilesAreAsLastSet(ops: seq<Operation>)
    ensures HeldAs(Run(ops), ops)
  {
    if ops != [] {
      var n := |ops| - 1;
      FilesAreAsLastSet(ops[..n]);
      BudgetsAlwaysHold(ops[..n]);
      RunStep(ops[..n], ops[n]);
      assert ops[..n] + [ops[n]] == ops;
      hide Run, HeldAs, DistinctKeys, WithinBudget;
      HeldStep(Run(ops[..n]), ops[..n], ops[n]);
    }
  }

  /** A cached file leaves only when it is removed, or when a file set or unpinned goes over a
      budget and it is unpinned by then. */
  lemma GoneOnlyWhenTold(ops: seq<Operation>, op: Operation, x: Item)
    requires x in Run(ops) && x.key !in KeysOf(Run(ops + [op]))
    ensures || Removes(op, x.key)
            || ((op.Set? || op.Unpin?) && !WithinBudget(Unevicted(Run(ops), op)) && (!x.pinned || Uses(op, x.key)))
  {
    var items := Run(ops);
    BudgetsAlwaysHold(ops);
    RunStep(ops, op);
    UnevictedMembers(items, op);
    EvictsAfter(items, op);
    EvictMembers(Unevicted(items, op));
    var now := Run(ops + [op]);
    hide Run, Apply, Unevicted, Evict, DistinctKeys, WithinBudget, Uses, Removes;
    assert forall y | y in now :: y.key in KeysOf(now) by { InKeys(now); }
    var used := if op.Set? then Item(x.key, op.file, op.pinned)
                else if op.Pin? then x.(pinned := true) else if op.Unpin? then x.(pinned := false) else x;
    assert x == x.(pinned := x.pinned);
    UseIsNoRemoval(op, x.key);
    if !Removes(op, x.key) {
      assert (if Uses(op, x.key) then used else x) in Unevicted(items, op);
    }
  }

  lemma InKeys(items: Recency)
    ensures forall y | y in items :: y.key in KeysOf(items)
  {
  }

  /** So a file that was just got, like one just pinned, stays and is the last of the list. */
  lemma JustUsedIsLast(ops: seq<Operation>, op: Operation, x: Item)
    requires x in Run(ops) && Uses(op, x.key) && (op.Get? || op.Pin?)
    ensures var now := Run(ops + [op]); now != [] && now[|now| - 1].key == x.key && now[|now| - 1].file == x.file
  {
    var items := Run(ops);
    BudgetsAlwaysHold(ops);
    RunStep(ops, op);
    FindExact(items, x.key);
    SameItem(items, x);
    hide Run;
  }

  lemma SameItem(items: Recency, x: Item)
    requires DistinctKeys(items) && x in items
    ensures Find(items, x.key) == Some(x)
  {
    FindExact(items, x.key);
    var i :| 0 <= i < |items| && items[i] == x;
    assert Find(items, x.key).Some?;
    assert Find(items, x.key).value.key == items[i].key;
  }
}
