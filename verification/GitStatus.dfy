/** Git status lookups for files and folders: a sorted path list searched by
    prefix, against the naive meaning "the strongest status at or below a path". */
module GitStatus {
  import opened CodeUnits

  datatype Status = Modified | Added | Deleted | Untracked | Conflict
  datatype StatusEntry = StatusEntry(path: Str, status: Status)

  /** One root of a report; a missing report is a report without roots. */
  type Root = seq<StatusEntry>

  function Rank(status: Status): (r: int)
    ensures 1 <= r <= 5
  {
    match status
    case Conflict => 5
    case Modified => 4
    case Added => 3
    case Deleted => 2
    case Untracked => 1
  }

  /** All entries in report order. */
  function Flatten(roots: seq<Root>): seq<StatusEntry> {
    if roots == [] then [] else Flatten(roots[..|roots| - 1]) + roots[|roots| - 1]
  }

  /** Later entries win. */
  function ByPath(entries: seq<StatusEntry>): map<Str, Status> {
    if entries == [] then map[]
    else
      var last := entries[|entries| - 1];
      ByPath(entries[..|entries| - 1])[last.path := last.status]
  }

  predicate Sorted(paths: seq<Str>) {
    forall i, j | 0 <= i < j < |paths| :: Less(paths[i], paths[j])
  }

  const SLASH: Unit := 0x2F

  /** The path itself, or anything below it; everything lies below the empty path. */
  predicate AtOrBelow(candidate: Str, path: Str) {
    path == [] || candidate == path || StartsWith(candidate, path + [SLASH])
  }

  /** `status` is the strongest status at or below `path`. */
  ghost predicate Strongest(byPath: map<Str, Status>, path: Str, status: Option<Status>) {
    match status
    case None => forall p | p in byPath :: !AtOrBelow(p, path)
    case Some(s) =>
      && (exists p | p in byPath :: AtOrBelow(p, path) && byPath[p] == s)
      && (forall p | p in byPath && AtOrBelow(p, path) :: Rank(byPath[p]) <= Rank(s))
  }

  /** Ranks tell statuses apart, so the strongest status is unique. */
  lemma StrongestUnique(byPath: map<Str, Status>, path: Str, a: Option<Status>, b: Option<Status>)
    requires Strongest(byPath, path, a) && Strongest(byPath, path, b)
    ensures a == b
  {
  }

  // ---------- Order and prefixes ----------

  /** A string with the prefix does not sort before the prefix. */
  lemma {:induction false} PrefixNotBefore(s: Str, prefix: Str)
    requires StartsWith(s, prefix)
    ensures !Less(s, prefix)
  {
    if prefix != [] {
      assert s[..|prefix|] == prefix;
      assert s[0] == prefix[0];
      assert s[1..][..|prefix[1..]|] == prefix[1..];
      PrefixNotBefore(s[1..], prefix[1..]);
    }
  }

  lemma EmptyPrefix(s: Str)
    ensures StartsWith(s, [])
  {
  }

  lemma StartsWithCons(s: Str, prefix: Str)
    requires s != [] && prefix != []
    ensures StartsWith(s, prefix) <==> s[0] == prefix[0] && StartsWith(s[1..], prefix[1..])
  {
    if |prefix| <= |s| {
      assert s[..|prefix|] == [s[0]] + s[1..][..|prefix| - 1];
      assert prefix == [prefix[0]] + prefix[1..];
    }
  }

  /** A string at or after the prefix that lacks it sorts after every string that has it. */
  lemma {:induction false} PrefixBlockEnds(s: Str, prefix: Str, q: Str)
    requires prefix != [] && StartsWith(s, prefix) && !Less(q, prefix) && !StartsWith(q, prefix)
    ensures Less(s, q)
  {
    StartsWithCons(s, prefix);
    StartsWithCons(q, prefix);
    if q[0] == prefix[0] {
      EmptyPrefix(q[1..]);
      PrefixBlockEnds(s[1..], prefix[1..], q[1..]);
    }
  }

  // ---------- Sorting the keys ----------

  function InsertAt(paths: seq<Str>, i: nat, path: Str): seq<Str>
    requires i <= |paths|
  {
    paths[..i] + [path] + paths[i..]
  }

  method LowerBound(sorted: seq<Str>, value: Str) returns (lo: nat)
    requires Sorted(sorted)
    ensures lo <= |sorted|
    ensures forall i | 0 <= i < lo :: Less(sorted[i], value)
    ensures forall i | lo <= i < |sorted| :: !Less(sorted[i], value)
  {
    lo := 0;
    var hi := |sorted|;
    while lo < hi
      invariant lo <= hi <= |sorted|
      invariant forall i | 0 <= i < lo :: Less(sorted[i], value)
      invariant forall i | hi <= i < |sorted| :: !Less(sorted[i], value)
    {
      var mid := (lo + hi) / 2;
      if Less(sorted[mid], value) {
        forall i | 0 <= i < mid
          ensures Less(sorted[i], value)
        {
          LessTransitive(sorted[i], sorted[mid], value);
        }
        lo := mid + 1;
      } else {
        forall i | mid < i < |sorted|
          ensures !Less(sorted[i], value)
        {
          if Less(sorted[i], value) {
            LessTransitive(sorted[mid], sorted[i], value);
          }
        }
        hi := mid;
      }
    }
  }

  /** `[...keys].sort()` */
  method SortKeys(keys: set<Str>) returns (paths: seq<Str>)
    ensures Sorted(paths)
    ensures forall p :: p in paths <==> p in keys
  {
    paths := [];
    var rest := keys;
    while rest != {}
      invariant rest <= keys && Sorted(paths)
      invariant forall p :: p in paths <==> p in keys - rest
      decreases rest
    {
      var key :| key in rest;
      var i := LowerBound(paths, key);
      InsertSorted(paths, i, key);
      paths := InsertAt(paths, i, key);
      rest := rest - {key};
    }
  }

  lemma InsertSorted(paths: seq<Str>, i: nat, key: Str)
    requires Sorted(paths) && i <= |paths| && key !in paths
    requires forall k | 0 <= k < i :: Less(paths[k], key)
    requires forall k | i <= k < |paths| :: !Less(paths[k], key)
    ensures Sorted(InsertAt(paths, i, key))
    ensures forall p :: p in InsertAt(paths, i, key) <==> p in paths || p == key
  {
    forall k | i <= k < |paths|
      ensures Less(key, paths[k])
    {
      LessTotal(key, paths[k]);
    }
    assert paths == paths[..i] + paths[i..];
  }

  // ---------- The index ----------

  /** The nested loops of the constructor. */
  method IndexReport(roots: seq<Root>) returns (index: map<Str, Status>)
    ensures index == ByPath(Flatten(roots))
  {
    index := map[];
    for r := 0 to |roots|
      invariant index == ByPath(Flatten(roots[..r]))
    {
      ghost var before := Flatten(roots[..r]);
      assert roots[..r + 1][..r] == roots[..r];
      assert before + roots[r][..0] == before;
      for e := 0 to |roots[r]|
        invariant index == ByPath(before + roots[r][..e])
      {
        assert (before + roots[r][..e + 1])[..|before| + e] == before + roots[r][..e];
        index := index[roots[r][e].path := roots[r][e].status];
      }
      assert roots[r][..|roots[r]|] == roots[r];
    }
    assert roots[..|roots|] == roots;
  }

  class GitStatusIndex {
    var paths: seq<Str>
    var byPath: map<Str, Status>

    ghost predicate Valid()
      reads this
    {
      Sorted(paths) && forall p :: p in paths <==> p in byPath
    }

    constructor (roots: seq<Root>)
      ensures Valid()
      ensures byPath == ByPath(Flatten(roots))
    {
      var index := IndexReport(roots);
      var keys := SortKeys(index.Keys);
      byPath := index;
      paths := keys;
    }

    /** Own status, or the strongest status among descendants. */
    method StatusFor(path: Str) returns (best: Option<Status>)
      requires Valid()
      ensures Strongest(byPath, path, best)
    {
      best := if path in byPath then Some(byPath[path]) else None;
      if path == [] {
        best := StrongestOf(byPath, best);
        return;
      }
      var prefix := path + [SLASH];
      var start := LowerBound(paths, prefix);
      var i := start;
      forall k | 0 <= k < start
        ensures !StartsWith(paths[k], prefix)
      {
        if StartsWith(paths[k], prefix) {
          PrefixNotBefore(paths[k], prefix);
        }
      }
      while i < |paths|
        invariant start <= i <= |paths|
        invariant forall k | 0 <= k < i && StartsWith(paths[k], prefix) ::
                    best.Some? && Rank(byPath[paths[k]]) <= Rank(best.value)
        invariant path in byPath ==> best.Some? && Rank(byPath[path]) <= Rank(best.value)
        invariant best.Some? ==> exists p | p in byPath :: AtOrBelow(p, path) && byPath[p] == best.value
        decreases |paths| - i
      {
        var candidate := paths[i];
        if !StartsWith(candidate, prefix) {
          forall k | i <= k < |paths|
            ensures !StartsWith(paths[k], prefix)
          {
            if StartsWith(paths[k], prefix) {
              PrefixBlockEnds(paths[k], prefix, candidate);
              LessIrreflexive(paths[k], candidate);
            }
          }
          break;
        }
        var status := byPath[candidate];
        if best.None? || Rank(status) > Rank(best.value) {
          best := Some(status);
        }
        i := i + 1;
      }
      forall p | p in byPath && AtOrBelow(p, path)
        ensures best.Some? && Rank(byPath[p]) <= Rank(best.value)
      {
        if p != path {
          var k :| 0 <= k < |paths| && paths[k] == p;
        }
      }
    }
  }

  /** The loop over all values for the workspace root. */
  method StrongestOf(byPath: map<Str, Status>, own: Option<Status>) returns (best: Option<Status>)
    requires own == if [] in byPath then Some(byPath[[]]) else None
    ensures Strongest(byPath, [], best)
  {
    best := own;
    var rest := byPath.Keys;
    while rest != {}
      invariant rest <= byPath.Keys
      invariant forall p | p in byPath && p !in rest :: best.Some? && Rank(byPath[p]) <= Rank(best.value)
      invariant best.Some? ==> exists p | p in byPath :: byPath[p] == best.value
      decreases rest
    {
      var key :| key in rest;
      if best.None? || Rank(byPath[key]) > Rank(best.value) {
        best := Some(byPath[key]);
      }
      rest := rest - {key};
    }
  }
}
