/** Small facts about sets and lists of ids. */
module Collections {
  ghost function Any<T>(s: set<T>): (x: T)
    requires s != {}
    ensures x in s
  {
    var x :| x in s;
    x
  }

  lemma Singleton<T>(s: set<T>)
    requires |s| == 1
    ensures forall x, y | x in s && y in s :: x == y
  {
    forall x, y | x in s && y in s
      ensures x == y
    {
      assert |s - {x}| == 0;
    }
  }

  lemma SmallerSet<T>(a: set<T>, b: set<T>)
    requires a < b
    ensures |a| < |b|
  {
    assert b == a + (b - a);
  }

  function Members<T>(list: seq<T>): set<T> { set i | 0 <= i < |list| :: list[i] }

  lemma MembersSnoc<T>(list: seq<T>, last: T)
    ensures Members(list + [last]) == Members(list) + {last}
  {
    assert (list + [last])[|list|] == last;
    assert forall i | 0 <= i < |list| :: (list + [last])[i] == list[i];
  }
}
