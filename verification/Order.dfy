/** Ascending iteration over finite sets of ids, as an ordered map gives it. */
module Order {

  lemma Member<T>(s: set<T>) returns (x: T)
    requires s != {}
    ensures x in s
  {
    x :| x in s;
  }

  lemma {:induction false} HasLeast(s: set<int>)
    requires s != {}
    ensures exists m :: m in s && forall k :: k in s ==> m <= k
    decreases |s|
  {
    var x := Member(s);
    var others, m := s - {x}, x;
    assert s == others + {x};
    if others != {} {
      HasLeast(others);
      var y :| y in others && forall k :: k in others ==> y <= k;
      m := if x <= y then x else y;
    }
    assert forall k :: k in s ==> m <= k;
  }

  /** Where an ordered iteration goes next. */
  method Least(s: set<int>) returns (m: int)
    requires s != {}
    ensures m in s && forall k :: k in s ==> m <= k
  {
    HasLeast(s);
    m :| m in s && forall k :: k in s ==> m <= k;
  }

  predicate Ascending(ids: seq<int>) {
    forall j, k :: 0 <= j < k < |ids| ==> ids[j] < ids[k]
  }
}
