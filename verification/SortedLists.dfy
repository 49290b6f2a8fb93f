/** Strictly ascending lists of integers, in place of a library sort of distinct numbers. */
module SortedLists {
  predicate Ascending(s: seq<int>) {
    forall i, j :: 0 <= i < j < |s| ==> s[i] < s[j]
  }

  lemma FrontWithoutLast(s: seq<int>, v: int)
    requires Ascending(s) && s != []
    ensures v in s[..|s| - 1] <==> v in s && v != s[|s| - 1]
    ensures v in s ==> v <= s[|s| - 1]
    ensures Ascending(s[..|s| - 1])
  {
    var m := |s| - 1;
    assert s == s[..m] + [s[m]];
  }

  /** Two ascending lists with the same elements are the same list. */
  lemma {:induction false} AscendingIsUnique(s: seq<int>, t: seq<int>)
    requires Ascending(s) && Ascending(t) && forall v :: v in s <==> v in t
    ensures s == t
  {
    assert (s != [] ==> s[0] in s && s[0] in t) && (t != [] ==> t[0] in t && t[0] in s);
    hide Ascending;
    if s != [] && t != [] {
      var m, n := |s| - 1, |t| - 1;
      FrontWithoutLast(s, t[n]);
      FrontWithoutLast(t, s[m]);
      assert s[m] in t && t[n] in s;
      forall v
        ensures v in s[..m] <==> v in t[..n]
      {
        FrontWithoutLast(s, v);
        FrontWithoutLast(t, v);
      }
      AscendingIsUnique(s[..m], t[..n]);
      assert s == s[..m] + [s[m]] && t == t[..n] + [t[n]];
    }
  }

  lemma Inserted(s: seq<int>, i: nat, v: int, w: int)
    requires i <= |s|
    ensures w in s[..i] + [v] + s[i..] <==> w == v || w in s
  {
    assert s == s[..i] + s[i..];
  }

  lemma InsertedAscending(s: seq<int>, i: nat, v: int)
    requires Ascending(s) && i <= |s|
    requires (forall j :: i <= j < |s| ==> s[j] > v) && (i > 0 ==> s[i - 1] < v)
    ensures Ascending(s[..i] + [v] + s[i..])
  {
    var t := s[..i] + [v] + s[i..];
    forall a, b | 0 <= a < b < |t|
      ensures t[a] < t[b]
    {
      assert t[a] == if a < i then s[a] else if a == i then v else s[a - 1];
      assert t[b] == if b < i then s[b] else if b == i then v else s[b - 1];
    }
  }

  /** Puts a new element into an ascending list. */
  method Insert(s: seq<int>, v: int) returns (t: seq<int>)
    requires Ascending(s) && v !in s
    ensures Ascending(t) && forall w :: w in t <==> w == v || w in s
  {
    var i := |s|;
    while i > 0 && s[i - 1] > v
      invariant 0 <= i <= |s| && forall j :: i <= j < |s| ==> s[j] > v
    {
      i := i - 1;
    }
    t := s[..i] + [v] + s[i..];
    InsertedAscending(s, i, v);
    forall w
      ensures w in t <==> w == v || w in s
    {
      Inserted(s, i, v, w);
    }
  }
}
