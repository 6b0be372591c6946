/** The iterator adaptors the library uses on its lists: `position`, `find`, `filter` and
    `filter(..).count()`, each with the facts the rest of the model relies on, and the
    concatenation of lists that a loop pushing into one vector builds. */
module Seqs {
  import opened Wrappers

  /** Index of the first element satisfying `p`, or None when no element does. */
  function FirstIndex<T>(s: seq<T>, p: T -> bool): (r: Option<nat>)
    ensures r.None? <==> forall i :: 0 <= i < |s| ==> !p(s[i])
    ensures r.Some? ==> r.value < |s| && p(s[r.value])
    ensures r.Some? ==> forall i :: 0 <= i < r.value ==> !p(s[i])
  {
    if |s| == 0 then None
    else if p(s[0]) then Some(0)
    else match FirstIndex(s[1..], p)
      case None => None
      case Some(k) => Some(k + 1)
  }

  /** The first element satisfying `p` (`iter().find(p)`). */
  function Find<T>(s: seq<T>, p: T -> bool): (r: Option<T>)
    ensures r.None? <==> forall i :: 0 <= i < |s| ==> !p(s[i])
    ensures r.Some? ==> p(r.value) && r.value in s
    ensures r.Some? ==> exists i :: 0 <= i < |s| && s[i] == r.value && forall j :: 0 <= j < i ==> !p(s[j])
  {
    match FirstIndex(s, p)
    case None => None
    case Some(i) => Some(s[i])
  }

  /** The elements satisfying `p`, in their original order (`iter().filter(p).collect()`). */
  function Filter<T>(s: seq<T>, p: T -> bool): (r: seq<T>)
    ensures |r| <= |s|
    ensures forall i :: 0 <= i < |r| ==> r[i] in s && p(r[i])
    ensures forall i :: 0 <= i < |s| && p(s[i]) ==> s[i] in r
  {
    if |s| == 0 then [] else (if p(s[0]) then [s[0]] else []) + Filter(s[1..], p)
  }

  /** Filtering a concatenation filters each part and keeps them in order. */
  lemma {:induction false} FilterAppend<T>(a: seq<T>, b: seq<T>, p: T -> bool)
    ensures Filter(a + b, p) == Filter(a, p) + Filter(b, p)
  {
    if |a| == 0 {
      assert a + b == b;
    } else {
      assert (a + b)[1..] == a[1..] + b;
      FilterAppend(a[1..], b, p);
    }
  }

  /** Searching a concatenation finds a match in the first part before looking at the second. */
  lemma {:induction false} FindAppend<T>(a: seq<T>, b: seq<T>, p: T -> bool)
    ensures Find(a + b, p) == if Find(a, p).Some? then Find(a, p) else Find(b, p)
  {
    if |a| == 0 {
      assert a + b == b;
    } else {
      assert (a + b)[1..] == a[1..] + b;
      FindAppend(a[1..], b, p);
    }
  }

  /** When something passes the filter, the first thing that passes is what `Find` returns,
      and the filter is empty exactly when `Find` finds nothing. */
  lemma {:induction false} FilterHeadIsFind<T>(s: seq<T>, p: T -> bool)
    ensures |Filter(s, p)| == 0 <==> Find(s, p).None?
    ensures |Filter(s, p)| > 0 ==> Find(s, p) == Some(Filter(s, p)[0])
  {
    if |s| > 0 && !p(s[0]) {
      FilterHeadIsFind(s[1..], p);
    }
  }

  /** The filter has as many elements as there are indices whose element satisfies `p`:
      one more than the count of the other indices when index `k` qualifies. */
  lemma {:induction false} FilterCountsIndex<T>(s: seq<T>, p: T -> bool, k: nat)
    requires k < |s| && p(s[k])
    ensures |Filter(s, p)| == 1 + |Filter(s[..k] + s[k + 1..], p)|
  {
    if k == 0 {
      assert s[..0] + s[1..] == s[1..];
    } else {
      assert (s[..k] + s[k + 1..])[1..] == s[1..][..k - 1] + s[1..][k..];
      FilterCountsIndex(s[1..], p, k - 1);
    }
  }

  /** An element that occurs at two distinct indices and passes the filter is counted twice. */
  lemma {:induction false} FilterCountsPair<T>(s: seq<T>, p: T -> bool, i: nat, j: nat)
    requires i < |s| && j < |s| && i != j && p(s[i]) && p(s[j])
    ensures |Filter(s, p)| > 1
  {
    FilterCountsIndex(s, p, i);
    var rest := s[..i] + s[i + 1..];
    var j' := if j < i then j else j - 1;
    assert rest[j'] == s[j];
    assert s[j] in Filter(rest, p);
  }

  /** Conversely, a filter count above one comes from two distinct indices. */
  lemma {:induction false} FilterCountWitness<T>(s: seq<T>, p: T -> bool, i: nat)
    requires i < |s| && p(s[i]) && |Filter(s, p)| > 1
    ensures exists j :: 0 <= j < |s| && j != i && p(s[j])
  {
    FilterCountsIndex(s, p, i);
    var rest := s[..i] + s[i + 1..];
    var x := Filter(rest, p)[0];
    assert x in Filter(rest, p);
    var m :| 0 <= m < |rest| && rest[m] == x;
    var j := if m < i then m else m + 1;
    assert s[j] == x;
  }

  /** The lists one after another, as a loop that extends one vector with each of them leaves it. */
  function Flatten<T>(xs: seq<seq<T>>): seq<T> {
    if |xs| == 0 then [] else Flatten(xs[..|xs| - 1]) + xs[|xs| - 1]
  }

  /** Extending the flattened prefix by the next list flattens the longer prefix. */
  lemma FlattenPrefix<T>(xs: seq<seq<T>>, i: nat)
    requires i < |xs|
    ensures Flatten(xs[..i + 1]) == Flatten(xs[..i]) + xs[i]
  {
    assert xs[..i + 1][..i] == xs[..i];
  }

  /** The concatenation is empty exactly when every list is. */
  lemma {:induction false} FlattenEmpty<T>(xs: seq<seq<T>>)
    ensures Flatten(xs) == [] <==> forall i :: 0 <= i < |xs| ==> xs[i] == []
  {
    if |xs| > 0 {
      var init := xs[..|xs| - 1];
      FlattenEmpty(init);
      assert forall i :: 0 <= i < |init| ==> init[i] == xs[i];
    }
  }

  /** An element is in the concatenation exactly when it is in one of the lists. */
  lemma {:induction false} FlattenMember<T>(xs: seq<seq<T>>, x: T)
    ensures x in Flatten(xs) <==> exists i :: 0 <= i < |xs| && x in xs[i]
  {
    if |xs| > 0 {
      var init := xs[..|xs| - 1];
      FlattenMember(init, x);
      if x in Flatten(init) {
        var i :| 0 <= i < |init| && x in init[i];
        assert xs[i] == init[i];
      }
      if i :| 0 <= i < |xs| - 1 && x in xs[i] {
        assert init[i] == xs[i];
      }
    }
  }
}
