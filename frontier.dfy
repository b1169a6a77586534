/**
 * The bookkeeping shared by both change searches: a scratch list that
 * collects candidates not seen before, in the order they are produced.
 */
module Frontier {
  import opened Wrappers

  predicate NoDup<T(==)>(xs: seq<T>) {
    forall i, j :: 0 <= i < j < |xs| ==> xs[i] != xs[j]
  }

  /**
   * The scratch list after the candidates are offered in order: a candidate
   * is appended when it is present and is in neither `seen` nor the list so far.
   */
  function Absorb<T(==)>(temp: seq<T>, seen: seq<T>, cands: seq<Option<T>>): seq<T>
    decreases |cands|
  {
    if cands == [] then temp
    else
      var t := Absorb(temp, seen, cands[..|cands| - 1]);
      var c := cands[|cands| - 1];
      if c.Some? && c.value !in seen && c.value !in t then t + [c.value] else t
  }

  /** Offering one more candidate is one more step of the fold. */
  lemma AbsorbSnoc<T>(temp: seq<T>, seen: seq<T>, cands: seq<Option<T>>, k: nat)
    requires k < |cands|
    ensures Absorb(temp, seen, cands[..k + 1]) ==
      var t := Absorb(temp, seen, cands[..k]);
      if cands[k].Some? && cands[k].value !in seen && cands[k].value !in t then t + [cands[k].value] else t
  {
    assert cands[..k + 1][..k] == cands[..k];
  }

  /**
   * The scratch list holds what it held before plus exactly the offered
   * values not in `seen`, and it stays free of duplicates.
   */
  lemma {:induction false} AbsorbMembers<T>(temp: seq<T>, seen: seq<T>, cands: seq<Option<T>>)
    ensures forall x :: x in Absorb(temp, seen, cands) <==> x in temp || (Some(x) in cands && x !in seen)
    ensures NoDup(temp) ==> NoDup(Absorb(temp, seen, cands))
    decreases |cands|
  {
    if cands != [] {
      var init := cands[..|cands| - 1];
      AbsorbMembers(temp, seen, init);
      assert cands == init + [cands[|cands| - 1]];
      forall x ensures Some(x) in cands <==> Some(x) in init || cands[|cands| - 1] == Some(x) {
      }
    }
  }

  /** Two duplicate-free lists with nothing in common join into a duplicate-free list. */
  lemma NoDupConcat<T>(a: seq<T>, b: seq<T>)
    requires NoDup(a) && NoDup(b)
    requires forall x :: x in a ==> x !in b
    ensures NoDup(a + b)
  {
    forall i, j | 0 <= i < j < |a + b|
      ensures (a + b)[i] != (a + b)[j]
    {
      if j >= |a| && i < |a| {
        assert (a + b)[i] in a && (a + b)[j] in b;
      }
    }
  }

  /** A duplicate-free list has as many entries as its set of members. */
  lemma {:induction false} NoDupCard<T>(a: seq<T>)
    requires NoDup(a)
    ensures |set x | x in a| == |a|
  {
    if a != [] {
      var t := a[1..];
      assert NoDup(t);
      NoDupCard(t);
      assert (set x | x in a) == {a[0]} + (set x | x in t);
      assert a[0] !in t;
    }
  }

  /** Two duplicate-free lists with the same members have the same length. */
  lemma SameMembersSameLength<T>(a: seq<T>, b: seq<T>)
    requires NoDup(a) && NoDup(b)
    requires forall x :: x in a <==> x in b
    ensures |a| == |b|
  {
    NoDupCard(a);
    NoDupCard(b);
    assert (set x | x in a) == (set x | x in b);
  }
}
