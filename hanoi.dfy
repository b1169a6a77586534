/**
 * Towers of Hanoi over a dict of three pegs, each a list of discs from
 * bottom to top. `move` pops a disc and pushes it elsewhere after checking
 * that it is legal; `solve` moves a tower by recursion through those moves.
 */
module Hanoi {
  import opened Wrappers

  /** The three keys `'L'`, `'M'` and `'R'` of the peg dict. */
  datatype Peg = L | M | R {
    function Letter(): char {
      match this
      case L => 'L'
      case M => 'M'
      case R => 'R'
    }
  }

  /** The dict `D`: each peg's discs, bottom first. */
  type Pegs = map<Peg, seq<int>>

  /** A peg holds strictly smaller discs as it goes up. */
  predicate Decreasing(s: seq<int>) {
    forall i, j :: 0 <= i < j < |s| ==> s[i] > s[j]
  }

  /** Taking the top disc off keeps a peg stacked legally. */
  lemma DecreasingPop(s: seq<int>)
    requires Decreasing(s) && |s| > 0
    ensures Decreasing(s[..|s| - 1])
  {
  }

  /** Putting a disc smaller than all of a legally stacked peg on top keeps it legal. */
  lemma DecreasingPush(s: seq<int>, v: int)
    requires Decreasing(s) && AllLarger(s, v)
    ensures Decreasing(s + [v])
  {
    assert (s + [v])[..|s|] == s;
  }

  /** All three pegs are present and each is stacked legally. */
  predicate HasPegs(D: Pegs) {
    forall p: Peg :: p in D
  }

  predicate Stacked(D: Pegs) {
    HasPegs(D) && Decreasing(D[L]) && Decreasing(D[M]) && Decreasing(D[R])
  }

  lemma StackedPeg(D: Pegs, p: Peg)
    requires Stacked(D)
    ensures p in D && Decreasing(D[p])
  {
  }

  /** Every disc of `s` is larger than `v`: the check `validate` makes of the destination. */
  predicate AllLarger(s: seq<int>, v: int) {
    forall i :: 0 <= i < |s| ==> s[i] > v
  }

  /** The tower of discs `n, n - 1, ..., 1`, bottom first: `range(1, n + 1)` reversed. */
  function Tower(n: nat): (t: seq<int>)
    ensures |t| == n
  {
    if n == 0 then [] else [n] + Tower(n - 1)
  }

  /** A tower is stacked legally, its discs are 1 to n, and its top is disc 1. */
  lemma {:induction false} TowerShape(n: nat)
    ensures Decreasing(Tower(n))
    ensures forall i :: 0 <= i < n ==> Tower(n)[i] == n - i
  {
    if n > 0 {
      TowerShape(n - 1);
      assert forall i :: 1 <= i < n ==> Tower(n)[i] == Tower(n - 1)[i - 1];
    }
  }

  /**
   * `find_cache(src, dst)`: look the sorted pair of letters up in the table
   * `{'LM': 'R', 'LR': 'M', 'MR': 'L'}` (a two-letter key is written here as
   * a pair of letters). A pair of equal pegs is not in it.
   */
  function FindCache(src: Peg, dst: Peg): (cache: Option<Peg>)
    ensures cache.None? <==> src == dst
    ensures cache.Some? ==> cache.value != src && cache.value != dst
  {
    var pD := map[('L', 'M') := R, ('L', 'R') := M, ('M', 'R') := L];
    var k := if src.Letter() <= dst.Letter() then (src.Letter(), dst.Letter()) else (dst.Letter(), src.Letter());
    if k in pD then Some(pD[k]) else None
  }

  function Pow2(n: nat): nat {
    if n == 0 then 1 else 2 * Pow2(n - 1)
  }

  /** The peg that is neither `a` nor `b`. */
  function Third(a: Peg, b: Peg): (c: Peg)
    requires a != b
    ensures c != a && c != b
  {
    if a != L && b != L then L else if a != M && b != M then M else R
  }

  /** Every peg is one of two different pegs or the third one. */
  lemma ThreePegs(a: Peg, b: Peg, p: Peg)
    requires a != b
    ensures p == a || p == b || p == Third(a, b)
  {
  }

  /** The last `n` discs of `s` are the tower of `n`. */
  predicate TopIsTower(s: seq<int>, n: nat) {
    |s| >= n && s[|s| - n..] == Tower(n)
  }

  /** On a legally stacked peg topped by the tower of `n`, the discs below the tower are larger than `n`. */
  lemma BelowTower(s: seq<int>, n: nat)
    requires Decreasing(s) && n >= 1 && TopIsTower(s, n)
    ensures AllLarger(s[..|s| - n], n)
    ensures n !in s[..|s| - n] && s[|s| - n] == n
  {
    TowerShape(n);
    assert s[|s| - n] == Tower(n)[0];
  }

  /** The module-level dict `D`, and how many times `move` has been called. */
  class Towers {
    var D: Pegs
    var moves: nat

    ghost predicate Valid()
      reads this
    {
      Stacked(D)
    }

    /** `D = {'L': [n, ..., 1], 'M': [], 'R': []}`. */
    constructor (n: nat)
      ensures Valid() && D == map[L := Tower(n), M := [], R := []] && moves == 0
    {
      TowerShape(n);
      LiteralHasPegs(Tower(n), [], []);
      D := map[L := Tower(n), M := [], R := []];
      moves := 0;
    }

    /** `find_value(value)`: a peg holding `value`, or None when no peg does. */
    method FindValue(value: int) returns (k: Option<Peg>)
      requires Valid()
      ensures k.Some? ==> value in D[k.value]
      ensures k.None? <==> forall p: Peg :: value !in D[p]
    {
      var keys := D.Keys;
      while keys != {}
        invariant keys <= D.Keys
        invariant forall p: Peg :: p !in keys ==> value !in D[p]
        decreases keys
      {
        var p :| p in keys;
        if value in D[p] {
          return Some(p);
        }
        keys := keys - {p};
      }
      return None;
    }

    /** `validate(v, dst)`: whether the assertion holds for every disc on `dst`. */
    method Validate(v: int, dst: Peg) returns (ok: bool)
      requires Valid()
      ensures ok <==> AllLarger(D[dst], v)
    {
      var items := D[dst];
      for i := 0 to |items|
        invariant AllLarger(items[..i], v)
      {
        if !(items[i] > v) {
          return false;
        }
      }
      assert items[..|items|] == items;
      return true;
    }

    /**
     * `move(value, dst)`: find the peg holding `value`, check the
     * destination, pop `value` off the top of its peg and push it onto `dst`.
     * The assertions of the source are the requires: `value` sits on top of
     * `from` and nowhere else, and every disc on `dst` is larger.
     */
    method Move(value: int, dst: Peg, ghost from: Peg)
      requires Valid() && CanMove(D, value, from, dst)
      modifies this
      ensures Valid() && Moved(old(D), D, value, from, dst)
      ensures moves == old(moves) + 1
    {
      moves := moves + 1;
      MoveOutcome(D, value, from, dst);
      var src := FindValue(value);
      var ok := Validate(value, dst);
      assert ok;
      var stack := D[src.value];
      D := D[src.value := stack[..|stack| - 1]];
      D := D[dst := D[dst] + [value]];
    }

    /**
     * The first two lines of `solve(value, dst)`: `src = find_value(value)`,
     * then `cache = find_cache(src, dst)`. The peg found is `src`, so the
     * spare peg is the one that is neither `src` nor `dst`.
     */
    method SpareFor(value: int, dst: Peg, ghost src: Peg) returns (cache: Peg)
      requires Valid() && value >= 1 && Ready(D, value, src, dst)
      ensures cache == Third(src, dst)
    {
      FoundOnSource(D, value, src, dst);
      var found := FindValue(value);
      assert found == Some(src);
      cache := FindCache(found.value, dst).value;
    }

    /**
     * `solve(value, dst)`: discs 1 to `value` form the top of peg `src`,
     * and the other two pegs hold only larger discs. Afterwards the tower is
     * on `dst`, nothing under it has moved, and `move` has been called
     * `2^value - 1` times.
     */
    method Solve(value: int, dst: Peg, ghost src: Peg)
      requires Valid() && value >= 1 && Ready(D, value, src, dst)
      modifies this
      ensures Valid() && Carried(old(D), D, value, src, dst)
      ensures moves == old(moves) + Pow2(value) - 1
      decreases value
    {
      ghost var D0 := D;
      if value == 1 {
        BaseReady(D, src, dst);
        Move(1, dst, src);
        BaseCarried(D0, D, src, dst);
        return;
      }
      var cache := SpareFor(value, dst, src);

      FirstHalfReady(D0, value, src, dst);
      Solve(value - 1, cache, src);
      ghost var D1 := D;
      MiddleMoveReady(D0, D1, value, src, dst);
      Move(value, dst, src);
      ghost var D2 := D;
      SecondHalfReady(D0, D1, D2, value, src, dst);
      Solve(value - 1, dst, cache);
      SolveComplete(D0, D1, D2, D, value, src, dst);
    }
  }

  /** The assertions `move(value, dst)` makes: `value` is on top of `from`, on no other peg, and smaller than every disc on `dst`. */
  predicate CanMove(D: Pegs, value: int, from: Peg, dst: Peg) {
    HasPegs(D) && from != dst && |D[from]| > 0 && D[from][|D[from]| - 1] == value
    && value !in D[Third(from, dst)] && AllLarger(D[dst], value)
  }

  /** `D` is `D0` after disc `value` went from the top of `from` to the top of `dst`. */
  predicate Moved(D0: Pegs, D: Pegs, value: int, from: Peg, dst: Peg) {
    HasPegs(D0) && HasPegs(D) && from != dst && |D0[from]| > 0 && D0[from][|D0[from]| - 1] == value
    && D[from] == D0[from][..|D0[from]| - 1] && D[dst] == D0[dst] + [value]
    && D[Third(from, dst)] == D0[Third(from, dst)]
  }

  /** What `solve(n, dst)` needs: the tower of `n` tops `src`, and the other two pegs hold only larger discs. */
  predicate Ready(D: Pegs, n: nat, src: Peg, dst: Peg) {
    HasPegs(D) && src != dst && TopIsTower(D[src], n)
    && AllLarger(D[dst], n) && AllLarger(D[Third(src, dst)], n)
  }

  /** `D` is `D0` after the tower of `n` went from the top of `src` to the top of `dst`, the third peg untouched. */
  predicate Carried(D0: Pegs, D: Pegs, n: nat, src: Peg, dst: Peg) {
    HasPegs(D0) && HasPegs(D) && src != dst && |D0[src]| >= n
    && D[src] == D0[src][..|D0[src]| - n] && D[dst] == D0[dst] + Tower(n)
    && D[Third(src, dst)] == D0[Third(src, dst)]
  }

  /**
   * A legal move finds `value` on `from` alone, and popping it there and
   * pushing it onto `dst` keeps every peg stacked legally.
   */
  lemma MoveOutcome(D: Pegs, value: int, from: Peg, dst: Peg)
    requires Stacked(D) && CanMove(D, value, from, dst)
    ensures value in D[from] && forall p: Peg :: value in D[p] ==> p == from
    ensures var D1 := D[from := D[from][..|D[from]| - 1]];
      var D2 := D1[dst := D1[dst] + [value]];
      Stacked(D2) && Moved(D, D2, value, from, dst)
  {
    assert D[from][|D[from]| - 1] == value;
    forall p: Peg | value in D[p] ensures p == from {
      ThreePegs(from, dst, p);
    }
    StackedPeg(D, from);
    StackedPeg(D, dst);
    DecreasingPop(D[from]);
    DecreasingPush(D[dst], value);
    var D1 := D[from := D[from][..|D[from]| - 1]];
    var D2 := D1[dst := D1[dst] + [value]];
    forall p: Peg ensures p in D2 && Decreasing(D2[p]) {
      StackedPeg(D, p);
    }
  }

  /** Every disc on the three pegs, counted with multiplicity. */
  function Discs(D: Pegs): multiset<int>
    requires HasPegs(D)
  {
    multiset(D[L]) + multiset(D[M]) + multiset(D[R])
  }

  /** The discs of the three pegs, whichever two of them are named first. */
  lemma DiscsAnyOrder(D: Pegs, a: Peg, b: Peg)
    requires HasPegs(D) && a != b
    ensures Discs(D) == multiset(D[a]) + multiset(D[b]) + multiset(D[Third(a, b)])
  {
  }

  /** A move takes no disc away and adds none: the multiset of all discs is unchanged. */
  lemma {:induction false} MoveKeepsDiscs(D0: Pegs, D: Pegs, value: int, from: Peg, dst: Peg)
    requires Moved(D0, D, value, from, dst)
    ensures Discs(D) == Discs(D0)
  {
    var s := D0[from];
    assert s == s[..|s| - 1] + [value];
    DiscsAnyOrder(D0, from, dst);
    DiscsAnyOrder(D, from, dst);
  }

  /** Carrying a tower takes no disc away and adds none. */
  lemma {:induction false} CarryKeepsDiscs(D0: Pegs, D: Pegs, n: nat, src: Peg, dst: Peg)
    requires Carried(D0, D, n, src, dst) && TopIsTower(D0[src], n)
    ensures Discs(D) == Discs(D0)
  {
    var s := D0[src];
    assert s == s[..|s| - n] + s[|s| - n..];
    DiscsAnyOrder(D0, src, dst);
    DiscsAnyOrder(D, src, dst);
  }

  /** A single disc ready to be solved may be moved. */
  lemma BaseReady(D: Pegs, src: Peg, dst: Peg)
    requires Stacked(D) && Ready(D, 1, src, dst)
    ensures CanMove(D, 1, src, dst)
  {
    StackedPeg(D, src);
    BelowTower(D[src], 1);
    assert D[src] == D[src][..|D[src]| - 1] + [1];
  }

  /** Moving a single disc carries the tower of one. */
  lemma BaseCarried(D0: Pegs, D: Pegs, src: Peg, dst: Peg)
    requires Moved(D0, D, 1, src, dst)
    ensures Carried(D0, D, 1, src, dst)
  {
    assert Tower(1) == [1];
  }

  /** When the tower of `n` tops `src`, disc `n` is found on `src` and on no other peg. */
  lemma FoundOnSource(D: Pegs, n: nat, src: Peg, dst: Peg)
    requires Stacked(D) && n >= 1 && Ready(D, n, src, dst)
    ensures n in D[src]
    ensures forall p: Peg :: n in D[p] ==> p == src
  {
    StackedPeg(D, src);
    BelowTower(D[src], n);
    assert D[src][|D[src]| - n] == n;
    forall p: Peg | n in D[p] ensures p == src {
      ThreePegs(src, dst, p);
    }
  }

  /** Before the first recursive call: the tower of `n - 1` may go from `src` to the spare peg. */
  lemma FirstHalfReady(D0: Pegs, n: nat, src: Peg, dst: Peg)
    requires n >= 2 && Ready(D0, n, src, dst)
    ensures Ready(D0, n - 1, src, Third(src, dst))
    ensures Third(src, Third(src, dst)) == dst
  {
    TowerTail(D0[src], n);
  }

  /** Once the smaller tower is on the spare peg, disc `n` is on top of `src` and may go to `dst`. */
  lemma MiddleMoveReady(D0: Pegs, D1: Pegs, n: nat, src: Peg, dst: Peg)
    requires n >= 2 && Ready(D0, n, src, dst)
    requires Carried(D0, D1, n - 1, src, Third(src, dst))
    ensures CanMove(D1, n, src, dst)
  {
    var c := Third(src, dst);
    assert Third(src, c) == dst;
    TowerTail(D0[src], n);
    var base := D0[src][..|D0[src]| - n];
    assert D1[src] == base + [n];
    TowerShape(n - 1);
    assert n !in Tower(n - 1);
    assert n !in D0[c];
  }

  /** Once disc `n` is on `dst`, the smaller tower may follow it there. */
  lemma SecondHalfReady(D0: Pegs, D1: Pegs, D2: Pegs, n: nat, src: Peg, dst: Peg)
    requires Stacked(D0) && n >= 2 && Ready(D0, n, src, dst)
    requires Carried(D0, D1, n - 1, src, Third(src, dst))
    requires Moved(D1, D2, n, src, dst)
    ensures Ready(D2, n - 1, Third(src, dst), dst)
  {
    var c := Third(src, dst);
    assert Third(src, c) == dst;
    assert Third(c, dst) == src;
    TowerOnTop(D0[c], n - 1);
    TowerTail(D0[src], n);
    StackedPeg(D0, src);
    BelowTower(D0[src], n);
    var base := D0[src][..|D0[src]| - n];
    assert D2[src] == base;
    AllLargerWeaken(base, n, n - 1);
    AllLargerAppend(D0[dst], n - 1, n);
  }

  /** After the second recursive call the whole tower has moved from `src` to `dst`. */
  lemma SolveComplete(D0: Pegs, D1: Pegs, D2: Pegs, D3: Pegs, n: nat, src: Peg, dst: Peg)
    requires n >= 2 && Ready(D0, n, src, dst)
    requires Carried(D0, D1, n - 1, src, Third(src, dst))
    requires Moved(D1, D2, n, src, dst)
    requires Carried(D2, D3, n - 1, Third(src, dst), dst)
    ensures Carried(D0, D3, n, src, dst)
  {
    var c := Third(src, dst);
    assert Third(src, c) == dst;
    assert Third(c, dst) == src;
    PopUnderTower(D0[src], n);
    DropTail(D0[c], Tower(n - 1));
    TowerUnder(D0[dst], n);
  }

  /** Popping disc `n` once the tower of `n - 1` has left leaves what was under the tower of `n`. */
  lemma PopUnderTower(s: seq<int>, n: nat)
    requires n >= 2 && TopIsTower(s, n)
    ensures var t := s[..|s| - (n - 1)]; |t| > 0 && t[..|t| - 1] == s[..|s| - n]
  {
    TowerTail(s, n);
  }

  /** Disc `n` with the tower of `n - 1` on it is the tower of `n`. */
  lemma TowerUnder(s: seq<int>, n: nat)
    requires n >= 1
    ensures s + [n] + Tower(n - 1) == s + Tower(n)
  {
  }

  /** A tower of `n >= 2` is disc `n` under a tower of `n - 1`. */
  lemma TowerTail(s: seq<int>, n: nat)
    requires n >= 2 && TopIsTower(s, n)
    ensures TopIsTower(s, n - 1)
    ensures s[..|s| - (n - 1)] == s[..|s| - n] + [n]
  {
    assert s[|s| - (n - 1)..] == s[|s| - n..][1..];
    assert s[..|s| - (n - 1)] == s[..|s| - n] + [s[|s| - n]];
  }

  /** Whatever lies under it, a tower put on top is the top. */
  lemma TowerOnTop(s: seq<int>, n: nat)
    ensures TopIsTower(s + Tower(n), n)
  {
    assert (s + Tower(n))[|s|..] == Tower(n);
  }

  lemma AllLargerWeaken(s: seq<int>, v: int, w: int)
    requires AllLarger(s, v) && w <= v
    ensures AllLarger(s, w)
  {
  }

  lemma AllLargerAppend(s: seq<int>, v: int, x: int)
    requires AllLarger(s, v) && x > v
    ensures AllLarger(s + [x], v)
  {
  }

  /** Taking the last `|b|` discs off `a + b` leaves `a`. */
  lemma DropTail(a: seq<int>, b: seq<int>)
    ensures (a + b)[..|a + b| - |b|] == a
  {
  }

  /** A dict literal over the three letters has every peg. */
  lemma LiteralHasPegs(l: seq<int>, m: seq<int>, r: seq<int>)
    ensures HasPegs(map[L := l, M := m, R := r])
  {
    forall p: Peg ensures p in map[L := l, M := m, R := r] {
      assert p == L || p == M || p == R;
    }
  }

  /** Two peg dicts that agree on every peg are equal. */
  lemma PegsExt(a: Pegs, b: Pegs)
    requires HasPegs(a) && HasPegs(b) && a[L] == b[L] && a[M] == b[M] && a[R] == b[R]
    ensures a == b
  {
    forall p: Peg ensures a[p] == b[p] {
      assert p == L || p == M || p == R;
    }
    assert a.Keys == b.Keys;
  }

  /** The script: five discs on `L`, solved onto `R` in 31 moves. */
  method Run() returns (final: Pegs, moves: nat)
    ensures final == map[L := [], M := [], R := [5, 4, 3, 2, 1]]
    ensures moves == 31
  {
    var t := new Towers(5);
    assert Tower(5) == [5, 4, 3, 2, 1];
    assert AllLarger([], 5);
    assert Third(L, R) == M;
    t.Solve(5, R, L);
    assert t.D[L] == [] && t.D[M] == [] && t.D[R] == [5, 4, 3, 2, 1];
    LiteralHasPegs([], [], [5, 4, 3, 2, 1]);
    PegsExt(t.D, map[L := [], M := [], R := [5, 4, 3, 2, 1]]);
    final := t.D;
    moves := t.moves;
  }
}
