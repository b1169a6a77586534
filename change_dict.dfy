/**
 * change.py: the same search written over dicts keyed by face value
 * (1, 5, 10, 25). Its pair loops also try each coin against itself, which
 * only ever reproduces the satchel being visited.
 */
module ChangeDict {
  import opened Wrappers
  import opened Coins
  import opened Frontier
  import ChangeSearch
  import ChangeCount

  /** A Python dict from face value to count. */
  type Dict = map<int, int>

  /** The list `coins`. */
  const Faces: seq<int> := [1, 5, 10, 25]

  predicate WellFormed(D: Dict) {
    D.Keys == {1, 5, 10, 25}
  }

  /** `dict(zip(coins, [N] + [0] * 3))`: N pennies. */
  function Seed(N: int): (D: Dict)
    ensures WellFormed(D)
  {
    map[1 := N, 5 := 0, 10 := 0, 25 := 0]
  }

  /** The satchel a well-formed dict describes, and back. */
  function ToSatchel(D: Dict): Satchel
    requires WellFormed(D)
  {
    S(D[1], D[5], D[10], D[25])
  }

  function FromSatchel(s: Satchel): (D: Dict)
    ensures WellFormed(D) && ToSatchel(D) == s
  {
    map[1 := s.p, 5 := s.n, 10 := s.d, 25 := s.q]
  }

  lemma FromToSatchel(D: Dict)
    requires WellFormed(D)
    ensures FromSatchel(ToSatchel(D)) == D
  {
    assert FromSatchel(ToSatchel(D)).Keys == D.Keys;
  }

  /** The coin with face value `c`. */
  function CoinOf(c: int): Coin
    requires c in Faces
  {
    if c == 1 then Penny else if c == 5 then Nickel else if c == 10 then Dime else Quarter
  }

  /**
   * What `change(D, c1, c2)` returns: None when the move is impossible,
   * otherwise the edited copy. `c1 is 10 and c2 is 25` is the special case;
   * otherwise `c1` loses `c2 / c1` and then `c2` gains one.
   */
  function ChangedDict(D: Dict, c1: int, c2: int): Option<Dict>
    requires WellFormed(D) && c1 in Faces && c2 in Faces
  {
    if c1 == 10 && c2 == 25 then
      if D[10] < 2 || D[5] < 1 then None
      else Some(D[5 := D[5] - 1][10 := D[10] - 2][25 := D[25] + 1])
    else if !(c1 * D[c1] >= c2) then None
    else
      var r := D[c1 := D[c1] - c2 / c1];
      Some(r[c2 := r[c2] + 1])
  }

  /**
   * `change(D, c1, c2)`: copy `D` key by key into `rD`, then edit the copy.
   * Dicts are values here, so the caller's `D` is untouched by construction.
   */
  method ChangeD(D: Dict, c1: int, c2: int) returns (r: Option<Dict>)
    requires WellFormed(D) && c1 in Faces && c2 in Faces
    ensures r == ChangedDict(D, c1, c2)
  {
    var rD: Dict := map[];
    var keys := D.Keys;
    while keys != {}
      invariant keys <= D.Keys
      invariant rD.Keys == D.Keys - keys
      invariant forall k :: k in rD ==> rD[k] == D[k]
      decreases keys
    {
      var k :| k in keys;
      rD := rD[k := D[k]];
      keys := keys - {k};
    }
    assert rD == D;
    if c1 == 10 && c2 == 25 {
      if rD[10] < 2 || rD[5] < 1 {
        return None;
      } else {
        rD := rD[5 := rD[5] - 1];
        rD := rD[10 := rD[10] - 2];
        rD := rD[25 := rD[25] + 1];
      }
    } else {
      if !(c1 * rD[c1] >= c2) {
        return None;
      }
      rD := rD[c1 := rD[c1] - c2 / c1];
      rD := rD[c2 := rD[c2] + 1];
    }
    return Some(rD);
  }

  /** For a pair of different coins the dict version computes what the satchel version does. */
  lemma {:induction false} SameMoveAsSatchel(D: Dict, c1: int, c2: int)
    requires WellFormed(D) && c1 in Faces && c2 in Faces && c1 != c2
    ensures ChangedDict(D, c1, c2).None? <==> Changed(ToSatchel(D), CoinOf(c1), CoinOf(c2)).None?
    ensures ChangedDict(D, c1, c2).Some? ==>
      ChangedDict(D, c1, c2).value == FromSatchel(Changed(ToSatchel(D), CoinOf(c1), CoinOf(c2)).value)
  {
    if c1 == 10 && c2 == 25 {
      SameDimeToQuarter(D);
    } else {
      SameDirectMove(D, c1, c2);
    }
  }

  lemma SameDimeToQuarter(D: Dict)
    requires WellFormed(D)
    ensures ChangedDict(D, 10, 25).None? <==> Changed(ToSatchel(D), Dime, Quarter).None?
    ensures ChangedDict(D, 10, 25).Some? ==>
      ChangedDict(D, 10, 25).value == FromSatchel(Changed(ToSatchel(D), Dime, Quarter).value)
  {
    var s := ToSatchel(D);
    if ChangedDict(D, 10, 25).Some? {
      assert ChangedDict(D, 10, 25).value.Keys == D.Keys;
    }
  }

  lemma SameDirectMove(D: Dict, c1: int, c2: int)
    requires WellFormed(D) && c1 in Faces && c2 in Faces && c1 != c2 && !(c1 == 10 && c2 == 25)
    ensures ChangedDict(D, c1, c2).None? <==> Changed(ToSatchel(D), CoinOf(c1), CoinOf(c2)).None?
    ensures ChangedDict(D, c1, c2).Some? ==>
      ChangedDict(D, c1, c2).value == FromSatchel(Changed(ToSatchel(D), CoinOf(c1), CoinOf(c2)).value)
  {
    CoinOfFace(D, c1);
    CoinOfFace(D, c2);
    if ChangedDict(D, c1, c2).Some? {
      SameDirectResult(D, c1, c2);
    }
  }

  lemma SameDirectResult(D: Dict, c1: int, c2: int)
    requires WellFormed(D) && c1 in Faces && c2 in Faces && c1 != c2 && !(c1 == 10 && c2 == 25)
    requires ChangedDict(D, c1, c2).Some? && Changed(ToSatchel(D), CoinOf(c1), CoinOf(c2)).Some?
    ensures ChangedDict(D, c1, c2).value == FromSatchel(Changed(ToSatchel(D), CoinOf(c1), CoinOf(c2)).value)
  {
    var s := ToSatchel(D);
    var a, b := CoinOf(c1), CoinOf(c2);
    CoinOfFace(D, c1);
    CoinOfFace(D, c2);
    FromToSatchel(D);
    var k := c2 / c1;
    var s1 := s.With(a, s.Get(a) - k);
    var r := D[c1 := D[c1] - k];
    assert ChangedDict(D, c1, c2).value == r[c2 := r[c2] + 1];
    assert Changed(s, a, b).value == s1.With(b, s1.Get(b) + 1);
    FromWith(s, c1, s.Get(a) - k);
    FromWith(s1, c2, s1.Get(b) + 1);
  }

  /** Face value `c` names the coin `CoinOf(c)`, and the dict's count for it is the satchel's. */
  lemma CoinOfFace(D: Dict, c: int)
    requires WellFormed(D) && c in Faces
    ensures CoinOf(c).RawValue() == c && ToSatchel(D).Get(CoinOf(c)) == D[c]
  {
  }

  /** Setting one coin of a satchel is setting its face value in the dict. */
  lemma FromWith(s: Satchel, c: int, v: int)
    requires c in Faces
    ensures FromSatchel(s.With(CoinOf(c), v)) == FromSatchel(s)[c := v]
  {
    assert FromSatchel(s.With(CoinOf(c), v)).Keys == FromSatchel(s)[c := v].Keys;
  }

  /** Trying a coin against itself gives back an equal dict when there is one such coin, else None. */
  lemma SameCoinPair(D: Dict, c: int)
    requires WellFormed(D) && c in Faces && c != 25
    ensures ChangedDict(D, c, c) == if D[c] >= 1 then Some(D) else None
  {
    assert c * D[c] >= c <==> D[c] >= 1 by {
      if c == 1 { } else if c == 5 { } else { }
    }
    assert c / c == 1 by {
      if c == 1 { } else if c == 5 { } else { }
    }
    if D[c] >= 1 {
      var r := D[c := D[c] - 1];
      var r' := r[c := r[c] + 1];
      assert r'.Keys == D.Keys;
      assert forall k :: k in r' ==> r'[k] == D[k];
      assert r' == D;
      assert ChangedDict(D, c, c) == Some(r');
    }
  }

  /** The nine pairs `(coins[i], coins[j])` with `i < 3` and `j >= i`, in loop order. */
  const Pairs: seq<(int, int)> :=
    [(1, 1), (1, 5), (1, 10), (1, 25), (5, 5), (5, 10), (5, 25), (10, 10), (10, 25)]

  function Candidates(D: Dict): (cs: seq<Option<Dict>>)
    requires WellFormed(D)
    ensures |cs| == 9
  {
    seq(9, m requires 0 <= m < 9 => ChangedDict(D, Pairs[m].0, Pairs[m].1))
  }

  function PairsBefore(i: nat, j: nat): nat
    requires i <= 3 && j <= 4
  {
    (if i == 0 then 0 else if i == 1 then 4 else if i == 2 then 7 else 9) + if j > i then j - i else 0
  }

  lemma PairOrder(i: nat, j: nat)
    requires i < 3 && i <= j < 4
    ensures PairsBefore(i, j) < 9 && Pairs[PairsBefore(i, j)] == (Faces[i], Faces[j])
    ensures PairsBefore(i, j + 1) == PairsBefore(i, j) + 1
    ensures PairsBefore(i, 4) == PairsBefore(i + 1, i + 1)
  {
  }

  ghost predicate ValidD(N: int, D: Dict) {
    WellFormed(D) && ChangeSearch.Valid(N, ToSatchel(D))
  }

  ghost function LevelD(D: Dict): int
    requires WellFormed(D)
  {
    ChangeSearch.Level(ToSatchel(D))
  }

  /** Every dict the pair loops produce from a dict worth N is that dict itself or lies on another level at most one up. */
  lemma CandidateLevels(N: int, D: Dict)
    requires ValidD(N, D)
    ensures forall t :: Some(t) in Candidates(D) ==>
      ValidD(N, t) && (t == D || (LevelD(t) != LevelD(D) && LevelD(t) <= LevelD(D) + 1))
  {
    forall t | Some(t) in Candidates(D)
      ensures ValidD(N, t) && (t == D || (LevelD(t) != LevelD(D) && LevelD(t) <= LevelD(D) + 1))
    {
      var m :| 0 <= m < 9 && Candidates(D)[m] == Some(t);
      PairLevel(N, D, m);
    }
  }

  /** The `m`-th pair tried: a coin against itself reproduces `D`, any other pair moves as on satchels. */
  lemma PairLevel(N: int, D: Dict, m: nat)
    requires ValidD(N, D) && m < 9 && ChangedDict(D, Pairs[m].0, Pairs[m].1).Some?
    ensures var t := ChangedDict(D, Pairs[m].0, Pairs[m].1).value;
      ValidD(N, t) && (t == D || (LevelD(t) != LevelD(D) && LevelD(t) <= LevelD(D) + 1))
  {
    var (c1, c2) := Pairs[m];
    if c1 == c2 {
      SameCoinPair(D, c1);
    } else {
      DictMoveLevel(N, D, c1, c2);
    }
  }

  /** A move between two different coins, smaller to larger, acts on the dict as on the satchel. */
  lemma DictMoveLevel(N: int, D: Dict, c1: int, c2: int)
    requires ValidD(N, D) && c1 in Faces && c2 in Faces && c1 < c2 && ChangedDict(D, c1, c2).Some?
    ensures var t := ChangedDict(D, c1, c2).value;
      ValidD(N, t) && LevelD(t) != LevelD(D) && LevelD(t) <= LevelD(D) + 1
  {
    SameMoveAsSatchel(D, c1, c2);
    assert Forward(CoinOf(c1), CoinOf(c2));
    ChangeSearch.MoveLevel(N, ToSatchel(D), CoinOf(c1), CoinOf(c2));
  }

  /** The dict one penny move below `x`. */
  function PennyPredD(x: Dict): Dict
    requires WellFormed(x)
  {
    FromSatchel(ChangeSearch.PennyPred(ToSatchel(x)))
  }

  lemma PennyPredGenerates(N: int, x: Dict)
    requires ValidD(N, x) && LevelD(x) >= 1
    ensures ValidD(N, PennyPredD(x)) && LevelD(PennyPredD(x)) == LevelD(x) - 1
    ensures Some(x) in Candidates(PennyPredD(x))
  {
    ChangeSearch.PennyPredGenerates(N, ToSatchel(x));
    PennyMoveReaches(x);
  }

  /** The penny move from the dict one level below gives back `x`, at its place in the loop order. */
  lemma PennyMoveReaches(x: Dict)
    requires WellFormed(x) && ToSatchel(x).NonNegative() && LevelD(x) >= 1
    ensures Some(x) in Candidates(PennyPredD(x))
  {
    var y := PennyPredD(x);
    var sx := ToSatchel(x);
    var c, m := if x[5] > 0 then 5 else if x[10] > 0 then 10 else 25, if x[5] > 0 then 1 else if x[10] > 0 then 2 else 3;
    assert Changed(ToSatchel(y), Penny, CoinOf(c)) == Some(sx);
    assert ChangedDict(y, 1, c) == Some(x) by {
      SameMoveAsSatchel(y, 1, c);
      FromToSatchel(x);
    }
    assert Candidates(y)[m] == ChangedDict(y, 1, c);
  }

  /** If some dict worth N sits at level `k` or above, one sits exactly at level `k`. */
  lemma LevelsHaveNoGaps(N: int, x: Dict, k: nat)
    requires ValidD(N, x) && LevelD(x) >= k
    ensures ValidD(N, FromSatchel(S(N - 5 * k, k, 0, 0))) && LevelD(FromSatchel(S(N - 5 * k, k, 0, 0))) == k
  {
    ChangeSearch.LevelsHaveNoGaps(N, ToSatchel(x), k);
  }

  ghost predicate IsRound(N: int, L: seq<Dict>, k: int) {
    NoDup(L) &&
    (forall j :: 0 <= j < |L| ==> ValidD(N, L[j])) &&
    forall x :: x in L <==> ValidD(N, x) && LevelD(x) == k
  }

  ghost predicate MidRound(N: int, k: int, L: seq<Dict>, i: nat, results: seq<Dict>, temp: seq<Dict>)
    requires i <= |L|
  {
    (forall x :: x in results <==> ValidD(N, x) && (LevelD(x) < k || x in L[..i])) &&
    NoDup(results) &&
    (forall x :: x in temp ==> ValidD(N, x) && LevelD(x) == k + 1) &&
    NoDup(temp) &&
    (forall x :: ValidD(N, x) && LevelD(x) == k + 1 && PennyPredD(x) in L[..i] ==> x in temp)
  }

  lemma {:induction false} VisitKeepsRound(N: int, k: int, L: seq<Dict>, i: nat, results: seq<Dict>, temp: seq<Dict>)
    requires IsRound(N, L, k) && i < |L|
    requires MidRound(N, k, L, i, results, temp)
    ensures MidRound(N, k, L, i + 1, results + [L[i]],
                     Absorb(temp, results + [L[i]], Candidates(L[i])))
  {
    var s := L[i];
    var results' := results + [s];
    var temp' := Absorb(temp, results', Candidates(s));
    assert L[..i + 1] == L[..i] + [s];
    assert s !in L[..i];
    AbsorbMembers(temp, results', Candidates(s));
    CandidateLevels(N, s);
    forall x | x in temp' ensures ValidD(N, x) && LevelD(x) == k + 1 {
      if x !in temp {
        assert Some(x) in Candidates(s) && x !in results';
      }
    }
    forall x | ValidD(N, x) && LevelD(x) == k + 1 && PennyPredD(x) in L[..i + 1]
      ensures x in temp'
    {
      if PennyPredD(x) == s {
        PennyPredGenerates(N, x);
      }
    }
  }

  lemma RoundComplete(N: int, k: int, L: seq<Dict>, results: seq<Dict>, temp: seq<Dict>)
    requires IsRound(N, L, k) && k >= 0
    requires MidRound(N, k, L, |L|, results, temp)
    ensures IsRound(N, temp, k + 1)
    ensures forall x :: x in results <==> ValidD(N, x) && LevelD(x) < k + 1
  {
    assert L[..|L|] == L;
    forall x | ValidD(N, x) && LevelD(x) == k + 1 ensures x in temp {
      PennyPredGenerates(N, x);
    }
  }

  /** The module-level lists `results` and `temp` of change.py and the amount `N`. */
  class Search {
    const N: nat
    var results: seq<Dict>
    var temp: seq<Dict>

    constructor (amount: nat)
      ensures N == amount && results == [] && temp == []
    {
      N := amount;
      results := [];
      temp := [];
    }

    /** One pass of `for D in L`: append `D`, then try the nine pairs and keep each unseen result. */
    method Visit(D: Dict)
      requires WellFormed(D)
      modifies this
      ensures results == old(results) + [D]
      ensures temp == Absorb(old(temp), results, Candidates(D))
    {
      results := results + [D];
      for i := 0 to 3
        invariant results == old(results) + [D]
        invariant temp == Absorb(old(temp), results, Candidates(D)[..PairsBefore(i, i)])
      {
        for j := i to 4
          invariant results == old(results) + [D]
          invariant temp == Absorb(old(temp), results, Candidates(D)[..PairsBefore(i, j)])
        {
          PairOrder(i, j);
          AbsorbSnoc(old(temp), results, Candidates(D), PairsBefore(i, j));
          var rD := ChangeD(D, Faces[i], Faces[j]);
          CandidateAt(D, i, j);
          if rD.Some? && rD.value != map[] && !(rD.value in results || rD.value in temp) {
            temp := temp + [rD.value];
          }
        }
      }
      assert Candidates(D)[..9] == Candidates(D);
    }

    /**
     * The `while L:` loop, started from the seed: after it `results` holds
     * every dict worth N cents, each once, and `L` and `temp` are empty.
     */
    method Run(L0: seq<Dict>) returns (L: seq<Dict>)
      requires L0 == [Seed(N)] && results == [] && temp == []
      modifies this
      ensures L == [] && temp == []
      ensures forall x :: x in results <==> ValidD(N, x)
      ensures forall x :: x in results ==> WellFormed(x) && x[1] + 5 * x[5] + 10 * x[10] + 25 * x[25] == N
      ensures NoDup(results)
    {
      L := L0;
      ghost var k: nat := 0;
      forall x | ValidD(N, x) && LevelD(x) == 0 ensures x == Seed(N) {
        FromToSatchel(x);
      }
      while |L| > 0
        invariant temp == [] && k <= N + 1
        invariant IsRound(N, L, k)
        invariant forall x :: x in results <==> ValidD(N, x) && LevelD(x) < k
        invariant NoDup(results)
        decreases N + 1 - k
      {
        ChangeSearch.LevelBound(N, ToSatchel(L[0]));
        for i := 0 to |L|
          invariant MidRound(N, k, L, i, results, temp)
        {
          VisitKeepsRound(N, k, L, i, results, temp);
          Visit(L[i]);
        }
        RoundComplete(N, k, L, results, temp);
        L := temp[..];
        temp := [];
        k := k + 1;
      }
      forall x | ValidD(N, x) ensures LevelD(x) < k {
        if LevelD(x) >= k {
          LevelsHaveNoGaps(N, x, k);
        }
      }
    }
  }

  /** The pair the loops try at `(i, j)` is the one at its place in `Candidates`, and a dict it yields is not empty. */
  lemma CandidateAt(D: Dict, i: nat, j: nat)
    requires WellFormed(D) && i < 3 && i <= j < 4
    ensures PairsBefore(i, j) < 9 && Candidates(D)[PairsBefore(i, j)] == ChangedDict(D, Faces[i], Faces[j])
    ensures ChangedDict(D, Faces[i], Faces[j]).Some? ==> ChangedDict(D, Faces[i], Faces[j]).value != map[]
  {
    PairOrder(i, j);
    CandidateWellFormed(D, Faces[i], Faces[j]);
    if ChangedDict(D, Faces[i], Faces[j]).Some? {
      assert 1 in ChangedDict(D, Faces[i], Faces[j]).value;
    }
  }

  lemma CandidateWellFormed(D: Dict, c1: int, c2: int)
    requires WellFormed(D) && c1 in Faces && c2 in Faces
    ensures ChangedDict(D, c1, c2).Some? ==> WellFormed(ChangedDict(D, c1, c2).value)
  {
  }

  /** The script of change.py from `D = {1: N, ...}` through the `while L:` loop. */
  method CountWays(amount: nat) returns (ways: seq<Dict>)
    ensures forall x :: x in ways <==> ValidD(amount, x)
    ensures NoDup(ways)
    ensures |ways| == ChangeCount.Ways(amount)
  {
    var search := new Search(amount);
    var D := Seed(amount);
    var L := [D];
    L := search.Run(L);
    ways := search.results;
    DictsCounted(amount, ways);
  }

  /** A duplicate-free list of exactly the valid dicts worth `N` has as many entries as there are ways to make `N`. */
  lemma DictsCounted(N: nat, ways: seq<Dict>)
    requires forall x :: x in ways <==> ValidD(N, x)
    requires NoDup(ways)
    ensures |ways| == ChangeCount.Ways(N)
  {
    forall i | 0 <= i < |ways| ensures ValidD(N, ways[i]) {
      assert ways[i] in ways;
    }
    var sats := seq(|ways|, i requires 0 <= i < |ways| => ToSatchel(ways[i]));
    forall i, j | 0 <= i < j < |sats| ensures sats[i] != sats[j] {
      FromToSatchel(ways[i]);
      FromToSatchel(ways[j]);
    }
    forall x: Satchel ensures x in sats <==> x.NonNegative() && x.Value() == N {
      if x in sats {
        var i :| 0 <= i < |sats| && sats[i] == x;
        assert ValidD(N, ways[i]);
      }
      if x.NonNegative() && x.Value() == N {
        var D := FromSatchel(x);
        assert ValidD(N, D);
        var i :| 0 <= i < |ways| && ways[i] == D;
        assert sats[i] == x;
      }
    }
    ChangeCount.WaysCounted(N, sats);
  }
}
