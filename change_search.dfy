/**
 * The breadth-first search of change.swift: from N pennies, apply every
 * forward move to every satchel of the current frontier `L`, collecting the
 * new satchels in `temp`, until a round produces nothing new. `results`
 * ends up holding every way to make N cents, each exactly once.
 */
module ChangeSearch {
  import opened Wrappers
  import opened Coins
  import opened Frontier
  import ChangeCount

  /** A satchel worth N cents with no negative count. */
  predicate Valid(N: int, s: Satchel) {
    s.NonNegative() && s.Value() == N
  }

  /** The number of non-penny coins: the round in which the search first meets `s`. */
  function Level(s: Satchel): int {
    s.n + s.d + s.q
  }

  /** The starting satchel `S(p: N, n: 0, d: 0, q: 0)`. */
  function Seed(N: int): Satchel {
    S(N, 0, 0, 0)
  }

  /** `results.contains(s)` and `temp.contains(s)`: a scan comparing with `==`. */
  function Contains(xs: seq<Satchel>, s: Satchel): (r: bool)
    ensures r <==> s in xs
  {
    if xs == [] then false
    else
      EqualIffSameCounts(xs[0], s);
      Equal(xs[0], s) || Contains(xs[1..], s)
  }

  /** The results of the six forward pairs, in the order the nested loops over `coins` try them. */
  function Candidates(s: Satchel): seq<Option<Satchel>> {
    [Changed(s, Penny, Nickel), Changed(s, Penny, Dime), Changed(s, Penny, Quarter),
     Changed(s, Nickel, Dime), Changed(s, Nickel, Quarter), Changed(s, Dime, Quarter)]
  }

  /** How many forward pairs the loops have tried before reaching `(coins[i], coins[j])`. */
  function PairsBefore(i: nat, j: nat): nat
    requires i <= 4 && j <= 4
  {
    var row := if i == 0 then 0 else if i == 1 then 3 else if i == 2 then 5 else 6;
    row + if j > i + 1 then j - i - 1 else 0
  }

  lemma PairOrder(s: Satchel, i: nat, j: nat)
    requires i < 4 && j < 4
    ensures AllCoins[i].RawValue() < AllCoins[j].RawValue() <==> i < j
    ensures i < j ==> PairsBefore(i, j) < 6 && Candidates(s)[PairsBefore(i, j)] == Changed(s, AllCoins[i], AllCoins[j])
    ensures PairsBefore(i, j + 1) == PairsBefore(i, j) + if i < j then 1 else 0
    ensures PairsBefore(i, 4) == PairsBefore(i + 1, 0)
  {
  }

  /** Every non-negative satchel worth N has at most N / 5 non-penny coins. */
  lemma LevelBound(N: int, s: Satchel)
    requires Valid(N, s)
    ensures 0 <= 5 * Level(s) <= N
  {
  }

  /** If some satchel worth N sits at level `k` or above, one sits exactly at level `k`. */
  lemma LevelsHaveNoGaps(N: int, s: Satchel, k: nat)
    requires Valid(N, s) && Level(s) >= k
    ensures Valid(N, S(N - 5 * k, k, 0, 0)) && Level(S(N - 5 * k, k, 0, 0)) == k
  {
  }

  /**
   * Every forward move from a satchel worth N gives a satchel worth N one
   * level up (out of pennies) or one, two or four levels down, never on the
   * same level: no move links two members of one frontier.
   */
  lemma CandidateLevels(N: int, s: Satchel)
    requires Valid(N, s)
    ensures forall t :: Some(t) in Candidates(s) ==>
      Valid(N, t) && Level(t) != Level(s) && Level(t) <= Level(s) + 1
  {
    forall t | Some(t) in Candidates(s)
      ensures Valid(N, t) && Level(t) != Level(s) && Level(t) <= Level(s) + 1
    {
      var m :| 0 <= m < 6 && Candidates(s)[m] == Some(t);
      if m == 0 { MoveLevel(N, s, Penny, Nickel); }
      else if m == 1 { MoveLevel(N, s, Penny, Dime); }
      else if m == 2 { MoveLevel(N, s, Penny, Quarter); }
      else if m == 3 { MoveLevel(N, s, Nickel, Dime); }
      else if m == 4 { MoveLevel(N, s, Nickel, Quarter); }
      else { MoveLevel(N, s, Dime, Quarter); }
    }
  }

  /** One forward move keeps the value and changes the level by +1, -1, -2 or -4. */
  lemma MoveLevel(N: int, s: Satchel, c1: Coin, c2: Coin)
    requires Valid(N, s) && Forward(c1, c2) && Changed(s, c1, c2).Some?
    ensures var t := Changed(s, c1, c2).value;
      Valid(N, t) && Level(t) != Level(s) && Level(t) <= Level(s) + 1
  {
    ForwardChangePreserves(s, c1, c2);
  }

  /** The satchel one penny move below `x`: turn one of its larger coins back into pennies. */
  function PennyPred(x: Satchel): Satchel {
    if x.n > 0 then S(x.p + 5, x.n - 1, x.d, x.q)
    else if x.d > 0 then S(x.p + 10, x.n, x.d - 1, x.q)
    else S(x.p + 25, x.n, x.d, x.q - 1)
  }

  /** Every satchel above level 0 is produced by a penny move from a satchel one level down. */
  lemma PennyPredGenerates(N: int, x: Satchel)
    requires Valid(N, x) && Level(x) >= 1
    ensures Valid(N, PennyPred(x)) && Level(PennyPred(x)) == Level(x) - 1
    ensures Some(x) in Candidates(PennyPred(x))
  {
    var y := PennyPred(x);
    if x.n > 0 {
      assert Candidates(y)[0] == Some(x);
    } else if x.d > 0 {
      assert Candidates(y)[1] == Some(x);
    } else {
      assert Candidates(y)[2] == Some(x);
    }
  }

  /** `L` is round `k`'s frontier: each satchel worth N at level `k`, once. */
  ghost predicate IsRound(N: int, L: seq<Satchel>, k: int) {
    NoDup(L) && forall x :: x in L <==> Valid(N, x) && Level(x) == k
  }

  /** What holds before the `i`-th satchel of round `k`'s frontier is visited. */
  ghost predicate MidRound(N: int, k: int, L: seq<Satchel>, i: nat, results: seq<Satchel>, temp: seq<Satchel>)
    requires i <= |L|
  {
    (forall x :: x in results <==> Valid(N, x) && (Level(x) < k || x in L[..i])) &&
    NoDup(results) &&
    (forall x :: x in temp ==> Valid(N, x) && Level(x) == k + 1) &&
    NoDup(temp) &&
    (forall x :: Valid(N, x) && Level(x) == k + 1 && PennyPred(x) in L[..i] ==> x in temp)
  }

  /**
   * Visiting one more member of the frontier keeps the round's invariant:
   * the member was not yet in `results`, and what enters `temp` is new and
   * one level up.
   */
  lemma {:induction false} VisitKeepsRound(N: int, k: int, L: seq<Satchel>, i: nat, results: seq<Satchel>, temp: seq<Satchel>)
    requires IsRound(N, L, k) && i < |L|
    requires MidRound(N, k, L, i, results, temp)
    ensures MidRound(N, k, L, i + 1, results + [L[i]],
                     Absorb(temp, results + [L[i]], Candidates(L[i])))
  {
    var s := L[i];
    var results' := results + [s];
    var temp' := Absorb(temp, results', Candidates(s));
    assert L[..i + 1] == L[..i] + [s];
    assert s !in L[..i];
    assert s !in results;
    AbsorbMembers(temp, results', Candidates(s));
    CandidateLevels(N, s);
    forall x | x in temp' ensures Valid(N, x) && Level(x) == k + 1 {
      if x !in temp {
        assert Some(x) in Candidates(s) && x !in results';
      }
    }
    forall x | Valid(N, x) && Level(x) == k + 1 && PennyPred(x) in L[..i + 1]
      ensures x in temp'
    {
      if PennyPred(x) == s {
        PennyPredGenerates(N, x);
      }
    }
  }

  /** At the end of a round, `temp` is the next round's frontier. */
  lemma RoundComplete(N: int, k: int, L: seq<Satchel>, results: seq<Satchel>, temp: seq<Satchel>)
    requires IsRound(N, L, k) && k >= 0
    requires MidRound(N, k, L, |L|, results, temp)
    ensures IsRound(N, temp, k + 1)
    ensures forall x :: x in results <==> Valid(N, x) && Level(x) < k + 1
  {
    assert L[..|L|] == L;
    forall x | Valid(N, x) && Level(x) == k + 1 ensures x in temp {
      PennyPredGenerates(N, x);
    }
  }

  /** The search state of change.swift: the globals `results` and `temp`, and the amount N. */
  class Enumerator {
    const N: nat
    var results: seq<Satchel>
    var temp: seq<Satchel>

    constructor (amount: nat)
      ensures N == amount && results == [] && temp == []
    {
      N := amount;
      results := [];
      temp := [];
    }

    /**
     * One pass of `for s in L`: append `s` to `results`, then try each pair
     * of coins with `c1` worth less than `c2` and keep a result found in
     * neither `results` nor `temp`.
     */
    method Visit(s: Satchel)
      modifies this
      ensures results == old(results) + [s]
      ensures temp == Absorb(old(temp), results, Candidates(s))
    {
      results := results + [s];
      for i := 0 to 4
        invariant results == old(results) + [s]
        invariant temp == Absorb(old(temp), results, Candidates(s)[..PairsBefore(i, 0)])
      {
        for j := 0 to 4
          invariant results == old(results) + [s]
          invariant temp == Absorb(old(temp), results, Candidates(s)[..PairsBefore(i, j)])
        {
          var c1, c2 := AllCoins[i], AllCoins[j];
          PairOrder(s, i, j);
          if c1.RawValue() >= c2.RawValue() {
            continue;
          }
          AbsorbSnoc(old(temp), results, Candidates(s), PairsBefore(i, j));
          var rs := Change(s, c1, c2);
          if rs.Some? {
            var us := rs.value;
            if !Contains(results, us) {
              if !Contains(temp, us) {
                temp := temp + [us];
              }
            }
          }
        }
        PairOrder(s, i, 3);
      }
      assert Candidates(s)[..6] == Candidates(s);
    }

    /**
     * `test(&L)` started from the seed: round after round, until the
     * frontier is empty. Then `results` holds every satchel worth N, each
     * once, and the frontier left for the report is empty.
     */
    method Test(L0: seq<Satchel>) returns (L: seq<Satchel>)
      requires L0 == [Seed(N)] && results == [] && temp == []
      modifies this
      ensures L == [] && temp == []
      ensures forall x :: x in results <==> Valid(N, x)
      ensures NoDup(results)
    {
      L := L0;
      ghost var k: nat := 0;
      while |L| > 0
        invariant temp == [] && k <= N + 1
        invariant IsRound(N, L, k)
        invariant forall x :: x in results <==> Valid(N, x) && Level(x) < k
        invariant NoDup(results)
        decreases N + 1 - k
      {
        LevelBound(N, L[0]);
        for i := 0 to |L|
          invariant MidRound(N, k, L, i, results, temp)
        {
          VisitKeepsRound(N, k, L, i, results, temp);
          Visit(L[i]);
        }
        RoundComplete(N, k, L, results, temp);
        L := temp;
        temp := [];
        k := k + 1;
      }
      forall x | Valid(N, x) ensures Level(x) < k {
        if Level(x) >= k {
          LevelsHaveNoGaps(N, x, k);
        }
      }
    }
  }

  /**
   * The script of change.swift: seed the frontier with N pennies and run
   * `test`. The answer holds each way to make N cents exactly once.
   */
  method CountWays(amount: nat) returns (ways: seq<Satchel>)
    ensures forall x :: x in ways <==> Valid(amount, x)
    ensures NoDup(ways)
    ensures |ways| == ChangeCount.Ways(amount)
  {
    var e := new Enumerator(amount);
    var s := S(amount, 0, 0, 0);
    var L := [s];
    L := e.Test(L);
    ways := e.results;
    ChangeCount.WaysCounted(amount, ways);
  }

  /** `print(results.count)` for `N = 100`: a dollar can be changed in 242 ways. */
  method DollarCount() returns (count: nat)
    ensures count == 242
  {
    var ways := CountWays(100);
    ChangeCount.DollarWays();
    count := |ways|;
  }

  /** One cent can only be made one way, so the search from one penny finds only the seed. */
  lemma OneCentOneWay(x: Satchel)
    ensures Valid(1, x) <==> x == Seed(1)
  {
  }
}
