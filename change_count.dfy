/**
 * How many ways there are to make `r` cents from pennies, nickels, dimes and
 * quarters, counted by an explicit enumeration of the satchels: for each
 * number of quarters, each number of dimes, each number of nickels, the
 * pennies make up the rest.
 */
module ChangeCount {
  import opened Coins
  import opened Frontier

  /** Ways with pennies and nickels only: one for each number of nickels. */
  function NickelWays(r: nat): nat {
    r / 5 + 1
  }

  /** Ways with pennies, nickels and dimes: no dime, or one dime and the rest. */
  function DimeWays(r: nat): nat {
    NickelWays(r) + if r >= 10 then DimeWays(r - 10) else 0
  }

  /** Ways with all four coins: no quarter, or one quarter and the rest. */
  function Ways(r: nat): nat {
    DimeWays(r) + if r >= 25 then Ways(r - 25) else 0
  }

  /**
   * The satchels with `d` dimes, `q` quarters and at least `n` nickels whose
   * pennies and extra nickels make `r`: first all pennies, then one nickel
   * more each time.
   */
  function Column(r: nat, n: int, d: int, q: int): (col: seq<Satchel>)
    ensures |col| == NickelWays(r)
  {
    [S(r, n, d, q)] + if r >= 5 then Column(r - 5, n + 1, d, q) else []
  }

  /** The satchels with `q` quarters and at least `d` dimes whose other coins make `r`. */
  function Plane(r: nat, d: int, q: int): (pl: seq<Satchel>)
    ensures |pl| == DimeWays(r)
  {
    Column(r, 0, d, q) + if r >= 10 then Plane(r - 10, d + 1, q) else []
  }

  /** The satchels with at least `q` quarters whose coins are worth `r` beyond those `q`. */
  function Space(r: nat, q: int): (sp: seq<Satchel>)
    ensures |sp| == Ways(r)
  {
    Plane(r, 0, q) + if r >= 25 then Space(r - 25, q + 1) else []
  }

  predicate InColumn(x: Satchel, r: int, n: int, d: int, q: int) {
    x.d == d && x.q == q && x.n >= n && x.p >= 0 && x.p + 5 * (x.n - n) == r
  }

  predicate InPlane(x: Satchel, r: int, d: int, q: int) {
    x.q == q && x.d >= d && x.n >= 0 && x.p >= 0 && x.p + 5 * x.n + 10 * (x.d - d) == r
  }

  predicate InSpace(x: Satchel, r: int, q: int) {
    x.q >= q && x.d >= 0 && x.n >= 0 && x.p >= 0 && x.p + 5 * x.n + 10 * x.d + 25 * (x.q - q) == r
  }

  lemma {:induction false} ColumnMembers(r: nat, n: int, d: int, q: int)
    ensures NoDup(Column(r, n, d, q))
    ensures forall x :: x in Column(r, n, d, q) <==> InColumn(x, r, n, d, q)
    decreases r
  {
    var h := S(r, n, d, q);
    if r >= 5 {
      var rest := Column(r - 5, n + 1, d, q);
      ColumnMembers(r - 5, n + 1, d, q);
      NoDupConcat([h], rest);
      forall x ensures x in [h] + rest <==> InColumn(x, r, n, d, q) {
        assert x in [h] + rest <==> x == h || x in rest;
      }
    } else {
      assert Column(r, n, d, q) == [h];
      forall x | InColumn(x, r, n, d, q) ensures x == h {
        assert x.n == n;
      }
    }
  }

  lemma {:induction false} PlaneMembers(r: nat, d: int, q: int)
    ensures NoDup(Plane(r, d, q))
    ensures forall x :: x in Plane(r, d, q) <==> InPlane(x, r, d, q)
    decreases r
  {
    var col := Column(r, 0, d, q);
    ColumnMembers(r, 0, d, q);
    if r >= 10 {
      var rest := Plane(r - 10, d + 1, q);
      PlaneMembers(r - 10, d + 1, q);
      NoDupConcat(col, rest);
      forall x ensures x in col + rest <==> InPlane(x, r, d, q) {
        assert x in col + rest <==> x in col || x in rest;
      }
    } else {
      assert Plane(r, d, q) == col;
    }
  }

  lemma {:induction false} SpaceMembers(r: nat, q: int)
    ensures NoDup(Space(r, q))
    ensures forall x :: x in Space(r, q) <==> InSpace(x, r, q)
    decreases r
  {
    var pl := Plane(r, 0, q);
    PlaneMembers(r, 0, q);
    if r >= 25 {
      var rest := Space(r - 25, q + 1);
      SpaceMembers(r - 25, q + 1);
      NoDupConcat(pl, rest);
      forall x ensures x in pl + rest <==> InSpace(x, r, q) {
        assert x in pl + rest <==> x in pl || x in rest;
      }
    } else {
      assert Space(r, q) == pl;
    }
  }

  /**
   * The enumeration lists every non-negative satchel worth `N` exactly once,
   * so any duplicate-free list of exactly those satchels has `Ways(N)` entries.
   */
  lemma WaysCounted(N: nat, ways: seq<Satchel>)
    requires NoDup(ways)
    requires forall x: Satchel :: x in ways <==> x.NonNegative() && x.Value() == N
    ensures |ways| == Ways(N)
  {
    SpaceMembers(N, 0);
    SameMembersSameLength(ways, Space(N, 0));
  }

  /** There are 242 ways to change a dollar. */
  lemma DollarWays()
    ensures Ways(100) == 242
  {
    assert DimeWays(0) == 1 && DimeWays(25) == 12 && DimeWays(50) == 36;
    assert DimeWays(75) == 72 && DimeWays(100) == 121;
  }
}
