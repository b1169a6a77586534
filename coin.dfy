/**
 * Coins and satchels: the four US coins, a satchel of coin counts, and the
 * single value-preserving substitution `change` that the search applies.
 */
module Coins {
  import opened Wrappers
  import opened Decimal

  /** A coin; its raw value is its face value in cents. */
  datatype Coin = Penny | Nickel | Dime | Quarter {
    function RawValue(): nat {
      match this
      case Penny => 1
      case Nickel => 5
      case Dime => 10
      case Quarter => 25
    }
  }

  /** `Coin.allValues`, which is also the global `coins` of the search: ascending face value. */
  const AllCoins: seq<Coin> := [Penny, Nickel, Dime, Quarter]

  /** A satchel: how many pennies, nickels, dimes and quarters it holds. */
  datatype Satchel = S(p: int, n: int, d: int, q: int) {

    /** The subscript getter `s[coin]`. */
    function Get(c: Coin): int {
      match c
      case Penny => p
      case Nickel => n
      case Dime => d
      case Quarter => q
    }

    /**
     * The subscript setter `s[coin] = v`, applied to a copy (a satchel is a
     * value): the count for `c` becomes `v` and no other count moves.
     */
    function With(c: Coin, v: int): (r: Satchel)
      ensures r.Get(c) == v
      ensures forall c' :: c' != c ==> r.Get(c') == Get(c')
    {
      match c
      case Penny => this.(p := v)
      case Nickel => this.(n := v)
      case Dime => this.(d := v)
      case Quarter => this.(q := v)
    }

    /** Total worth in cents. */
    function Value(): int {
      p + 5 * n + 10 * d + 25 * q
    }

    predicate NonNegative() {
      p >= 0 && n >= 0 && d >= 0 && q >= 0
    }

    /** The printed form `"{p}p {n}n {d}d {q}q"`. */
    function Description(): string {
      IntToString(p) + "p " + IntToString(n) + "n " + IntToString(d) + "d " + IntToString(q) + "q"
    }

    /** `hashValue`; it is not injective and nothing relies on it. */
    function HashValue(): int {
      p + n * 100 + d * 2000 + q * 200000
    }
  }

  /** Two satchels that agree on every coin are the same satchel. */
  lemma SatchelExt(a: Satchel, b: Satchel)
    requires forall c :: a.Get(c) == b.Get(c)
    ensures a == b
  {
    assert a.Get(Penny) == b.Get(Penny) && a.Get(Nickel) == b.Get(Nickel);
    assert a.Get(Dime) == b.Get(Dime) && a.Get(Quarter) == b.Get(Quarter);
  }

  /** Copying one more coin of the others extends the part of `rs` that agrees with `s`. */
  lemma CopyOne(s: Satchel, rs: Satchel, others: set<Coin>, rest: set<Coin>, c: Coin)
    requires c in rest && rest <= others
    requires forall c' :: rs.Get(c') == if c' in others - rest then s.Get(c') else 0
    ensures forall c' :: rs.With(c, s.Get(c)).Get(c') == if c' in others - (rest - {c}) then s.Get(c') else 0
  {
    forall c' ensures rs.With(c, s.Get(c)).Get(c') == if c' in others - (rest - {c}) then s.Get(c') else 0 {
      if c' != c {
        assert (c' in others - (rest - {c})) == (c' in others - rest);
      }
    }
  }

  /** Once every coin of the set of the others has been copied, `rs` agrees with `s` outside `c1` and `c2`. */
  lemma OthersCopied(s: Satchel, rs: Satchel, c1: Coin, c2: Coin, others: set<Coin>)
    requires others == (set c | c in AllCoins) - {c1, c2}
    requires forall c :: rs.Get(c) == if c in others - {} then s.Get(c) else 0
    ensures forall c :: c != c1 && c != c2 ==> rs.Get(c) == s.Get(c)
  {
    forall c | c != c1 && c != c2
      ensures rs.Get(c) == s.Get(c)
    {
      assert c == AllCoins[0] || c == AllCoins[1] || c == AllCoins[2] || c == AllCoins[3];
    }
  }

  /** Two satchels that agree outside `c1` and `c2` agree everywhere once both are set alike. */
  lemma SameOutsidePair(a: Satchel, b: Satchel, c1: Coin, c2: Coin, v1: int, v2: int)
    requires forall c :: c != c1 && c != c2 ==> a.Get(c) == b.Get(c)
    ensures a.With(c1, v1).With(c2, v2) == b.With(c1, v1).With(c2, v2)
  {
    SatchelExt(a.With(c1, v1).With(c2, v2), b.With(c1, v1).With(c2, v2));
  }

  /** The position of the first `c` in `s`. */
  function FirstIndex(s: string, c: char): (k: nat)
    requires c in s
    ensures k < |s| && s[k] == c && c !in s[..k]
  {
    if s[0] == c then 0 else 1 + FirstIndex(s[1..], c)
  }

  lemma {:induction false} FirstIndexAfterHead(a: string, x: string, c: char)
    requires c !in a
    ensures FirstIndex(a + [c] + x, c) == |a|
  {
    if a != [] {
      assert (a + [c] + x)[1..] == a[1..] + [c] + x;
      FirstIndexAfterHead(a[1..], x, c);
    }
  }

  /** A separator absent from both heads splits two equal strings at the same place. */
  lemma SplitAtMarker(a: string, x: string, b: string, y: string, c: char)
    requires c !in a && c !in b
    requires a + [c] + x == b + [c] + y
    ensures a == b && x == y
  {
    var s := a + [c] + x;
    FirstIndexAfterHead(a, x, c);
    FirstIndexAfterHead(b, y, c);
    assert a == s[..|a|] == b;
    assert x == s[|a| + 1..] == y;
  }

  lemma NoLetterInIntToString(i: int, c: char)
    requires c == 'p' || c == 'n' || c == 'd'
    ensures c !in IntToString(i)
  {
  }

  /**
   * The operator `==` on satchels compares their descriptions; it holds
   * exactly when all four counts agree.
   */
  predicate Equal(a: Satchel, b: Satchel) {
    a.Description() == b.Description()
  }

  /** The description is the penny count, the marker `p`, and the rest. */
  function RestAfterP(s: Satchel): string {
    " " + IntToString(s.n) + "n " + IntToString(s.d) + "d " + IntToString(s.q) + "q"
  }

  function RestAfterN(s: Satchel): string {
    " " + IntToString(s.d) + "d " + IntToString(s.q) + "q"
  }

  function RestAfterD(s: Satchel): string {
    " " + IntToString(s.q) + "q"
  }

  lemma DescriptionShape(s: Satchel)
    ensures s.Description() == IntToString(s.p) + ['p'] + RestAfterP(s)
    ensures RestAfterP(s)[1..] == IntToString(s.n) + ['n'] + RestAfterN(s)
    ensures RestAfterN(s)[1..] == IntToString(s.d) + ['d'] + RestAfterD(s)
    ensures RestAfterD(s)[1..|RestAfterD(s)| - 1] == IntToString(s.q)
  {
    LayoutShape(IntToString(s.p), IntToString(s.n), IntToString(s.d), IntToString(s.q));
  }

  /** The layout `<p>p <n>n <d>d <q>q`, peeled one marker at a time, for any four numerals. */
  lemma LayoutShape(p: string, n: string, d: string, q: string)
    ensures p + "p " + n + "n " + d + "d " + q + "q" == p + ['p'] + (" " + n + "n " + d + "d " + q + "q")
    ensures (" " + n + "n " + d + "d " + q + "q")[1..] == n + ['n'] + (" " + d + "d " + q + "q")
    ensures (" " + d + "d " + q + "q")[1..] == d + ['d'] + (" " + q + "q")
    ensures (" " + q + "q")[1..|" " + q + "q"| - 1] == q
  {
  }

  lemma {:induction false} EqualIffSameCounts(a: Satchel, b: Satchel)
    ensures Equal(a, b) <==> a == b
  {
    if Equal(a, b) {
      DescriptionShape(a);
      DescriptionShape(b);
      NoLetterInIntToString(a.p, 'p'); NoLetterInIntToString(b.p, 'p');
      NoLetterInIntToString(a.n, 'n'); NoLetterInIntToString(b.n, 'n');
      NoLetterInIntToString(a.d, 'd'); NoLetterInIntToString(b.d, 'd');
      SplitAtMarker(IntToString(a.p), RestAfterP(a), IntToString(b.p), RestAfterP(b), 'p');
      SplitAtMarker(IntToString(a.n), RestAfterN(a), IntToString(b.n), RestAfterN(b), 'n');
      SplitAtMarker(IntToString(a.d), RestAfterD(a), IntToString(b.d), RestAfterD(b), 'd');
      IntToStringInjective(a.p, b.p);
      IntToStringInjective(a.n, b.n);
      IntToStringInjective(a.d, b.d);
      IntToStringInjective(a.q, b.q);
    }
  }

  /** Satchels that are `==` have the same `hashValue`. */
  lemma EqualSatchelsHashAlike(a: Satchel, b: Satchel)
    requires Equal(a, b)
    ensures a.HashValue() == b.HashValue()
  {
    EqualIffSameCounts(a, b);
  }

  /** The hash is not injective: a dollar in pennies and a single nickel collide. */
  lemma HashCollision()
    ensures S(100, 0, 0, 0).HashValue() == S(0, 1, 0, 0).HashValue()
    ensures !Equal(S(100, 0, 0, 0), S(0, 1, 0, 0))
  {
    EqualIffSameCounts(S(100, 0, 0, 0), S(0, 1, 0, 0));
  }

  /**
   * What `change(s, c1, c2)` computes. Dime to quarter needs a nickel as
   * well (two dimes and a nickel make a quarter); every other pair trades
   * `c2 / c1` of `c1` (integer division) for one `c2`, when `c1` is worth
   * at least one `c2`.
   */
  function Changed(s: Satchel, c1: Coin, c2: Coin): Option<Satchel> {
    if c1 == Dime && c2 == Quarter then
      if s.Get(Nickel) < 1 || s.Get(Dime) < 2 then None
      else Some(S(s.p, s.Get(Nickel) - 1, s.Get(Dime) - 2, s.Get(Quarter) + 1))
    else if s.Get(c1) * c1.RawValue() < c2.RawValue() then None
    else Some(s.With(c1, s.Get(c1) - c2.RawValue() / c1.RawValue()).With(c2, s.Get(c2) + 1))
  }

  /** A forward pair: from a smaller coin to a larger one, the only pairs the search tries. */
  predicate Forward(c1: Coin, c2: Coin) {
    c1.RawValue() < c2.RawValue()
  }

  /**
   * `change` as the code does it: the special dime-to-quarter branch, or a
   * fresh zero satchel into which the two uninvolved coins are copied (in
   * whatever order the set of the others yields them) before `c1` and `c2`
   * are written.
   */
  method Change(s: Satchel, c1: Coin, c2: Coin) returns (r: Option<Satchel>)
    ensures r == Changed(s, c1, c2)
  {
    var v1 := s.Get(c1);
    var v2 := s.Get(c2);
    if c1 == Dime && c2 == Quarter {
      if s.Get(Nickel) < 1 || s.Get(Dime) < 2 {
        return None;
      }
      var v0 := s.Get(Nickel) - 1;
      v1 := v1 - 2;
      v2 := v2 + 1;
      assert Changed(s, c1, c2) == Some(S(s.p, v0, v1, v2));
      return Some(S(s.p, v0, v1, v2));
    } else {
      if v1 * c1.RawValue() < c2.RawValue() {
        return None;
      }
      var others := (set c | c in AllCoins) - {c1, c2};
      var rest := others;
      var rs := S(0, 0, 0, 0);
      while rest != {}
        invariant rest <= others
        invariant forall c :: rs.Get(c) == if c in others - rest then s.Get(c) else 0
        decreases rest
      {
        var c :| c in rest;
        CopyOne(s, rs, others, rest, c);
        rs := rs.With(c, s.Get(c));
        rest := rest - {c};
      }
      OthersCopied(s, rs, c1, c2, others);
      var k := c2.RawValue() / c1.RawValue();
      SameOutsidePair(rs, s, c1, c2, v1 - k, v2 + 1);
      rs := rs.With(c1, v1 - k);
      rs := rs.With(c2, v2 + 1);
      assert Changed(s, c1, c2) == Some(rs);
      return Some(rs);
    }
  }

  /** Dime to quarter fails exactly without a nickel or two dimes, and otherwise trades 1n + 2d for 1q. */
  lemma DimeToQuarter(s: Satchel)
    ensures Changed(s, Dime, Quarter).None? <==> s.n < 1 || s.d < 2
    ensures Changed(s, Dime, Quarter).Some? ==> Changed(s, Dime, Quarter).value == S(s.p, s.n - 1, s.d - 2, s.q + 1)
  {
  }

  /**
   * Every other pair fails exactly when `c1` is worth less than one `c2`;
   * otherwise `c1` drops by `c2 / c1`, `c2` rises by one, and the other two
   * counts are copied.
   */
  lemma DirectExchange(s: Satchel, c1: Coin, c2: Coin)
    requires !(c1 == Dime && c2 == Quarter) && c1 != c2
    ensures Changed(s, c1, c2).None? <==> s.Get(c1) * c1.RawValue() < c2.RawValue()
    ensures Changed(s, c1, c2).Some? ==>
      var t := Changed(s, c1, c2).value;
      t.Get(c1) == s.Get(c1) - c2.RawValue() / c1.RawValue() &&
      t.Get(c2) == s.Get(c2) + 1 &&
      forall c :: c != c1 && c != c2 ==> t.Get(c) == s.Get(c)
  {
  }

  /** A forward move keeps the total value and never makes a count negative. */
  lemma ForwardChangePreserves(s: Satchel, c1: Coin, c2: Coin)
    requires Forward(c1, c2) && s.NonNegative()
    ensures Changed(s, c1, c2).Some? ==>
      Changed(s, c1, c2).value.Value() == s.Value() && Changed(s, c1, c2).value.NonNegative()
  {
  }

  /**
   * Undoing a move: from the result and the pair, the satchel the move came
   * from is recovered (the composite rule gives back one nickel and two dimes).
   */
  function Unchange(t: Satchel, c1: Coin, c2: Coin): (s: Satchel)
    requires c1 != c2
  {
    if c1 == Dime && c2 == Quarter then S(t.p, t.n + 1, t.d + 2, t.q - 1)
    else t.With(c2, t.Get(c2) - 1).With(c1, t.Get(c1) + c2.RawValue() / c1.RawValue())
  }

  lemma ChangeRoundTrip(s: Satchel, c1: Coin, c2: Coin)
    requires c1 != c2 && Changed(s, c1, c2).Some?
    ensures Unchange(Changed(s, c1, c2).value, c1, c2) == s
  {
    if !(c1 == Dime && c2 == Quarter) {
      var t := Changed(s, c1, c2).value;
      var u := Unchange(t, c1, c2);
      forall c ensures u.Get(c) == s.Get(c) { }
      SatchelExt(u, s);
    }
  }

  /** The first scenario of the coin tests: from a dollar in pennies, only moves out of pennies succeed. */
  lemma DollarInPenniesMoves(c1: Coin, c2: Coin)
    requires Forward(c1, c2)
    ensures Changed(S(100, 0, 0, 0), c1, c2).Some? <==> c1 == Penny
  {
  }

  /** The second scenario: from 50p 5n 2d 1q every forward move succeeds. */
  lemma MixedSatchelMoves(c1: Coin, c2: Coin)
    requires Forward(c1, c2)
    ensures Changed(S(50, 5, 2, 1), c1, c2).Some?
  {
  }
}
