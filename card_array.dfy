/**
 * CardArray and its two subclasses Deck and Hand: a list of cards that can
 * describe itself, sort itself (highest first), be sliced, and, for a deck,
 * be dealt round-robin into four hands.
 */
module CardArrays {
  import opened Cards

  /** Which class an object is: the base class or one of its two subclasses. */
  datatype Kind = Plain | DeckKind | HandKind

  /** Non-increasing card order: no later card is greater than an earlier one. */
  predicate SortedDesc(s: seq<Card>) {
    forall i, j :: 0 <= i < j < |s| ==> s[j].N() <= s[i].N()
  }

  /** Put `x` into a list sorted highest first, before the first card it is not smaller than. */
  function Insert(x: Card, s: seq<Card>): (r: seq<Card>)
    requires SortedDesc(s)
    ensures SortedDesc(r) && multiset(r) == multiset(s) + multiset{x}
  {
    if s == [] then [x]
    else if s[0].N() <= x.N() then [x] + s
    else
      var rest := Insert(x, s[1..]);
      HeadBounds(s[0], x, s[1..], rest);
      assert s == [s[0]] + s[1..];
      [s[0]] + rest
  }

  /** A card no smaller than everything in `t` and than `x` can head any sorted arrangement of them. */
  lemma HeadBounds(h: Card, x: Card, t: seq<Card>, rest: seq<Card>)
    requires x.N() <= h.N() && (forall i :: 0 <= i < |t| ==> t[i].N() <= h.N())
    requires multiset(rest) == multiset(t) + multiset{x}
    requires SortedDesc(rest)
    ensures SortedDesc([h] + rest)
  {
    forall i | 0 <= i < |rest| ensures rest[i].N() <= h.N() {
      assert rest[i] in multiset(rest);
      if rest[i] != x {
        assert rest[i] in multiset(t);
      }
    }
  }

  /** The head of a list sorted highest first is at least as high as every card in it. */
  lemma HeadIsHighest(x: seq<Card>, c: Card)
    requires SortedDesc(x) && c in multiset(x)
    ensures c.N() <= x[0].N()
  {
    var i :| 0 <= i < |x| && x[i] == c;
  }

  /** Two lists sorted highest first with the same cards are the same list (keys identify cards). */
  lemma {:induction false} SortedIsUnique(x: seq<Card>, y: seq<Card>)
    requires SortedDesc(x) && SortedDesc(y) && multiset(x) == multiset(y)
    ensures x == y
    decreases |x|
  {
    if x != [] {
      assert |y| == |x| by {
        assert |multiset(y)| == |multiset(x)|;
      }
      HeadIsHighest(y, x[0]);
      HeadIsHighest(x, y[0]);
      KeyIdentifiesCard(x[0], y[0]);
      assert x == [x[0]] + x[1..] && y == [y[0]] + y[1..];
      assert x[0] == y[0];
      assert multiset(x[1..]) == multiset(y[1..]) by {
        assert multiset(x[1..]) == multiset(x) - multiset{x[0]};
        assert multiset(y[1..]) == multiset(y) - multiset{y[0]};
      }
      SortedIsUnique(x[1..], y[1..]);
    }
  }

  /** The descriptions of the cards, in order. */
  function Descs(cs: seq<Card>): (ds: seq<string>)
    ensures |ds| == |cs|
  {
    seq(|cs|, i requires 0 <= i < |cs| => cs[i].Description())
  }

  /** The strings the description joins: all of them up to 13, otherwise the first six, `" ... "`, the last six. */
  function Window(ds: seq<string>): seq<string> {
    if |ds| <= 13 then ds else ds[..6] + [" ... "] + ds[|ds| - 6..]
  }

  /** `joinWithSeparator`: the parts with `sep` between neighbours. */
  function Join(parts: seq<string>, sep: string): string {
    if parts == [] then ""
    else if |parts| == 1 then parts[0]
    else parts[0] + sep + Join(parts[1..], sep)
  }

  /** What `description` shows, part by part. */
  lemma WindowShape(cs: seq<Card>)
    ensures |cs| <= 13 ==> Window(Descs(cs)) == Descs(cs)
    ensures |cs| > 13 ==>
      |Window(Descs(cs))| == 13 && Window(Descs(cs))[6] == " ... " &&
      (forall i :: 0 <= i < 6 ==> Window(Descs(cs))[i] == cs[i].Description()) &&
      (forall j :: 7 <= j < 13 ==> Window(Descs(cs))[j] == cs[|cs| - 13 + j].Description())
  {
  }

  /** The parts collected after the loop over more than 13 descriptions has seen `i` of them. */
  function WindowUpTo(ds: seq<string>, i: nat): seq<string>
    requires 13 < |ds| && i <= |ds|
  {
    (if i <= 6 then ds[..i] else ds[..6] + [" ... "]) + (if i > |ds| - 6 then ds[|ds| - 6..i] else [])
  }

  /** Visiting position `i` adds the marker when `i` is 6, then the description when it is among the first or last six. */
  lemma WindowUpToStep(ds: seq<string>, i: nat)
    requires 13 < |ds| && i < |ds|
    ensures WindowUpTo(ds, i + 1) ==
      WindowUpTo(ds, i) + (if i == 6 then [" ... "] else []) + (if i < 6 || |ds| - i - 1 < 6 then [ds[i]] else [])
  {
    if i < 6 {
      assert ds[..i + 1] == ds[..i] + [ds[i]];
    } else if i >= |ds| - 6 {
      assert ds[|ds| - 6..i + 1] == ds[|ds| - 6..i] + [ds[i]];
    }
  }

  /** The cards a `filter { $0 % 4 == k }.map { self[$0] }` over `0..<n` picks. */
  function Dealt(a: seq<Card>, k: nat, n: nat): seq<Card>
    requires n <= |a|
  {
    if n == 0 then [] else Dealt(a, k, n - 1) + (if (n - 1) % 4 == k then [a[n - 1]] else [])
  }

  /** Hand `k` receives the cards at positions `k`, `k + 4`, `k + 8`, ...: thirteen of the first 52. */
  lemma {:induction false} DealtCards(a: seq<Card>, k: nat, n: nat)
    requires k < 4 && n <= |a|
    ensures |Dealt(a, k, n)| == (n + 3 - k) / 4
    ensures forall m :: 0 <= m < |Dealt(a, k, n)| ==> Dealt(a, k, n)[m] == a[4 * m + k]
  {
    if n > 0 {
      DealtCards(a, k, n - 1);
      var q, r := (n - 1) / 4, (n - 1) % 4;
      assert n - 1 == 4 * q + r;
      if r == k {
        var prev := Dealt(a, k, n - 1);
        assert |prev| == q;
        assert Dealt(a, k, n) == prev + [a[4 * q + k]];
        forall m | 0 <= m <= q
          ensures (prev + [a[4 * q + k]])[m] == a[4 * m + k]
        {
          if m < q {
            assert (prev + [a[4 * q + k]])[m] == prev[m];
          }
        }
      } else {
        assert Dealt(a, k, n) == Dealt(a, k, n - 1);
      }
    }
  }

  /** Dealing one more card adds it to hand `(n - 1) % 4` only. */
  lemma DealtStep(a: seq<Card>, k: nat, n: nat)
    requires 0 < n <= |a|
    ensures multiset(Dealt(a, k, n)) == multiset(Dealt(a, k, n - 1)) + (if (n - 1) % 4 == k then multiset{a[n - 1]} else multiset{})
  {
  }

  /** All the cards the four hands hold after the first `n` positions. */
  function AllHands(a: seq<Card>, n: nat): multiset<Card>
    requires n <= |a|
  {
    multiset(Dealt(a, 0, n)) + multiset(Dealt(a, 1, n)) + multiset(Dealt(a, 2, n)) + multiset(Dealt(a, 3, n))
  }

  /** Dealing position `n - 1` adds its card to the hands once. */
  lemma AllHandsStep(a: seq<Card>, n: nat)
    requires 0 < n <= |a|
    ensures AllHands(a, n) == AllHands(a, n - 1) + multiset{a[n - 1]}
  {
    var c := a[n - 1];
    var r := (n - 1) % 4;
    DealtStep(a, 0, n);
    DealtStep(a, 1, n);
    DealtStep(a, 2, n);
    DealtStep(a, 3, n);
    if r == 0 {
    } else if r == 1 {
    } else if r == 2 {
    } else {
    }
  }

  /** Together the four hands hold each of the first `n` cards exactly once. */
  lemma {:induction false} DealtPartition(a: seq<Card>, n: nat)
    requires n <= |a|
    ensures AllHands(a, n) == multiset(a[..n])
  {
    if n == 0 {
      assert a[..n] == [];
    } else {
      calc {
        AllHands(a, n);
        { AllHandsStep(a, n); }
        AllHands(a, n - 1) + multiset{a[n - 1]};
        { DealtPartition(a, n - 1); }
        multiset(a[..n - 1]) + multiset{a[n - 1]};
        { PrefixSnoc(a, n); }
        multiset(a[..n]);
      }
    }
  }

  lemma PrefixSnoc(a: seq<Card>, n: nat)
    requires 0 < n <= |a|
    ensures multiset(a[..n]) == multiset(a[..n - 1]) + multiset{a[n - 1]}
  {
    assert a[..n] == a[..n - 1] + [a[n - 1]];
  }

  /** The deck in creation order: suit by suit in `Suit.allValues` order, ranks ascending within each suit. */
  function FullDeck(): (d: seq<Card>)
    ensures |d| == 52
  {
    seq(52, i requires 0 <= i < 52 => Card(AllRanks[i % 13], AllSuits[i / 13]))
  }

  /** The deck in creation order grows by the card of suit `si` and rank `ri`. */
  lemma FullDeckStep(si: nat, ri: nat)
    requires si < 4 && ri < 13
    ensures FullDeck()[..13 * si + ri + 1] == FullDeck()[..13 * si + ri] + [Card(AllRanks[ri], AllSuits[si])]
  {
    var i := 13 * si + ri;
    assert i / 13 == si && i % 13 == ri;
    assert FullDeck()[i] == Card(AllRanks[ri], AllSuits[si]);
  }

  /** The new deck's keys are 15, 16, ..., 66 in order. */
  lemma FullDeckKeys(d: seq<Card>)
    requires d == FullDeck()
    ensures forall i :: 0 <= i < |d| ==> d[i].N() == 15 + i
  {
    AllValuesAscending();
  }

  /** The new deck holds every card once, with keys 15, 16, ..., 66 in order. */
  lemma FullDeckContents()
    ensures forall i :: 0 <= i < 52 ==> FullDeck()[i].N() == 15 + i
    ensures forall i, j :: 0 <= i < j < 52 ==> FullDeck()[i] != FullDeck()[j]
    ensures forall c: Card :: c in FullDeck()
  {
    FullDeckKeys(FullDeck());
    AllValuesAscending();
    forall c: Card ensures c in FullDeck() {
      var i := 13 * (c.suit.RawValue() - 1) + c.rank.RawValue() - 2;
      assert AllSuits[i / 13] == c.suit && AllRanks[i % 13] == c.rank;
      assert FullDeck()[i] == c;
    }
  }

  class CardArray {
    var a: seq<Card>
    const kind: Kind

    /** `CardArray(input)`. */
    constructor (input: seq<Card>)
      ensures a == input && kind == Plain
    {
      a := input;
      kind := Plain;
    }

    /** `Hand(input:)`. */
    constructor Hand(input: seq<Card>)
      ensures a == input && kind == HandKind
    {
      a := input;
      kind := HandKind;
    }

    /** `Deck()`: for each suit, for each rank, append the card. */
    constructor Deck()
      ensures a == FullDeck() && kind == DeckKind
    {
      var arr: seq<Card> := [];
      for si := 0 to 4
        invariant arr == FullDeck()[..13 * si]
      {
        for ri := 0 to 13
          invariant arr == FullDeck()[..13 * si + ri]
        {
          FullDeckStep(si, ri);
          arr := arr + [Card(AllRanks[ri], AllSuits[si])];
        }
      }
      a := arr;
      kind := DeckKind;
    }

    function Count(): nat
      reads this
    {
      |a|
    }

    function StartIndex(): nat {
      0
    }

    function EndIndex(): nat
      reads this
    {
      |a|
    }

    /** `self[position]`. */
    function At(i: nat): Card
      reads this
      requires i < |a|
    {
      a[i]
    }

    /** The shared `description` of CardArray, without a subclass's label. */
    method BaseDescription() returns (s: string)
      ensures s == Join(Window(Descs(a)), " ")
    {
      var maxValuesToShow := 13;
      var ret: seq<string> := [];
      ghost var ds := Descs(a);
      if |a| <= maxValuesToShow {
        for i := 0 to |a|
          invariant ret == ds[..i]
        {
          assert ds[..i + 1] == ds[..i] + [ds[i]];
          assert a[i].Description() == ds[i];
          ret := ret + [a[i].Description()];
        }
        assert ds[..|a|] == ds;
      } else {
        var m := maxValuesToShow / 2;
        assert m == 6;
        for i := 0 to |a|
          invariant ret == WindowUpTo(ds, i)
        {
          WindowUpToStep(ds, i);
          assert a[i].Description() == ds[i];
          ghost var before := ret;
          if i == m {
            ret := ret + [" ... "];
          }
          assert ret == before + (if i == 6 then [" ... "] else []);
          ghost var middle := ret;
          if i < m || |a| - i - 1 < m {
            ret := ret + [a[i].Description()];
          }
          assert ret == middle + (if i < 6 || |ds| - i - 1 < 6 then [ds[i]] else []);
        }
        assert ds[|ds| - 6..|ds|] == ds[|ds| - 6..];
      }
      return Join(ret, " ");
    }

    /** `description`, with the label `Deck: ` or `Hand: ` that the subclasses put in front. */
    method Description() returns (s: string)
      ensures s == (match kind case Plain => "" case DeckKind => "Deck: " case HandKind => "Hand: ") + Join(Window(Descs(a)), " ")
    {
      var base := BaseDescription();
      match kind
      case Plain => s := base;
      case DeckKind => s := "Deck: " + base;
      case HandKind => s := "Hand: " + base;
    }

    /** `sortInPlace`: reorder the cards highest first. */
    method SortInPlace()
      modifies this
      ensures SortedDesc(a) && multiset(a) == multiset(old(a))
    {
      var sorted: seq<Card> := [];
      for i := 0 to |a|
        invariant SortedDesc(sorted) && multiset(sorted) == multiset(a[..i])
      {
        assert a[..i + 1] == a[..i] + [a[i]];
        sorted := Insert(a[i], sorted);
      }
      assert a[..|a|] == a;
      a := sorted;
    }

    /** `self[range]`: a new CardArray with the cards from `start` up to, not including, `end`. */
    method Slice(start: nat, end: nat) returns (r: CardArray)
      requires start <= end <= |a|
      ensures fresh(r) && r.kind == Plain && r.a == a[start..end]
    {
      var i := start;
      var ret: seq<Card> := [];
      while true
        invariant start <= i <= end && ret == a[start..i]
        decreases end - i
      {
        if i == end {
          break;
        }
        assert a[start..i + 1] == a[start..i] + [a[i]];
        ret := ret + [a[i]];
        i := i + 1;
      }
      r := new CardArray(ret);
    }

    /**
     * `deal()` on a deck: hand `k` gets the cards at positions below 52 that
     * are `k` modulo 4, sorted highest first. The deck itself is not changed.
     */
    method Deal() returns (hands: seq<CardArray>)
      requires kind == DeckKind && |a| >= 52
      ensures |hands| == 4
      ensures forall k :: 0 <= k < 4 ==> fresh(hands[k]) && HoldsSorted(hands[k], Dealt(a, k, 52))
    {
      var n := 52;  // the range `0..<52` of positions dealt
      var r1 := Dealt(a, 0, n);
      var r2 := Dealt(a, 1, n);
      var r3 := Dealt(a, 2, n);
      var r4 := Dealt(a, 3, n);
      var rs := [r1, r2, r3, r4];
      hands := [];
      for k := 0 to 4
        invariant |hands| == k
        invariant forall m :: 0 <= m < k ==> fresh(hands[m]) && HoldsSorted(hands[m], rs[m])
      {
        var h := new CardArray.Hand(rs[k]);
        h.SortInPlace();
        hands := hands + [h];
      }
    }
  }

  /** `h` is a hand holding exactly `cards`, highest first. */
  predicate HoldsSorted(h: CardArray, cards: seq<Card>)
    reads h
  {
    h.kind == HandKind && SortedDesc(h.a) && multiset(h.a) == multiset(cards)
  }

  /** `count`, `startIndex` and `endIndex` span exactly the stored cards, and `self[i]` reads them. */
  lemma CollectionView(ca: CardArray)
    ensures ca.StartIndex() == 0 && ca.EndIndex() == ca.Count() == |ca.a|
    ensures forall i :: ca.StartIndex() <= i < ca.EndIndex() ==> ca.At(i) == ca.a[i]
  {
  }

  /** Dealing a new deck gives each player thirteen distinct cards and uses every card once. */
  lemma DealingFullDeck(d: seq<Card>, k: nat)
    requires d == FullDeck() && k < 4
    ensures |Dealt(d, k, |d|)| == 13
    ensures forall m :: 0 <= m < 13 ==> Dealt(d, k, |d|)[m].N() == 15 + 4 * m + k
    ensures AllHands(d, |d|) == multiset(d)
  {
    DealtCards(d, k, |d|);
    FullDeckKeys(d);
    assert AllHands(d, |d|) == multiset(d) by {
      DealtPartition(d, |d|);
      assert d[..|d|] == d;
    }
  }
}
