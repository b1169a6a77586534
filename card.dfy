/**
 * Playing cards: suits in bridge order, ranks two to ace, and the card
 * ordering built on the key `n = 13 * suit + rank`.
 */
module Cards {
  import opened Decimal

  datatype Suit = Clubs | Diamonds | Hearts | Spades {
    function RawValue(): nat {
      match this
      case Clubs => 1
      case Diamonds => 2
      case Hearts => 3
      case Spades => 4
    }

    /** The suit symbol: the card glyphs U+2663, U+2666, U+2665, U+2660. */
    function Description(): string {
      match this
      case Clubs => "\U{2663}"
      case Diamonds => "\U{2666}"
      case Hearts => "\U{2665}"
      case Spades => "\U{2660}"
    }
  }

  /** `Suit.allValues`. */
  const AllSuits: seq<Suit> := [Clubs, Diamonds, Hearts, Spades]

  datatype Rank = Two | Three | Four | Five | Six | Seven | Eight | Nine | Ten | Jack | Queen | King | Ace {
    function RawValue(): nat {
      match this
      case Two => 2
      case Three => 3
      case Four => 4
      case Five => 5
      case Six => 6
      case Seven => 7
      case Eight => 8
      case Nine => 9
      case Ten => 10
      case Jack => 11
      case Queen => 12
      case King => 13
      case Ace => 14
    }

    /** A, K, Q, J and T for the court cards and the ten; the number otherwise. */
    function Description(): string {
      match this
      case Ace => "A"
      case King => "K"
      case Queen => "Q"
      case Jack => "J"
      case Ten => "T"
      case _ => NatToString(RawValue())
    }
  }

  /** `Rank.allValues`. */
  const AllRanks: seq<Rank> := [Two, Three, Four, Five, Six, Seven, Eight, Nine, Ten, Jack, Queen, King, Ace]

  datatype Card = Card(rank: Rank, suit: Suit) {
    /** The key `n` fixed by the initializer. */
    function N(): (n: int)
      ensures 15 <= n <= 66
    {
      13 * suit.RawValue() + rank.RawValue()
    }

    function HashValue(): int {
      N()
    }

    /** The rank's letter or number followed by the suit symbol. */
    function Description(): string {
      rank.Description() + suit.Description()
    }
  }

  /** The operator `==`: same suit and same rank. */
  predicate Eq(a: Card, b: Card) {
    a.suit == b.suit && a.rank == b.rank
  }

  /** The operator `<`: a smaller key. */
  predicate Less(a: Card, b: Card) {
    a.N() < b.N()
  }

  /** The operator `>`: neither `<` nor `==`. */
  predicate Greater(a: Card, b: Card) {
    if Less(a, b) then false
    else if Eq(a, b) then false
    else true
  }

  lemma RankValuesDistinct(r1: Rank, r2: Rank)
    ensures r1.RawValue() == r2.RawValue() <==> r1 == r2
    ensures 2 <= r1.RawValue() <= 14
  {
  }

  /** The key identifies the card: `==` holds exactly when the keys agree, and so when the hashes agree. */
  lemma KeyIdentifiesCard(a: Card, b: Card)
    ensures a.N() == b.N() <==> Eq(a, b)
    ensures Eq(a, b) <==> a == b
    ensures a.HashValue() == b.HashValue() <==> a == b
  {
    RankValuesDistinct(a.rank, b.rank);
    RankValuesDistinct(b.rank, a.rank);
  }

  /** `<` is bridge order: by suit first (clubs lowest), then by rank within a suit. */
  lemma LessIsSuitMajor(a: Card, b: Card)
    ensures Less(a, b) <==>
      a.suit.RawValue() < b.suit.RawValue() ||
      (a.suit == b.suit && a.rank.RawValue() < b.rank.RawValue())
  {
    RankValuesDistinct(a.rank, b.rank);
    RankValuesDistinct(b.rank, a.rank);
  }

  /** Exactly one of `<`, `==` and `>` holds, and `>` is `<` with the operands swapped. */
  lemma Trichotomy(a: Card, b: Card)
    ensures Less(a, b) || Eq(a, b) || Greater(a, b)
    ensures !(Less(a, b) && Eq(a, b)) && !(Less(a, b) && Greater(a, b)) && !(Eq(a, b) && Greater(a, b))
    ensures Greater(a, b) <==> Less(b, a)
  {
    KeyIdentifiesCard(a, b);
  }

  /** Rank descriptions are single characters and tell the ranks apart. */
  lemma RankDescriptions(r1: Rank, r2: Rank)
    ensures |r1.Description()| == 1
    ensures r1.Description() == r2.Description() <==> r1 == r2
  {
  }

  /** A card's two-character description identifies it. */
  lemma DescriptionIdentifiesCard(a: Card, b: Card)
    ensures a.Description() == b.Description() <==> a == b
  {
    RankDescriptions(a.rank, b.rank);
    if a.Description() == b.Description() {
      assert a.Description()[0] == b.Description()[0];
      assert a.Description()[1..] == b.Description()[1..];
      assert a.rank.Description() == [a.Description()[0]];
      assert b.rank.Description() == [b.Description()[0]];
    }
  }

  /** `allValues` lists every suit and every rank once, in ascending raw value. */
  lemma AllValuesAscending()
    ensures |AllSuits| == 4 && |AllRanks| == 13
    ensures forall i, j :: 0 <= i < j < 4 ==> AllSuits[i].RawValue() < AllSuits[j].RawValue()
    ensures forall i, j :: 0 <= i < j < 13 ==> AllRanks[i].RawValue() < AllRanks[j].RawValue()
    ensures forall s: Suit :: s in AllSuits
    ensures forall r: Rank :: r in AllRanks
    ensures forall i :: 0 <= i < 4 ==> AllSuits[i].RawValue() == i + 1
    ensures forall j :: 0 <= j < 13 ==> AllRanks[j].RawValue() == j + 2
  {
    forall r: Rank ensures r in AllRanks {
      assert AllRanks[r.RawValue() - 2] == r;
    }
    forall s: Suit ensures s in AllSuits {
      assert AllSuits[s.RawValue() - 1] == s;
    }
  }

  /** The comparisons printed by the card tests. */
  lemma ComparisonExamples()
    ensures Greater(Card(Ace, Spades), Card(Ten, Spades))
    ensures Less(Card(Jack, Diamonds), Card(Ten, Spades))
    ensures Less(Card(Two, Clubs), Card(Ten, Spades))
    ensures Greater(Card(Ace, Spades), Card(Jack, Diamonds))
    ensures Greater(Card(Ace, Spades), Card(Two, Clubs))
    ensures Greater(Card(Jack, Diamonds), Card(Two, Clubs))
  {
  }
}
