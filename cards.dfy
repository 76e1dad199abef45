/**
  The card decks of chapter 1 (`FrenchDeck`) and chapter 11 (`Deck`, a
  `MutableSequence`). Both build the same 52 `Card(rank, suit)` pairs with the
  suit as the outer loop and the rank as the inner one, and delegate element
  access to a Python list.
 */
module Cards {
  import opened Python
  import opened Arithmetic

  /** `Card = namedtuple('Card', ['rank', 'suit'])` */
  datatype Card = Card(rank: string, suit: string)

  /** `[str(n) for n in range(2, 11)] + list('JQKA')` */
  const Ranks: seq<string> := ["2", "3", "4", "5", "6", "7", "8", "9", "10", "J", "Q", "K", "A"]

  /** `'spades diamonds clubs hearts'.split()` */
  const Suits: seq<string> := ["spades", "diamonds", "clubs", "hearts"]

  /** One row of the comprehension: every rank, in order, of one suit. */
  function SuitRow(ranks: seq<string>, suit: string): (r: seq<Card>)
    ensures |r| == |ranks|
    ensures forall i :: 0 <= i < |ranks| ==> r[i] == Card(ranks[i], suit)
  {
    if ranks == [] then [] else [Card(ranks[0], suit)] + SuitRow(ranks[1..], suit)
  }

  /** `[Card(rank, suit) for suit in suits for rank in ranks]` */
  function Comprehension(suits: seq<string>, ranks: seq<string>): (r: seq<Card>)
  {
    if suits == [] then [] else SuitRow(ranks, suits[0]) + Comprehension(suits[1..], ranks)
  }

  /** The comprehension has one card per (suit, rank) pair. */
  lemma {:induction false} ComprehensionLength(suits: seq<string>, ranks: seq<string>)
    ensures |Comprehension(suits, ranks)| == |suits| * |ranks|
  {
    if suits != [] {
      ComprehensionLength(suits[1..], ranks);
      calc {
        |Comprehension(suits, ranks)|;
        |ranks| + (|suits| - 1) * |ranks|;
        |suits| * |ranks|;
      }
    }
  }

  /** The card of the s-th suit and r-th rank sits at position s * n + r, n
      being the number of ranks. */
  lemma {:induction false} ComprehensionAtPair(suits: seq<string>, ranks: seq<string>, s: int, r: int)
    requires 0 <= s < |suits| && 0 <= r < |ranks|
    ensures |Comprehension(suits, ranks)| == |suits| * |ranks|
    ensures s * |ranks| + r < |suits| * |ranks|
    ensures Comprehension(suits, ranks)[s * |ranks| + r] == Card(ranks[r], suits[s])
  {
    var n := |ranks|;
    ComprehensionLength(suits, ranks);
    MulMonotone(s, |suits|, n);
    if s > 0 {
      ComprehensionLength(suits[1..], ranks);
      ComprehensionAtPair(suits[1..], ranks, s - 1, r);
      var i := s * n + r;
      MulPred(s, n);
      assert Comprehension(suits, ranks) == SuitRow(ranks, suits[0]) + Comprehension(suits[1..], ranks);
      assert Comprehension(suits, ranks)[i] == Comprehension(suits[1..], ranks)[i - n];
    }
  }

  /** Position i holds the (i % n)-th rank of the (i / n)-th suit, n being
      the number of ranks: the rank runs fastest. */
  lemma ComprehensionAt(suits: seq<string>, ranks: seq<string>, i: int)
    requires 0 <= i < |suits| * |ranks|
    ensures |Comprehension(suits, ranks)| == |suits| * |ranks|
    ensures |ranks| > 0 && 0 <= i / |ranks| < |suits|
    ensures Comprehension(suits, ranks)[i] == Card(ranks[i % |ranks|], suits[i / |ranks|])
  {
    var n := |ranks|;
    assert n != 0;
    var q, r := i / n, i % n;
    DivModParts(i, n);
    QuotientBelow(i, |suits|, n);
    ComprehensionAtPair(suits, ranks, q, r);
    assert q * n + r == i;
  }

  /** Distinct ranks and distinct suits give pairwise-distinct cards. */
  lemma ComprehensionNoDuplicates(suits: seq<string>, ranks: seq<string>)
    requires NoDuplicates(suits) && NoDuplicates(ranks)
    ensures NoDuplicates(Comprehension(suits, ranks))
  {
    var deck := Comprehension(suits, ranks);
    ComprehensionLength(suits, ranks);
    var n := |ranks|;
    forall i, j | 0 <= i < j < |deck|
      ensures deck[i] != deck[j]
    {
      ComprehensionAt(suits, ranks, i);
      ComprehensionAt(suits, ranks, j);
      DistinctPositions(i, j, n);
      if i % n != j % n {
        assert ranks[i % n] != ranks[j % n];
      } else {
        assert suits[i / n] != suits[j / n];
      }
    }
  }

  /** The comprehension holds every pair of a listed rank and a listed suit, and no other card. */
  lemma ComprehensionMembers(suits: seq<string>, ranks: seq<string>, c: Card)
    ensures c in Comprehension(suits, ranks) <==> c.rank in ranks && c.suit in suits
  {
    var deck := Comprehension(suits, ranks);
    ComprehensionLength(suits, ranks);
    var n := |ranks|;
    if c in deck {
      var i :| 0 <= i < |deck| && deck[i] == c;
      ComprehensionAt(suits, ranks, i);
    }
    if c.rank in ranks && c.suit in suits {
      var r :| 0 <= r < n && ranks[r] == c.rank;
      var s :| 0 <= s < |suits| && suits[s] == c.suit;
      ComprehensionAtPair(suits, ranks, s, r);
    }
  }

  /** `self._cards` of a new deck. */
  function NewCards(): seq<Card>
  {
    Comprehension(Suits, Ranks)
  }

  /** A new deck holds 52 = 13 ranks x 4 suits pairwise-distinct cards, card i
      being `Card(Ranks[i % 13], Suits[i / 13])`. */
  lemma RanksAndSuitsDistinct()
    ensures |Ranks| == 13 && |Suits| == 4
    ensures NoDuplicates(Ranks) && NoDuplicates(Suits)
  {
  }

  lemma NewCardsLayout()
    ensures |NewCards()| == 52
    ensures NoDuplicates(NewCards())
    ensures forall i :: 0 <= i < 52 ==> NewCards()[i] == Card(Ranks[i % 13], Suits[i / 13])
  {
    RanksAndSuitsDistinct();
    ComprehensionLength(Suits, Ranks);
    ComprehensionNoDuplicates(Suits, Ranks);
    forall i | 0 <= i < 52
      ensures NewCards()[i] == Card(Ranks[i % 13], Suits[i / 13])
    {
      ComprehensionAt(Suits, Ranks, i);
    }
  }

  /** `deck[12::13]` reads the four aces, one per suit in suit order. */
  lemma AcesAtTwelveModThirteen()
    ensures StepSlice(NewCards(), 12, 13) == [Card("A", "spades"), Card("A", "diamonds"), Card("A", "clubs"), Card("A", "hearts")]
  {
    ComprehensionLength(Suits, Ranks);
    ComprehensionAtPair(Suits, Ranks, 0, 12);
    ComprehensionAtPair(Suits, Ranks, 1, 12);
    ComprehensionAtPair(Suits, Ranks, 2, 12);
    ComprehensionAtPair(Suits, Ranks, 3, 12);
    EveryThirteenthFrom12(NewCards());
  }

  /** In a list of 52, `[12::13]` picks positions 12, 25, 38 and 51. */
  lemma EveryThirteenthFrom12<T>(s: seq<T>)
    requires |s| == 52
    ensures StepSlice(s, 12, 13) == [s[12], s[25], s[38], s[51]]
  {
    calc {
      StepSlice(s, 12, 13);
      [s[12]] + StepSlice(s, 25, 13);
      [s[12]] + ([s[25]] + StepSlice(s, 38, 13));
      [s[12]] + ([s[25]] + ([s[38]] + StepSlice(s, 51, 13)));
      [s[12]] + ([s[25]] + ([s[38]] + ([s[51]] + StepSlice(s, 64, 13))));
      [s[12], s[25], s[38], s[51]];
    }
  }

  /** The chapter 1 `FrenchDeck`: built once, then only read. */
  datatype FrenchDeck = FrenchDeck(cards: seq<Card>)
  {
    /** `__len__`: the positions that index the deck are exactly -len .. len - 1. */
    function Len(): (r: nat)
      ensures r == |cards|
      ensures forall p :: GetItem(p).Ok? <==> 0 <= p + r && p < r
    {
      |cards|
    }

    /** `__getitem__`, with Python's index rules for an integer position. */
    function GetItem(position: int): (r: Result<Card>)
      ensures r.Ok? <==> -|cards| <= position < |cards|
      ensures r.Ok? ==> r.value in cards
      ensures 0 <= position < |cards| ==> r == Ok(cards[position])
      ensures -|cards| <= position < 0 ==> r == Ok(cards[|cards| + position])
    {
      Python.GetItem(cards, position)
    }
  }

  /** `FrenchDeck()` */
  function NewFrenchDeck(): (d: FrenchDeck)
    ensures d.Len() == 52
  {
    ComprehensionLength(Suits, Ranks);
    FrenchDeck(NewCards())
  }

  /** Every position of a new FrenchDeck reads the card of the rank-fastest
      layout, and exactly the positions -52 .. 51 succeed. */
  lemma FrenchDeckGetItem(position: int)
    ensures NewFrenchDeck().GetItem(position).Ok? <==> -52 <= position < 52
    ensures 0 <= position < 52 ==>
      NewFrenchDeck().GetItem(position) == Ok(Card(Ranks[position % 13], Suits[position / 13]))
  {
    NewCardsLayout();
  }

  /** The chapter 11 `Deck(collections.abc.MutableSequence)`: the same cards in a
      list that `__setitem__`, `__delitem__` and `insert` change in place. */
  class Deck {
    var cards: seq<Card>

    /** `Deck()` */
    constructor ()
      ensures cards == NewCards()
      ensures Len() == 52
    {
      ComprehensionLength(Suits, Ranks);
      cards := NewCards();
    }

    /** `__len__`: the positions that index the deck are exactly -len .. len - 1. */
    function Len(): (r: nat)
      reads this
      ensures r == |cards|
      ensures forall p :: GetItem(p).Ok? <==> 0 <= p + r && p < r
    {
      |cards|
    }

    /** `__getitem__`; reading never changes the deck. */
    function GetItem(pos: int): (r: Result<Card>)
      reads this
      ensures r.Ok? <==> -|cards| <= pos < |cards|
      ensures r.Ok? ==> r.value in cards
      ensures 0 <= pos < |cards| ==> r == Ok(cards[pos])
      ensures -|cards| <= pos < 0 ==> r == Ok(cards[|cards| + pos])
    {
      Python.GetItem(cards, pos)
    }

    /** `__setitem__`: replaces one card, or raises IndexError and changes nothing. */
    method SetItem(pos: int, value: Card) returns (r: Result<()>)
      modifies this
      ensures r.Ok? <==> -old(|cards|) <= pos < old(|cards|)
      ensures r.Ok? ==> cards == Python.SetItem(old(cards), pos, value).value
      ensures Len() == old(Len())
      ensures r.Raise? ==> r.error == IndexError && cards == old(cards)
    {
      var next := Python.SetItem(cards, pos, value);
      if next.Ok? {
        cards := next.value;
        r := Ok(());
      } else {
        r := Raise(next.error);
      }
    }

    /** `__delitem__`: removes one card, or raises IndexError and changes nothing. */
    method DelItem(pos: int) returns (r: Result<()>)
      modifies this
      ensures r.Ok? <==> -old(|cards|) <= pos < old(|cards|)
      ensures r.Ok? ==> cards == Python.DelItem(old(cards), pos).value
      ensures r.Ok? ==> Len() == old(Len()) - 1
      ensures r.Raise? ==> r.error == IndexError && cards == old(cards)
    {
      var next := Python.DelItem(cards, pos);
      if next.Ok? {
        cards := next.value;
        r := Ok(());
      } else {
        r := Raise(next.error);
      }
    }

    /** `insert`: puts a card before position pos; never raises. */
    method Insert(pos: int, value: Card)
      modifies this
      ensures cards == Python.Insert(old(cards), pos, value)
      ensures Len() == old(Len()) + 1
    {
      cards := Python.Insert(cards, pos, value);
    }
  }

  /** Replacing a card and then writing the old card back leaves the deck as it was. */
  method SetItemThenRestore(d: Deck, pos: int, card: Card)
    requires -|d.cards| <= pos < |d.cards|
    modifies d
    ensures d.cards == old(d.cards)
  {
    var was := d.GetItem(pos);
    var r := d.SetItem(pos, card);
    SetItemRestores(old(d.cards), pos, card);
    r := d.SetItem(pos, was.value);
  }

  /** Inserting a card and deleting it at the same position leaves the deck as it was. */
  method InsertThenDelete(d: Deck, pos: int, card: Card)
    requires 0 <= pos <= |d.cards|
    modifies d
    ensures d.cards == old(d.cards)
  {
    d.Insert(pos, card);
    DelItemUndoesInsert(old(d.cards), pos, card);
    var r := d.DelItem(pos);
  }
}
