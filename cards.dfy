/** The vocabulary shared by the rule engine, the AI and the game pages:
    suits, ranks 6..14 (jack 11 .. ace 14), cards, the 36-card deck, and the
    attack/defence pairs on the table. */
module Cards {
  import opened Seqs

  datatype Suit = Hearts | Diamonds | Clubs | Spades

  /** 6..10, then jack 11, queen 12, king 13, ace 14. */
  type Rank = r: int | 6 <= r <= 14 witness 6

  /** A card record `{ rank, suit, id }`. Its `id` is the string
      `${rank}-${suit}`, a function of rank and suit, so comparing ids is
      comparing cards. */
  datatype Card = Card(rank: Rank, suit: Suit)

  const Suits: seq<Suit> := [Hearts, Diamonds, Clubs, Spades]
  const Ranks: seq<Rank> := [6, 7, 8, 9, 10, 11, 12, 13, 14]

  function SuitIndex(s: Suit): (i: nat)
    ensures i < 4 && Suits[i] == s
  {
    match s
    case Hearts => 0
    case Diamonds => 1
    case Clubs => 2
    case Spades => 3
  }

  /** The unshuffled deck: suit by suit in `Suits` order, ranks ascending. */
  function FullDeck(): (d: seq<Card>)
    ensures |d| == 36
    ensures forall i :: 0 <= i < 36 ==> d[i] == Card(Ranks[i % 9], Suits[i / 9])
  {
    seq(36, i requires 0 <= i < 36 => Card(Ranks[i % 9], Suits[i / 9]))
  }

  /** Position of a card in the unshuffled deck. */
  function DeckIndex(c: Card): (i: nat)
    ensures i < 36 && FullDeck()[i] == c
  {
    var i := 9 * SuitIndex(c.suit) + (c.rank - 6);
    assert i % 9 == c.rank - 6 && i / 9 == SuitIndex(c.suit);
    i
  }

  /** Every card occurs in the deck exactly once. */
  lemma FullDeckExactlyOnce(c: Card)
    ensures multiset(FullDeck())[c] == 1
  {
    FullDeckDistinct();
    var d := FullDeck();
    var k := DeckIndex(c);
    assert d == d[..k] + [c] + d[k + 1..];
    assert c !in d[..k] && c !in d[k + 1..] by {
      forall j | 0 <= j < 36 && j != k
        ensures d[j] != c
      {
      }
    }
  }

  lemma FullDeckDistinct()
    ensures forall i, j :: 0 <= i < j < 36 ==> FullDeck()[i] != FullDeck()[j]
  {
    var d := FullDeck();
    forall i, j | 0 <= i < j < 36
      ensures d[i] != d[j]
    {
    }
  }

  /** Builds the unshuffled deck with two nested loops, pushing one card
      per (suit, rank). */
  method BuildDeck() returns (deck: seq<Card>)
    ensures deck == FullDeck()
  {
    deck := [];
    var s := 0;
    while s < 4
      invariant 0 <= s <= 4
      invariant deck == FullDeck()[..9 * s]
    {
      var r := 0;
      while r < 9
        invariant 0 <= r <= 9
        invariant deck == FullDeck()[..9 * s + r]
      {
        assert (9 * s + r) % 9 == r && (9 * s + r) / 9 == s;
        deck := deck + [Card(Ranks[r], Suits[s])];
        r := r + 1;
      }
      s := s + 1;
    }
  }

  datatype Phase = Attack | Defend

  /** One `{ attack, defense }` pair on the table. */
  datatype TableEntry = TableEntry(attack: Card, defense: Option<Card>)

  predicate AllDefended(table: seq<TableEntry>)
  {
    forall i :: 0 <= i < |table| ==> table[i].defense.Some?
  }

  function DefendedCount(table: seq<TableEntry>): (n: nat)
    ensures n <= |table|
    ensures n == |table| <==> AllDefended(table)
  {
    if table == [] then 0
    else
      var rest := DefendedCount(table[1..]);
      assert AllDefended(table) <==> table[0].defense.Some? && AllDefended(table[1..]) by {
        if table[0].defense.Some? && AllDefended(table[1..]) {
          forall i | 0 <= i < |table|
            ensures table[i].defense.Some?
          {
            if i > 0 { assert table[i] == table[1..][i - 1]; }
          }
        }
      }
      (if table[0].defense.Some? then 1 else 0) + rest
  }

  /** `tableCards.flatMap(p => [p.attack, p.defense].filter(Boolean))`:
      every card on the table, each attack followed by its defence. */
  function TableCards(table: seq<TableEntry>): (r: seq<Card>)
    ensures |r| == |table| + DefendedCount(table)
  {
    if table == [] then []
    else
      var e := table[0];
      var head := if e.defense.Some? then [e.attack, e.defense.value] else [e.attack];
      head + TableCards(table[1..])
  }

  /** The table's cards are exactly its attacks and its defences. */
  lemma {:induction false} TableCardsMembers(table: seq<TableEntry>)
    ensures forall i :: 0 <= i < |table| ==> table[i].attack in TableCards(table)
    ensures forall i :: 0 <= i < |table| && table[i].defense.Some? ==> table[i].defense.value in TableCards(table)
    ensures forall c :: c in TableCards(table) ==>
              exists i :: 0 <= i < |table| && (c == table[i].attack || table[i].defense == Some(c))
  {
    if table != [] {
      var rest := table[1..];
      TableCardsMembers(rest);
      assert forall i :: 1 <= i < |table| ==> table[i] == rest[i - 1];
      forall c | c in TableCards(rest)
        ensures exists i :: 0 <= i < |table| && (c == table[i].attack || table[i].defense == Some(c))
      {
        var j :| 0 <= j < |rest| && (c == rest[j].attack || rest[j].defense == Some(c));
        assert table[j + 1] == rest[j];
      }
    }
  }

  /** One entry's cards: its attack, then its defence when present. */
  function EntryCards(e: TableEntry): seq<Card>
  {
    if e.defense.Some? then [e.attack, e.defense.value] else [e.attack]
  }

  /** The cards of two stretches of table, one after the other. */
  lemma {:induction false} TableCardsAppend(a: seq<TableEntry>, b: seq<TableEntry>)
    ensures TableCards(a + b) == TableCards(a) + TableCards(b)
  {
    if a == [] {
      assert a + b == b;
    } else {
      assert (a + b)[0] == a[0];
      assert (a + b)[1..] == a[1..] + b;
      TableCardsAppend(a[1..], b);
    }
  }

  /** Walking the table entry by entry adds each entry's cards at the end. */
  lemma TableCardsSnoc(table: seq<TableEntry>, i: nat)
    requires i < |table|
    ensures TableCards(table[..i + 1]) == TableCards(table[..i]) + EntryCards(table[i])
  {
    assert table[..i + 1] == table[..i] + [table[i]];
    TableCardsAppend(table[..i], [table[i]]);
    assert [table[i]][1..] == [];
  }

  /** Pushing entry i's cards onto a list that ends with the cards of the
      entries before i gives the cards of the entries up to i. */
  lemma TableCardsPush(front: seq<Card>, table: seq<TableEntry>, i: nat, before: seq<Card>, after: seq<Card>)
    requires i < |table|
    requires before == front + TableCards(table[..i])
    requires after == if table[i].defense.Some? then before + [table[i].attack] + [table[i].defense.value]
                      else before + [table[i].attack]
    ensures after == front + TableCards(table[..i + 1])
  {
    TableCardsSnoc(table, i);
    assert after == before + EntryCards(table[i]);
  }

  /** Index of the first entry with no defence (`tableCards.find(p => !p.defense)`). */
  function FirstUndefended(table: seq<TableEntry>): (r: Option<nat>)
    ensures r.None? <==> AllDefended(table)
    ensures r.Some? ==> r.value < |table| && table[r.value].defense.None?
                        && forall j :: 0 <= j < r.value ==> table[j].defense.Some?
  {
    if table == [] then None
    else if table[0].defense.None? then Some(0)
    else
      match FirstUndefended(table[1..])
      case None =>
        assert forall i :: 1 <= i < |table| ==> table[i] == table[1..][i - 1];
        None
      case Some(k) =>
        assert forall i :: 1 <= i < |table| ==> table[i] == table[1..][i - 1];
        Some(k + 1)
  }

  /** `hand.filter(c => c.id !== card.id)`. */
  function RemoveCard(hand: seq<Card>, card: Card): (r: seq<Card>)
    ensures card !in r
    ensures forall c :: c != card ==> multiset(r)[c] == multiset(hand)[c]
    ensures Subsequence(r, hand)
  {
    var keep := (c: Card) => c != card;
    FilterMultiset(hand, keep);
    FilterSubsequence(hand, keep);
    Filter(hand, keep)
  }

  /** All the cards held by the players, as one multiset. */
  function HandsMultiset(hands: seq<seq<Card>>): multiset<Card>
  {
    if hands == [] then multiset{}
    else multiset(hands[0]) + HandsMultiset(hands[1..])
  }

  /** Replacing one hand changes the pool of held cards by exactly that hand. */
  lemma {:induction false} HandsMultisetUpdate(hands: seq<seq<Card>>, p: nat, h: seq<Card>)
    requires p < |hands|
    ensures HandsMultiset(hands[p := h]) + multiset(hands[p]) == HandsMultiset(hands) + multiset(h)
  {
    if p == 0 {
      assert hands[p := h][1..] == hands[1..];
    } else {
      var hs := hands[p := h];
      assert hs[0] == hands[0] && hs[1..] == hands[1..][p - 1 := h];
      assert hands[1..][p - 1] == hands[p];
      HandsMultisetUpdate(hands[1..], p - 1, h);
      calc {
        HandsMultiset(hs) + multiset(hands[p]);
        multiset(hands[0]) + HandsMultiset(hs[1..]) + multiset(hands[p]);
        multiset(hands[0]) + (HandsMultiset(hs[1..]) + multiset(hands[p]));
        multiset(hands[0]) + (HandsMultiset(hands[1..]) + multiset(h));
        multiset(hands[0]) + HandsMultiset(hands[1..]) + multiset(h);
        HandsMultiset(hands) + multiset(h);
      }
    }
  }

  /** n empty hands (`Array.from({ length: n }, () => [])`). */
  function EmptyHands(n: nat): (hands: seq<seq<Card>>)
    ensures |hands| == n && forall p :: 0 <= p < n ==> hands[p] == []
    ensures HandsMultiset(hands) == multiset{}
  {
    if n == 0 then [] else
      var rest := EmptyHands(n - 1);
      assert ([[]] + rest)[1..] == rest;
      [[]] + rest
  }
}
