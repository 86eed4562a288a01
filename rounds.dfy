/** What the three page-level game loops (the AI battle, the training
    loop and the human game) share when a round or a move is resolved:
    the defender taking the table, and a card leaving a hand. */
module Rounds {
  import opened Seqs
  import opened Cards

  /** All the cards in the players' hands and in the deck. */
  function Pool(hands: seq<seq<Card>>, deck: seq<Card>): multiset<Card>
  {
    HandsMultiset(hands) + multiset(deck)
  }

  /** On a take, the defender's hand is followed by every card on the
      table, each attack before its defence, in table order. */
  function TakeTable(hands: seq<seq<Card>>, defender: nat, table: seq<TableEntry>): (r: seq<seq<Card>>)
    requires defender < |hands|
    ensures |r| == |hands|
    ensures HandsMultiset(r) == HandsMultiset(hands) + multiset(TableCards(table))
    ensures forall q :: 0 <= q < |hands| && q != defender ==> r[q] == hands[q]
  {
    var taken := hands[defender] + TableCards(table);
    HandsMultisetUpdate(hands, defender, taken);
    assert multiset(taken) == multiset(hands[defender]) + multiset(TableCards(table));
    MultisetCancel(HandsMultiset(hands[defender := taken]), HandsMultiset(hands) + multiset(TableCards(table)),
                   multiset(hands[defender]));
    hands[defender := taken]
  }

  /** Cancelling the same multiset from both sides. */
  lemma MultisetCancel<T>(a: multiset<T>, b: multiset<T>, c: multiset<T>)
    requires a + c == b + c
    ensures a == b
  {
    forall x
      ensures a[x] == b[x]
    {
      assert (a + c)[x] == (b + c)[x];
    }
  }

  /** The defender's new hand after a take: the old hand, unchanged, then
      the table's cards. */
  lemma TakeTableHand(hands: seq<seq<Card>>, defender: nat, table: seq<TableEntry>)
    requires defender < |hands|
    ensures var r := TakeTable(hands, defender, table);
      && r[defender][..|hands[defender]|] == hands[defender]
      && |r[defender]| == |hands[defender]| + |table| + DefendedCount(table)
      && forall e :: e in table ==> e.attack in r[defender] && (e.defense.Some? ==> e.defense.value in r[defender])
  {
    var r := TakeTable(hands, defender, table);
    assert r[defender] == hands[defender] + TableCards(table);
    TableCardsMembers(table);
  }

  /** Playing a card out of a hand where it is held once takes exactly
      that one card away. */
  lemma RemoveHeldOnce(hand: seq<Card>, card: Card)
    requires multiset(hand)[card] == 1
    ensures multiset(RemoveCard(hand, card)) + multiset{card} == multiset(hand)
    ensures |RemoveCard(hand, card)| + 1 == |hand|
  {
    var r := RemoveCard(hand, card);
    assert multiset(r) + multiset{card} == multiset(hand);
    assert |multiset(r)| + 1 == |multiset(hand)|;
  }

  /** Moving a card held once from one hand to the table keeps the cards
      in hands and on the table together unchanged. */
  lemma MoveToTable(hands: seq<seq<Card>>, p: nat, card: Card, table: seq<Card>, table': seq<Card>)
    requires p < |hands| && multiset(hands[p])[card] == 1
    requires multiset(table') == multiset(table) + multiset{card}
    ensures HandsMultiset(hands[p := RemoveCard(hands[p], card)]) + multiset(table')
            == HandsMultiset(hands) + multiset(table)
  {
    var h := RemoveCard(hands[p], card);
    RemoveHeldOnce(hands[p], card);
    HandsMultisetUpdate(hands, p, h);
    MultisetTransfer(HandsMultiset(hands[p := h]), HandsMultiset(hands), multiset(hands[p]), multiset(h),
                     multiset(table), multiset(table'));
  }

  /** A new attack entry adds its card to the table's cards. */
  lemma TableCardsAttack(table: seq<TableEntry>, card: Card)
    ensures TableCards(table + [TableEntry(card, None)]) == TableCards(table) + [card]
  {
    TableCardsAppend(table, [TableEntry(card, None)]);
    assert [TableEntry(card, None)][1..] == [];
  }

  /** Defending entry u (which had no defence) with a card adds that card
      to the table's cards and changes nothing else on it. */
  lemma TableCardsDefend(table: seq<TableEntry>, u: nat, card: Card)
    requires u < |table| && table[u].defense.None?
    ensures multiset(TableCards(table[u := TableEntry(table[u].attack, Some(card))]))
            == multiset(TableCards(table)) + multiset{card}
  {
    var e := table[u];
    var e' := TableEntry(e.attack, Some(card));
    var front, back := table[..u], table[u + 1..];
    assert table == front + ([e] + back);
    assert table[u := e'] == front + ([e'] + back);
    TableCardsAppend(front, [e] + back);
    TableCardsAppend(front, [e'] + back);
    assert ([e] + back)[0] == e && ([e] + back)[1..] == back;
    assert ([e'] + back)[0] == e' && ([e'] + back)[1..] == back;
    assert TableCards([e] + back) == [e.attack] + TableCards(back);
    assert TableCards([e'] + back) == [e.attack, card] + TableCards(back);
  }

  /** Entry u gains `card` as its defence (`{ ...pair, defense: card }`);
      the other entries stay as they were. An entry that had no defence
      brings the card onto the table. */
  function DefendEntry(table: seq<TableEntry>, u: nat, card: Card): (r: seq<TableEntry>)
    requires u < |table|
    ensures |r| == |table| && r[u] == TableEntry(table[u].attack, Some(card))
    ensures forall i :: 0 <= i < |table| && i != u ==> r[i] == table[i]
    ensures table[u].defense.None? ==> multiset(TableCards(r)) == multiset(TableCards(table)) + multiset{card}
    ensures AllDefended(r) <==> forall i :: 0 <= i < |table| && i != u ==> table[i].defense.Some?
  {
    var r := table[u := TableEntry(table[u].attack, Some(card))];
    if table[u].defense.None? then
      TableCardsDefend(table, u, card);
      r
    else
      r
  }
}
