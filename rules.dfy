/** The rule engine of the game: building, shuffling and dealing the deck,
    the beating rule, the legal attack and defence cards, refilling hands,
    choosing the first attacker, detecting the end of the game, and the card
    valuation the built-in AI sorts by. */
module Rules {
  import opened Seqs
  import opened Cards

  // ----- deck -----

  /** Three Fisher-Yates passes over a copy of the deck. The random index is
      a nondeterministic choice in [0, i]. */
  method ShuffleDeck(deck: seq<Card>) returns (shuffled: seq<Card>)
    ensures |shuffled| == |deck|
    ensures multiset(shuffled) == multiset(deck)
  {
    var a := new Card[|deck|](i requires 0 <= i < |deck| => deck[i]);
    assert a[..] == deck;
    var pass := 0;
    while pass < 3
      invariant 0 <= pass <= 3
      invariant multiset(a[..]) == multiset(deck)
    {
      var i := a.Length - 1;
      while i > 0
        invariant -1 <= i < a.Length
        invariant multiset(a[..]) == multiset(deck)
      {
        var j :| 0 <= j <= i;
        a[i], a[j] := a[j], a[i];
        i := i - 1;
      }
      pass := pass + 1;
    }
    shuffled := a[..];
  }

  /** A shuffled deck holding each of the 36 cards exactly once. */
  method CreateDeck() returns (deck: seq<Card>)
    ensures |deck| == 36
    ensures multiset(deck) == multiset(FullDeck())
    ensures forall c: Card :: multiset(deck)[c] == 1
  {
    var ordered := BuildDeck();
    deck := ShuffleDeck(ordered);
    forall c: Card
      ensures multiset(deck)[c] == 1
    {
      FullDeckExactlyOnce(c);
    }
  }

  /** Round-robin dealing: `cardsPerPlayer` rounds, and in each round every
      player in seat order takes the last card of the deck while any is
      left. The k-th card of player p is the (k * n + p)-th card popped. */
  method DealCards(deck: seq<Card>, numPlayers: nat, cardsPerPlayer: nat)
    returns (hands: seq<seq<Card>>, remainingDeck: seq<Card>)
    ensures |hands| == numPlayers
    ensures remainingDeck == deck[..|deck| - MinInt(cardsPerPlayer * numPlayers, |deck|)]
    ensures HandsMultiset(hands) + multiset(remainingDeck) == multiset(deck)
    ensures forall p :: 0 <= p < numPlayers ==> |hands[p]| <= cardsPerPlayer
    ensures cardsPerPlayer * numPlayers <= |deck| ==>
              forall p :: 0 <= p < numPlayers ==> |hands[p]| == cardsPerPlayer
    ensures forall p, k :: 0 <= p < numPlayers && 0 <= k < |hands[p]| ==>
              PopIndex(k, numPlayers, p) < |deck| && hands[p][k] == deck[|deck| - 1 - PopIndex(k, numPlayers, p)]
  {
    hands := EmptyHands(numPlayers);
    var deckCopy := deck;
    var i := 0;
    while i < cardsPerPlayer
      invariant 0 <= i <= cardsPerPlayer
      invariant Dealing(deck, hands, deckCopy, numPlayers, i, 0)
    {
      var p := 0;
      while p < numPlayers
        invariant 0 <= p <= numPlayers
        invariant Dealing(deck, hands, deckCopy, numPlayers, i, p)
      {
        if |deckCopy| > 0 {
          var card := deckCopy[|deckCopy| - 1];
          DealPop(deck, hands, deckCopy, numPlayers, i, p);
          hands := hands[p := hands[p] + [card]];
          deckCopy := deckCopy[..|deckCopy| - 1];
        } else {
          DealSkip(deck, hands, deckCopy, numPlayers, i, p);
        }
        p := p + 1;
      }
      DealNextRound(deck, hands, deckCopy, numPlayers, i);
      i := i + 1;
    }
    remainingDeck := deckCopy;
  }

  /** What holds while dealing, after i full rounds and p more cards of
      round i: i * n + p cards were due, the deck has lost its last
      min(i * n + p, |deck|) cards, and each one sits in its player's hand
      at the place round-robin dealing gives it. */
  ghost predicate Dealing(deck: seq<Card>, hands: seq<seq<Card>>, deckCopy: seq<Card>, n: nat, i: nat, p: nat)
  {
    && p <= n
    && |hands| == n
    && |deckCopy| == |deck| - MinInt(i * n + p, |deck|)
    && deckCopy == deck[..|deckCopy|]
    && HandsMultiset(hands) + multiset(deckCopy) == multiset(deck)
    && (forall q :: 0 <= q < n ==> |hands[q]| <= i + (if q < p then 1 else 0))
    && (i * n + p <= |deck| ==> forall q :: 0 <= q < n ==> |hands[q]| == i + (if q < p then 1 else 0))
    && (forall q, k :: 0 <= q < n && 0 <= k < |hands[q]| ==>
          PopIndex(k, n, q) < |deck| && hands[q][k] == deck[|deck| - 1 - PopIndex(k, n, q)])
  }

  lemma DealPop(deck: seq<Card>, hands: seq<seq<Card>>, deckCopy: seq<Card>, n: nat, i: nat, p: nat)
    requires p < n && Dealing(deck, hands, deckCopy, n, i, p) && |deckCopy| > 0
    ensures Dealing(deck, hands[p := hands[p] + [deckCopy[|deckCopy| - 1]]], deckCopy[..|deckCopy| - 1], n, i, p + 1)
  {
    var card := deckCopy[|deckCopy| - 1];
    var after := hands[p := hands[p] + [card]];
    assert |hands[p]| == i;
    assert PopIndex(i, n, p) == i * n + p;
    PopMovesCard(deck, hands, deckCopy, p);
    forall q, k | 0 <= q < n && 0 <= k < |after[q]|
      ensures PopIndex(k, n, q) < |deck| && after[q][k] == deck[|deck| - 1 - PopIndex(k, n, q)]
    {
      if q != p || k < i {
        assert after[q][k] == hands[q][k];
      }
    }
  }

  /** Moving the deck's last card into hand p keeps the cards together. */
  lemma PopMovesCard(deck: seq<Card>, hands: seq<seq<Card>>, deckCopy: seq<Card>, p: nat)
    requires p < |hands| && |deckCopy| > 0
    requires HandsMultiset(hands) + multiset(deckCopy) == multiset(deck)
    ensures var card := deckCopy[|deckCopy| - 1];
      HandsMultiset(hands[p := hands[p] + [card]]) + multiset(deckCopy[..|deckCopy| - 1]) == multiset(deck)
  {
    var card := deckCopy[|deckCopy| - 1];
    var last := deckCopy[..|deckCopy| - 1];
    assert deckCopy == last + [card];
    var grown := hands[p] + [card];
    var after := hands[p := grown];
    HandsMultisetUpdate(hands, p, grown);
    assert multiset(grown) == multiset(hands[p]) + multiset{card};
    forall x
      ensures (HandsMultiset(after) + multiset(last))[x] == multiset(deck)[x]
    {
      assert (HandsMultiset(after) + multiset(hands[p]))[x] == (HandsMultiset(hands) + multiset(grown))[x];
      assert (HandsMultiset(hands) + multiset(deckCopy))[x] == multiset(deck)[x];
    }
    assert HandsMultiset(after) + multiset(last) == multiset(deck);
  }

  lemma DealSkip(deck: seq<Card>, hands: seq<seq<Card>>, deckCopy: seq<Card>, n: nat, i: nat, p: nat)
    requires p < n && Dealing(deck, hands, deckCopy, n, i, p) && |deckCopy| == 0
    ensures Dealing(deck, hands, deckCopy, n, i, p + 1)
  {
  }

  lemma DealNextRound(deck: seq<Card>, hands: seq<seq<Card>>, deckCopy: seq<Card>, n: nat, i: nat)
    requires Dealing(deck, hands, deckCopy, n, i, n)
    ensures Dealing(deck, hands, deckCopy, n, i + 1, 0)
  {
    assert (i + 1) * n == i * n + n;
  }

  /** The card a player's k-th dealt card is: the (k * n + p)-th pop. */
  function PopIndex(k: nat, n: nat, p: nat): nat
  {
    k * n + p
  }

  // ----- the beating rule -----

  /** Whether `defense` beats `attack` when `trump` is the trump suit. */
  predicate CanBeat(attack: Card, defense: Card, trump: Suit)
  {
    if defense.suit == trump && attack.suit != trump then true
    else if attack.suit == trump && defense.suit != trump then false
    else if attack.suit == defense.suit then defense.rank > attack.rank
    else false
  }

  /** An independent reading of the rule: a defence must follow suit or be a
      trump, and must outrank the attack when trumps count above every
      plain card. */
  function Power(c: Card, trump: Suit): int
  {
    if c.suit == trump then 100 + c.rank else c.rank
  }

  lemma CanBeatByPower(attack: Card, defense: Card, trump: Suit)
    ensures CanBeat(attack, defense, trump) <==>
              (defense.suit == attack.suit || defense.suit == trump) && Power(defense, trump) > Power(attack, trump)
  {
  }

  /** The four cases of the rule, as the source lays them out. */
  lemma CanBeatCases(attack: Card, defense: Card, trump: Suit)
    ensures defense.suit == trump && attack.suit != trump ==> CanBeat(attack, defense, trump)
    ensures attack.suit == trump && defense.suit != trump ==> !CanBeat(attack, defense, trump)
    ensures attack.suit == defense.suit ==> (CanBeat(attack, defense, trump) <==> defense.rank > attack.rank)
    ensures attack.suit != defense.suit && attack.suit != trump && defense.suit != trump ==> !CanBeat(attack, defense, trump)
  {
  }

  /** No card beats itself, and two cards never beat each other. */
  lemma CanBeatStrict(a: Card, d: Card, trump: Suit)
    ensures !CanBeat(a, a, trump)
    ensures CanBeat(a, d, trump) ==> !CanBeat(d, a, trump)
  {
  }

  /** Beating is transitive. */
  lemma CanBeatTransitive(a: Card, b: Card, c: Card, trump: Suit)
    requires CanBeat(a, b, trump) && CanBeat(b, c, trump)
    ensures CanBeat(a, c, trump)
  {
  }

  // ----- legal cards -----

  /** The ranks of one entry: its attack and, when present, its defence. */
  function EntryRanks(e: TableEntry): set<Rank>
  {
    {e.attack.rank} + (if e.defense.Some? then {e.defense.value.rank} else {})
  }

  /** The ranks on the table, entry by entry. */
  function TableRanks(table: seq<TableEntry>): set<Rank>
  {
    if table == [] then {}
    else TableRanks(table[..|table| - 1]) + EntryRanks(table[|table| - 1])
  }

  /** Some entry's attack or defence has rank r. */
  predicate RankOnTable(table: seq<TableEntry>, r: int)
  {
    exists i :: 0 <= i < |table| &&
      (table[i].attack.rank == r || (table[i].defense.Some? && table[i].defense.value.rank == r))
  }

  /** A rank is in the table's set iff some entry's attack or defence has it. */
  lemma {:induction false} TableRanksOnTable(table: seq<TableEntry>, r: int)
    ensures r in TableRanks(table) <==> RankOnTable(table, r)
  {
    if table != [] {
      var init := table[..|table| - 1];
      TableRanksOnTable(init, r);
      assert forall i :: 0 <= i < |init| ==> init[i] == table[i];
      if RankOnTable(table, r) {
        var i :| 0 <= i < |table| &&
          (table[i].attack.rank == r || (table[i].defense.Some? && table[i].defense.value.rank == r));
        if i < |init| {
          assert RankOnTable(init, r);
        }
      }
    }
  }

  /** Every card on the table has its rank in the table's set. */
  lemma TableCardsRanks(table: seq<TableEntry>, c: Card)
    requires c in TableCards(table)
    ensures c.rank in TableRanks(table)
  {
    TableCardsMembers(table);
    var i :| 0 <= i < |table| && (c == table[i].attack || table[i].defense == Some(c));
    TableRanksOnTable(table, c.rank);
  }

  /** A card may join the attack when the table is empty or its rank is
      already on the table. */
  predicate Addable(card: Card, table: seq<TableEntry>)
  {
    table == [] || card.rank in TableRanks(table)
  }

  /** The `forEach` that gathers every attack and defence rank into a set. */
  method CollectTableRanks(table: seq<TableEntry>) returns (ranks: set<Rank>)
    ensures ranks == TableRanks(table)
    ensures forall r :: r in ranks <==> RankOnTable(table, r)
  {
    ranks := {};
    var i := 0;
    while i < |table|
      invariant 0 <= i <= |table|
      invariant ranks == TableRanks(table[..i])
    {
      var e := table[i];
      assert table[..i + 1][..i] == table[..i];
      ranks := ranks + {e.attack.rank};
      if e.defense.Some? {
        ranks := ranks + {e.defense.value.rank};
      }
      i := i + 1;
    }
    assert table[..i] == table;
    forall r
      ensures r in ranks <==> RankOnTable(table, r)
    {
      TableRanksOnTable(table, r);
    }
  }

  /** `canAddToAttack`: any card opens an empty table; otherwise its rank
      must already be on the table. */
  method CanAddToAttack(card: Card, table: seq<TableEntry>) returns (b: bool)
    ensures b == Addable(card, table)
    ensures b <==> table == [] || RankOnTable(table, card.rank)
  {
    TableRanksOnTable(table, card.rank);
    if |table| == 0 {
      return true;
    }
    var ranksOnTable := CollectTableRanks(table);
    b := card.rank in ranksOnTable;
  }

  /** `getValidAttackCards`: the hand itself on an empty table, otherwise the
      hand's cards whose rank is on the table, in hand order. */
  function ValidAttackCards(hand: seq<Card>, table: seq<TableEntry>): (r: seq<Card>)
    ensures table == [] ==> r == hand
    ensures forall c :: c in r <==> c in hand && Addable(c, table)
    ensures Subsequence(r, hand)
    ensures r == [] <==> forall c :: c in hand ==> !Addable(c, table)
    ensures forall c :: multiset(r)[c] == if Addable(c, table) then multiset(hand)[c] else 0
  {
    if table == [] then
      SubsequenceRefl(hand);
      assert hand != [] ==> hand[0] in hand;
      hand
    else
      var onTable := (c: Card) => c.rank in TableRanks(table);
      FilterSubsequence(hand, onTable);
      FilterMultiset(hand, onTable);
      var r := Filter(hand, onTable);
      assert r != [] ==> r[0] in r;
      r
  }

  /** `getValidDefenseCards`: the hand's cards that beat the attack, in hand order. */
  function ValidDefenseCards(hand: seq<Card>, attack: Card, trump: Suit): (r: seq<Card>)
    ensures forall c :: c in r <==> c in hand && CanBeat(attack, c, trump)
    ensures Subsequence(r, hand)
    ensures multiset(r) <= multiset(hand)
    ensures forall c :: multiset(r)[c] == if CanBeat(attack, c, trump) then multiset(hand)[c] else 0
  {
    var beats := (c: Card) => CanBeat(attack, c, trump);
    FilterSubsequence(hand, beats);
    FilterMultiset(hand, beats);
    Filter(hand, beats)
  }

  // ----- refilling hands -----

  /** A player's draw: take the last card of the deck while the hand holds
      fewer than six and the deck is not empty. */
  function DrawUpTo(hand: seq<Card>, deck: seq<Card>): (r: (seq<Card>, seq<Card>))
    ensures multiset(r.0) + multiset(r.1) == multiset(hand) + multiset(deck)
    ensures |hand| >= 6 ==> r == (hand, deck)
    ensures r.1 == [] || |r.0| >= 6
    decreases |deck|
  {
    if |hand| >= 6 || deck == [] then (hand, deck)
    else
      var card := deck[|deck| - 1];
      var rest := deck[..|deck| - 1];
      assert deck == rest + [card];
      DrawUpTo(hand + [card], rest)
  }

  /** A draw only appends to the hand, never beyond six cards, and takes
      the cards from the end of the deck. */
  lemma {:induction false} DrawUpToShape(hand: seq<Card>, deck: seq<Card>)
    ensures var r := DrawUpTo(hand, deck);
      && |hand| <= |r.0| <= MaxInt(|hand|, 6) && r.0[..|hand|] == hand
      && |r.1| <= |deck| && r.1 == deck[..|r.1|]
    decreases |deck|
  {
    if |hand| < 6 && deck != [] {
      var card := deck[|deck| - 1];
      var rest := deck[..|deck| - 1];
      var h := hand + [card];
      DrawUpToShape(h, rest);
      var r := DrawUpTo(h, rest);
      assert r.0[..|hand|] == r.0[..|h|][..|hand|];
    }
  }

  /** Serving seats (start + i) % n for i = from, from + 1, ..., n - 1. */
  function RefillFrom(hands: seq<seq<Card>>, deck: seq<Card>, start: nat, from: nat): (r: (seq<seq<Card>>, seq<Card>))
    requires from <= |hands|
    ensures |r.0| == |hands|
    decreases |hands| - from
  {
    if from == |hands| then (hands, deck)
    else
      var p := Seat(start, from, |hands|);
      var d := DrawUpTo(hands[p], deck);
      RefillFrom(hands[p := d.0], d.1, start, from + 1)
  }

  /** `refillHands`: every player, starting at `start` and going round the
      table once, draws up to six cards from the end of the deck. */
  function Refill(hands: seq<seq<Card>>, deck: seq<Card>, start: nat): (r: (seq<seq<Card>>, seq<Card>))
    ensures |r.0| == |hands|
    ensures HandsMultiset(r.0) + multiset(r.1) == HandsMultiset(hands) + multiset(deck)
  {
    RefillConserves(hands, deck, start, 0);
    RefillFrom(hands, deck, start, 0)
  }

  /** One seat of the refill: that seat draws, then the seats after it. */
  lemma RefillFromStep(hands: seq<seq<Card>>, deck: seq<Card>, start: nat, from: nat)
    requires from < |hands|
    ensures var p := Seat(start, from, |hands|);
      var d := DrawUpTo(hands[p], deck);
      RefillFrom(hands, deck, start, from) == RefillFrom(hands[p := d.0], d.1, start, from + 1)
  {
  }

  /** The inner `while` of `refillHands`: pop from the deck onto the hand
      until the hand holds six cards or the deck is empty. */
  method DrawCards(hand0: seq<Card>, deck0: seq<Card>) returns (hand: seq<Card>, deck: seq<Card>)
    ensures (hand, deck) == DrawUpTo(hand0, deck0)
  {
    hand, deck := hand0, deck0;
    while |hand| < 6 && |deck| > 0
      invariant DrawUpTo(hand, deck) == DrawUpTo(hand0, deck0)
      decreases |deck|
    {
      var card := deck[|deck| - 1];
      deck := deck[..|deck| - 1];
      hand := hand + [card];
    }
  }

  /** The method form: builds the serving order, then pops from a copy of the
      deck into the hands. */
  method RefillHands(hands: seq<seq<Card>>, deck: seq<Card>, startingPlayer: nat)
    returns (newHands: seq<seq<Card>>, remainingDeck: seq<Card>)
    ensures (newHands, remainingDeck) == Refill(hands, deck, startingPlayer)
  {
    var n := |hands|;
    var order: seq<nat> := [];
    var i := 0;
    while i < n
      invariant 0 <= i <= n
      invariant |order| == i
      invariant forall k :: 0 <= k < i ==> order[k] == Seat(startingPlayer, k, n)
    {
      order := order + [Seat(startingPlayer, i, n)];
      i := i + 1;
    }
    var deckCopy := deck;
    newHands := hands;
    var k := 0;
    while k < n
      invariant 0 <= k <= n
      invariant |newHands| == n
      invariant RefillFrom(newHands, deckCopy, startingPlayer, k) == Refill(hands, deck, startingPlayer)
    {
      var p := order[k];
      RefillFromStep(newHands, deckCopy, startingPlayer, k);
      var hand;
      hand, deckCopy := DrawCards(newHands[p], deckCopy);
      newHands := newHands[p := hand];
      k := k + 1;
    }
    remainingDeck := deckCopy;
  }

  /** Refilling conserves cards: what the hands gain, the deck loses. */
  lemma {:induction false} RefillConserves(hands: seq<seq<Card>>, deck: seq<Card>, start: nat, from: nat)
    requires from <= |hands|
    ensures var r := RefillFrom(hands, deck, start, from);
      HandsMultiset(r.0) + multiset(r.1) == HandsMultiset(hands) + multiset(deck)
    decreases |hands| - from
  {
    if from < |hands| {
      var p := Seat(start, from, |hands|);
      var d := DrawUpTo(hands[p], deck);
      var hs := hands[p := d.0];
      HandsMultisetUpdate(hands, p, d.0);
      RefillConserves(hs, d.1, start, from + 1);
      MultisetTransfer(HandsMultiset(hs), HandsMultiset(hands), multiset(hands[p]), multiset(d.0),
                       multiset(deck), multiset(d.1));
    }
  }

  /** Refilling takes its cards from the end of the deck. */
  lemma {:induction false} RefillTakesFromEnd(hands: seq<seq<Card>>, deck: seq<Card>, start: nat, from: nat)
    requires from <= |hands|
    ensures var r := RefillFrom(hands, deck, start, from);
      |r.1| <= |deck| && r.1 == deck[..|r.1|]
    decreases |hands| - from
  {
    if from < |hands| {
      var p := Seat(start, from, |hands|);
      var d := DrawUpTo(hands[p], deck);
      DrawUpToShape(hands[p], deck);
      RefillTakesFromEnd(hands[p := d.0], d.1, start, from + 1);
    }
  }

  /** Refilling only appends to hands, and never touches a hand that
      already holds six cards or more. */
  lemma {:induction false} RefillOnlyAppends(hands: seq<seq<Card>>, deck: seq<Card>, start: nat, from: nat, q: nat)
    requires from <= |hands| && q < |hands|
    ensures var r := RefillFrom(hands, deck, start, from);
      && |hands[q]| <= |r.0[q]| && r.0[q][..|hands[q]|] == hands[q]
      && (|hands[q]| >= 6 ==> r.0[q] == hands[q])
    decreases |hands| - from
  {
    if from < |hands| {
      var p := Seat(start, from, |hands|);
      var d := DrawUpTo(hands[p], deck);
      DrawUpToShape(hands[p], deck);
      var hs := hands[p := d.0];
      RefillOnlyAppends(hs, d.1, start, from + 1, q);
      if q == p {
        var r := RefillFrom(hs, d.1, start, from + 1);
        assert r.0[q][..|hands[q]|] == r.0[q][..|d.0|][..|hands[q]|];
      }
    }
  }

  /** Seats not served in steps from..n-1 keep their hands. */
  lemma {:induction false} RefillUnserved(hands: seq<seq<Card>>, deck: seq<Card>, start: nat, from: nat, q: nat)
    requires from <= |hands| && q < |hands|
    requires forall j :: from <= j < |hands| ==> Seat(start, j, |hands|) != q
    ensures RefillFrom(hands, deck, start, from).0[q] == hands[q]
    decreases |hands| - from
  {
    if from < |hands| {
      var p := Seat(start, from, |hands|);
      var d := DrawUpTo(hands[p], deck);
      RefillUnserved(hands[p := d.0], d.1, start, from + 1, q);
    }
  }

  /** Serving order: the starting player draws first, straight from the
      end of the full deck. */
  lemma RefillStartsAtStart(hands: seq<seq<Card>>, deck: seq<Card>, start: nat)
    requires |hands| > 0
    ensures var p := Seat(start, 0, |hands|);
      Refill(hands, deck, start).0[p] == DrawUpTo(hands[p], deck).0
  {
    var n := |hands|;
    var p := Seat(start, 0, n);
    var d := DrawUpTo(hands[p], deck);
    forall j | 1 <= j < n
      ensures Seat(start, j, n) != p
    {
      SeatsDistinct(start, 0, j, n);
    }
    RefillUnserved(hands[p := d.0], d.1, start, 1, p);
  }

  /** After refilling, the deck is empty or every hand holds at least six cards. */
  lemma RefillComplete(hands: seq<seq<Card>>, deck: seq<Card>, start: nat)
    ensures var r := Refill(hands, deck, start);
      r.1 == [] || forall q :: 0 <= q < |hands| ==> |r.0[q]| >= 6
  {
    var n := |hands|;
    RefillCompleteFrom(hands, deck, start, 0);
    var r := Refill(hands, deck, start);
    if r.1 != [] {
      forall q | 0 <= q < n
        ensures |r.0[q]| >= 6
      {
        var j := SeatOffset(start, q, n);
      }
    }
  }

  lemma {:induction false} RefillCompleteFrom(hands: seq<seq<Card>>, deck: seq<Card>, start: nat, from: nat)
    requires from <= |hands|
    requires deck == [] || forall j :: 0 <= j < from ==> |hands[Seat(start, j, |hands|)]| >= 6
    ensures var r := RefillFrom(hands, deck, start, from);
      r.1 == [] || forall j :: 0 <= j < |hands| ==> |r.0[Seat(start, j, |hands|)]| >= 6
    decreases |hands| - from
  {
    var n := |hands|;
    if from < n {
      var p := Seat(start, from, n);
      var d := DrawUpTo(hands[p], deck);
      var hs := hands[p := d.0];
      if d.1 != [] {
        assert |d.0| >= 6;
        forall j | 0 <= j < from + 1
          ensures |hs[Seat(start, j, n)]| >= 6
        {
          if j < from {
            SeatsDistinct(start, j, from, n);
          }
        }
      } else {
        RefillDeckStaysEmpty(hs, start, from + 1);
      }
      RefillCompleteFrom(hs, d.1, start, from + 1);
    }
  }

  lemma {:induction false} RefillDeckStaysEmpty(hands: seq<seq<Card>>, start: nat, from: nat)
    requires from <= |hands|
    ensures RefillFrom(hands, [], start, from).1 == []
    decreases |hands| - from
  {
    if from < |hands| {
      var p := Seat(start, from, |hands|);
      RefillDeckStaysEmpty(hands[p := hands[p]], start, from + 1);
    }
  }

  // ----- the first attacker and the end of the game -----

  predicate HoldsTrump(hands: seq<seq<Card>>, trump: Suit)
  {
    exists q, c :: 0 <= q < |hands| && c in hands[q] && c.suit == trump
  }

  /** One card of the scan: a trump lower than the lowest so far (or the
      first trump) takes its place, with seat q. */
  function ScanStep(lowest: Option<Card>, idx: nat, card: Card, trump: Suit, q: nat): (Option<Card>, nat)
  {
    if card.suit == trump && (lowest.None? || card.rank < lowest.value.rank) then (Some(card), q)
    else (lowest, idx)
  }

  /** Where the scan stands after the hands before seat q and the first j
      cards of hand q. */
  predicate ScanPosition(hands: seq<seq<Card>>, q: nat, j: nat)
  {
    q <= |hands| && (q < |hands| ==> j <= |hands[q]|) && (q == |hands| ==> j == 0)
  }

  /** The lowest trump and its seat after the scan has reached (q, j). */
  function ScanPrefix(hands: seq<seq<Card>>, trump: Suit, q: nat, j: nat): (Option<Card>, nat)
    requires ScanPosition(hands, q, j)
    decreases q, j
  {
    if j > 0 then
      var (lowest, idx) := ScanPrefix(hands, trump, q, j - 1);
      ScanStep(lowest, idx, hands[q][j - 1], trump, q)
    else if q == 0 then (None, 0)
    else ScanPrefix(hands, trump, q - 1, |hands[q - 1]|)
  }

  /** One more card keeps what `Scanned` says of the scan's state. */
  lemma ScanPrefixCard(hands: seq<seq<Card>>, trump: Suit, q: nat, j: nat)
    requires 0 < j && ScanPosition(hands, q, j)
    requires Scanned(hands, trump, q, j - 1, ScanPrefix(hands, trump, q, j - 1).0, ScanPrefix(hands, trump, q, j - 1).1)
    ensures Scanned(hands, trump, q, j, ScanPrefix(hands, trump, q, j).0, ScanPrefix(hands, trump, q, j).1)
  {
    var (lowest, idx) := ScanPrefix(hands, trump, q, j - 1);
    var (lowest', idx') := ScanStep(lowest, idx, hands[q][j - 1], trump, q);
    ScanCard(hands, trump, q, j - 1, lowest, idx, lowest', idx');
  }

  /** Moving to the next seat keeps what `Scanned` says of the scan's state. */
  lemma ScanPrefixHand(hands: seq<seq<Card>>, trump: Suit, q: nat)
    requires 0 < q <= |hands|
    requires Scanned(hands, trump, q - 1, |hands[q - 1]|,
                     ScanPrefix(hands, trump, q - 1, |hands[q - 1]|).0, ScanPrefix(hands, trump, q - 1, |hands[q - 1]|).1)
    ensures Scanned(hands, trump, q, 0, ScanPrefix(hands, trump, q, 0).0, ScanPrefix(hands, trump, q, 0).1)
  {
    var (lowest, idx) := ScanPrefix(hands, trump, q - 1, |hands[q - 1]|);
    ScanNextHand(hands, trump, q - 1, lowest, idx);
  }

  /** The scan's state up to (q, j) keeps what `Scanned` says. */
  lemma {:induction false} ScanPrefixScanned(hands: seq<seq<Card>>, trump: Suit, q: nat, j: nat)
    requires ScanPosition(hands, q, j)
    ensures Scanned(hands, trump, q, j, ScanPrefix(hands, trump, q, j).0, ScanPrefix(hands, trump, q, j).1)
    decreases q, j
  {
    if j > 0 {
      ScanPrefixScanned(hands, trump, q, j - 1);
      ScanPrefixCard(hands, trump, q, j);
    } else if q > 0 {
      ScanPrefixScanned(hands, trump, q - 1, |hands[q - 1]|);
      ScanPrefixHand(hands, trump, q);
    }
  }

  /** Scans the hands in seat order and each hand in card order, keeping the
      first trump of strictly lowest rank; seat 0 when nobody holds a trump. */
  method DetermineFirstAttacker(hands: seq<seq<Card>>, trump: Suit) returns (attackerIdx: nat)
    ensures attackerIdx == ScanPrefix(hands, trump, |hands|, 0).1
    ensures !HoldsTrump(hands, trump) ==> attackerIdx == 0
    ensures HoldsTrump(hands, trump) ==> attackerIdx < |hands| && exists c :: LowestTrumpAt(hands, trump, attackerIdx, c)
  {
    var lowestTrump: Option<Card> := None;
    attackerIdx := 0;
    var q := 0;
    while q < |hands|
      invariant 0 <= q <= |hands|
      invariant (lowestTrump, attackerIdx) == ScanPrefix(hands, trump, q, 0)
    {
      var hand := hands[q];
      var j := 0;
      while j < |hand|
        invariant 0 <= j <= |hand|
        invariant (lowestTrump, attackerIdx) == ScanPrefix(hands, trump, q, j)
      {
        var card := hand[j];
        if card.suit == trump {
          if lowestTrump.None? || card.rank < lowestTrump.value.rank {
            lowestTrump := Some(card);
            attackerIdx := q;
          }
        }
        j := j + 1;
      }
      q := q + 1;
    }
    ScanPrefixScanned(hands, trump, |hands|, 0);
    ScanDone(hands, trump, lowestTrump, attackerIdx);
  }

  /** c is a trump in hand idx, no trump anywhere is lower, and every
      earlier seat's trumps are strictly higher. */
  ghost predicate LowestTrumpAt(hands: seq<seq<Card>>, trump: Suit, idx: nat, c: Card)
  {
    && idx < |hands| && c in hands[idx] && c.suit == trump
    && (forall q, c' :: 0 <= q < |hands| && c' in hands[q] && c'.suit == trump ==> c.rank <= c'.rank)
    && (forall q, c' :: 0 <= q < idx && c' in hands[q] && c'.suit == trump ==> c.rank < c'.rank)
  }

  lemma ScanDone(hands: seq<seq<Card>>, trump: Suit, lowest: Option<Card>, idx: nat)
    requires Scanned(hands, trump, |hands|, 0, lowest, idx)
    ensures !HoldsTrump(hands, trump) ==> idx == 0
    ensures HoldsTrump(hands, trump) ==> idx < |hands| && exists c :: LowestTrumpAt(hands, trump, idx, c)
  {
    if lowest.Some? {
      assert LowestTrumpAt(hands, trump, idx, lowest.value);
    }
  }

  /** What the scan knows after the hands before seat q and the first j
      cards of hand q: the lowest trump seen, the seat holding it, and that
      no earlier seat holds a trump as low. */
  ghost predicate Scanned(hands: seq<seq<Card>>, trump: Suit, q: nat, j: nat, lowest: Option<Card>, idx: nat)
  {
    && q <= |hands| && (q < |hands| ==> j <= |hands[q]|) && (q == |hands| ==> j == 0)
    && (lowest.None? ==> idx == 0)
    && (lowest.None? <==> (forall q', c :: 0 <= q' < q && c in hands[q'] ==> c.suit != trump)
                          && (q < |hands| ==> forall c :: c in hands[q][..j] ==> c.suit != trump))
    && (lowest.Some? ==>
          && idx <= q && idx < |hands| && lowest.value in hands[idx] && lowest.value.suit == trump
          && (forall q', c :: 0 <= q' < q && c in hands[q'] && c.suit == trump ==> lowest.value.rank <= c.rank)
          && (q < |hands| ==> forall c :: c in hands[q][..j] && c.suit == trump ==> lowest.value.rank <= c.rank)
          && (forall q', c :: 0 <= q' < idx && c in hands[q'] && c.suit == trump ==> lowest.value.rank < c.rank))
  }

  lemma ScanCard(hands: seq<seq<Card>>, trump: Suit, q: nat, j: nat,
                 lowest: Option<Card>, idx: nat, lowest': Option<Card>, idx': nat)
    requires q < |hands| && j < |hands[q]| && Scanned(hands, trump, q, j, lowest, idx)
    requires var card := hands[q][j];
      if card.suit == trump && (lowest.None? || card.rank < lowest.value.rank)
      then lowest' == Some(card) && idx' == q
      else lowest' == lowest && idx' == idx
    ensures Scanned(hands, trump, q, j + 1, lowest', idx')
  {
    assert hands[q][..j + 1] == hands[q][..j] + [hands[q][j]];
  }

  lemma ScanNextHand(hands: seq<seq<Card>>, trump: Suit, q: nat, lowest: Option<Card>, idx: nat)
    requires q < |hands| && Scanned(hands, trump, q, |hands[q]|, lowest, idx)
    ensures Scanned(hands, trump, q + 1, 0, lowest, idx)
  {
    assert hands[q][..|hands[q]|] == hands[q];
  }

  /** The outcome of `checkGameOver`. */
  datatype Verdict = NotOver | Over(durak: Option<nat>)

  /** Seats from `from` on whose hands are not empty, in seat order. */
  function NonEmptySeats(hands: seq<seq<Card>>, from: nat): (r: seq<nat>)
    ensures forall k :: 0 <= k < |r| ==> from <= r[k] < |hands| && hands[r[k]] != []
    ensures forall i :: from <= i < |hands| && hands[i] != [] ==> i in r
    ensures forall k, l :: 0 <= k < l < |r| ==> r[k] < r[l]
    decreases |hands| - from
  {
    if from >= |hands| then []
    else if hands[from] != [] then [from] + NonEmptySeats(hands, from + 1)
    else NonEmptySeats(hands, from + 1)
  }

  /** The game is over once the deck is gone and at most one player still
      holds cards; that player, if any, is the durak (the loser). */
  function CheckGameOver(hands: seq<seq<Card>>, deckEmpty: bool): (v: Verdict)
    ensures !deckEmpty ==> v == NotOver
    ensures deckEmpty ==> (v.Over? <==> forall i, j :: 0 <= i < j < |hands| ==> hands[i] == [] || hands[j] == [])
    ensures v == Over(None) ==> forall i :: 0 <= i < |hands| ==> hands[i] == []
    ensures v.Over? && v.durak.Some? ==> (v.durak.value < |hands| && hands[v.durak.value] != []
              && forall j :: 0 <= j < |hands| && j != v.durak.value ==> hands[j] == [])
  {
    if !deckEmpty then NotOver
    else
      var withCards := NonEmptySeats(hands, 0);
      if |withCards| <= 1 then
        Over(if |withCards| == 1 then Some(withCards[0]) else None)
      else
        assert hands[withCards[0]] != [] && hands[withCards[1]] != [];
        NotOver
  }

  // ----- card valuation -----

  /** `strategy_weights`: how strongly pairs are pushed into attacks, how much
      trumps are hoarded, and the threshold below which a card counts as low. */
  datatype Weights = Weights(aggressiveFactor: real, trumpConservation: real, cardValueThreshold: real)

  const DefaultWeights := Weights(1.0, 1.0, 15.0)

  /** The test `c => c.rank === rank`. */
  function RankIs(rank: int): Card -> bool
  {
    (c: Card) => c.rank == rank
  }

  /** `hand.filter(c => c.rank === rank).length`. */
  function SameRankCount(hand: seq<Card>, rank: int): (n: nat)
    ensures n <= |hand|
    ensures n == 0 <==> forall c :: c in hand ==> c.rank != rank
  {
    Count(hand, RankIs(rank))
  }

  /** `evaluateCard`: lower means better to play. The rank, raised for a
      trump, lowered when the hand holds another card of the same rank. */
  function EvaluateCard(card: Card, trump: Suit, hand: seq<Card>, weights: Option<Weights>): (score: real)
    ensures card.suit != trump && SameRankCount(hand, card.rank) <= 1 ==> score == card.rank as real
    ensures weights.None? ==> card.rank as real - 5.0 <= score <= card.rank as real + 20.0
  {
    var w := if weights.Some? then weights.value else DefaultWeights;
    var trumpBonus := if card.suit == trump then 20.0 * w.trumpConservation else 0.0;
    var pairBonus := if SameRankCount(hand, card.rank) > 1 then 5.0 * w.aggressiveFactor else 0.0;
    card.rank as real + trumpBonus - pairBonus
  }

  /** With the default weights every trump is valued above every plain card,
      whatever the hands, so the built-in AI plays plain cards first. */
  lemma DefaultTrumpAbovePlain(t: Card, c: Card, trump: Suit, handT: seq<Card>, handC: seq<Card>)
    requires t.suit == trump && c.suit != trump
    ensures EvaluateCard(t, trump, handT, None) > EvaluateCard(c, trump, handC, None)
  {
  }

  /** Holding a pair lowers a card's value when the aggression factor is positive. */
  lemma PairLowersValue(card: Card, trump: Suit, hand: seq<Card>, w: Weights)
    requires w.aggressiveFactor > 0.0
    requires SameRankCount(hand, card.rank) > 1
    ensures EvaluateCard(card, trump, hand, Some(w)) < EvaluateCard(card, trump, [card], Some(w))
  {
    assert [card][1..] == [];
    assert SameRankCount([card], card.rank) == 1;
  }
}
