/** The probability engine the harder AIs consult: it knows the trump suit
    (or none), how many cards are left in the deck and which cards are
    visible, and reasons about the unknown rest of the 36-card deck. */
module AIProbability {
  import opened Seqs
  import opened Cards
  import opened Rules

  /** `calculateUnknownCards`: the deck's cards that are not visible, in deck order. */
  function CalculateUnknownCards(allCards: seq<Card>, visibleCards: seq<Card>): (r: seq<Card>)
    ensures forall c :: c in r <==> c in allCards && c !in visibleCards
    ensures Subsequence(r, allCards)
  {
    var unseen := (c: Card) => c !in visibleCards;
    FilterSubsequence(allCards, unseen);
    Filter(allCards, unseen)
  }

  /** The distinct visible cards (the set of visible ids). */
  function VisibleSet(visibleCards: seq<Card>): set<Card>
  {
    set c | c in visibleCards
  }

  function SeqSet(s: seq<Card>): set<Card>
  {
    set c | c in s
  }

  /** Filtering out a set from a duplicate-free sequence removes exactly the
      members of the set that occur in it. */
  lemma {:induction false} FilterOutCount(s: seq<Card>, out: set<Card>, f: Card -> bool)
    requires forall i, j :: 0 <= i < j < |s| ==> s[i] != s[j]
    requires forall c :: f(c) <==> c !in out
    ensures |Filter(s, f)| + |out * SeqSet(s)| == |s|
  {
    if s != [] {
      var t := s[1..];
      forall i, j | 0 <= i < j < |t|
        ensures t[i] != t[j]
      {
        assert t[i] == s[i + 1] && t[j] == s[j + 1];
      }
      FilterOutCount(t, out, f);
      var x := s[0];
      var rest := out * SeqSet(t);
      assert |Filter(s, f)| == (if f(x) then 1 else 0) + |Filter(t, f)|;
      SeqSetCons(s);
      if x in out {
        assert x !in rest;
        assert out * SeqSet(s) == rest + {x};
      } else {
        assert out * SeqSet(s) == rest;
      }
    }
  }

  /** The set of a duplicate-free sequence: its head, apart from the set of its tail. */
  lemma SeqSetCons(s: seq<Card>)
    requires s != [] && forall i, j :: 0 <= i < j < |s| ==> s[i] != s[j]
    ensures SeqSet(s) == {s[0]} + SeqSet(s[1..]) && s[0] !in SeqSet(s[1..])
  {
    assert s == [s[0]] + s[1..];
  }

  /** Every card is a deck card, so the unknown cards number 36 minus the
      distinct visible cards. */
  lemma UnknownCardsCount(visibleCards: seq<Card>)
    ensures |CalculateUnknownCards(FullDeck(), visibleCards)| == 36 - |VisibleSet(visibleCards)|
  {
    var d := FullDeck();
    FullDeckDistinct();
    var out := VisibleSet(visibleCards);
    FilterOutCount(d, out, c => c !in visibleCards);
    assert out * SeqSet(d) == out by {
      forall c | c in out
        ensures c in SeqSet(d)
      {
        var k := DeckIndex(c);
        assert d[k] == c;
      }
    }
  }

  /** The value of playing a card in the given situation, as
      `calculateExpectedValue` reads it from `gameState`. */
  datatype Situation = Situation(opponentHandSize: nat, ourHandSize: int, tableSize: nat, phase: Phase)

  /** `ratio * handSize / 6`: a share of a hand, against a full hand of six. */
  function PerSixCards(ratio: real, handSize: nat): (s: real)
    requires 0.0 <= ratio <= 1.0
    ensures 0.0 <= s <= handSize as real / 6.0
  {
    ScaleBounded(ratio, handSize as real);
    ratio * handSize as real / 6.0
  }

  /** `1 - (1 - k / total) ^ n`: the chance that n independent draws from
      `total` cards hit at least one of k given cards. */
  function ChanceOfAny(k: nat, total: nat, n: nat): (p: real)
    requires 0 < total && k <= total
    ensures 0.0 <= p <= 1.0
    ensures k == 0 || n == 0 ==> p == 0.0
    ensures k == total && n > 0 ==> p == 1.0
  {
    1.0 - Pow(1.0 - Ratio(k, total), n)
  }

  class ProbabilityEngine {
    const trumpSuit: Option<Suit>
    const deckSize: int
    const visibleCards: seq<Card>
    const allCards: seq<Card>
    const unknownCards: seq<Card>

    /** Records the trump (possibly none), the deck size and the visible
        cards, builds the full deck and derives the unknown cards from it. */
    constructor (trumpSuit: Option<Suit>, deckSize: int, visibleCards: seq<Card>)
      ensures this.trumpSuit == trumpSuit && this.deckSize == deckSize && this.visibleCards == visibleCards
      ensures allCards == FullDeck()
      ensures unknownCards == CalculateUnknownCards(FullDeck(), visibleCards)
      ensures |unknownCards| == 36 - |VisibleSet(visibleCards)|
    {
      this.trumpSuit := trumpSuit;
      this.deckSize := deckSize;
      this.visibleCards := visibleCards;
      var deck := BuildDeck();
      allCards := deck;
      unknownCards := CalculateUnknownCards(deck, visibleCards);
      UnknownCardsCount(visibleCards);
    }

    /** The engine's beating rule: a trump beats a plain card, and a higher
        card of the same suit beats a lower one. Without a trump suit only
        the second half applies. */
    function CanBeat(attack: Card, defense: Card): (b: bool)
      ensures trumpSuit.Some? ==> (b <==> Rules.CanBeat(attack, defense, trumpSuit.value))
      ensures trumpSuit.None? ==> (b <==> defense.suit == attack.suit && defense.rank > attack.rank)
    {
      (trumpSuit == Some(defense.suit) && trumpSuit != Some(attack.suit))
      || (defense.suit == attack.suit && defense.rank > attack.rank)
    }

    /** The rank, plus 10 for a trump: every trump is worth more than every plain card. */
    function GetCardValue(card: Card): (v: int)
      ensures trumpSuit == Some(card.suit) ==> v == card.rank + 10 && 14 < v <= 24
      ensures trumpSuit != Some(card.suit) ==> v == card.rank
    {
      card.rank + (if trumpSuit == Some(card.suit) then 10 else 0)
    }

    /** A card that beats another is worth more than it. */
    lemma BeatingCardWorthMore(attack: Card, defense: Card)
      requires CanBeat(attack, defense)
      ensures GetCardValue(defense) > GetCardValue(attack)
    {
    }

    /** The test `c => this.canBeat(card, c)`. */
    function Beats(card: Card): Card -> bool
    {
      (c: Card) => CanBeat(card, c)
    }

    /** The unknown cards that would beat `card`. */
    function BeatingCards(card: Card): (r: seq<Card>)
      ensures forall c :: c in r <==> c in unknownCards && CanBeat(card, c)
      ensures |r| <= |unknownCards|
    {
      Filter(unknownCards, Beats(card))
    }

    /** The chance that a hand of `opponentHandSize` unknown cards holds one
        that beats `card`, counting each card as drawn independently. */
    function ProbabilityOpponentCanBeat(card: Card, opponentHandSize: nat): (p: real)
      ensures opponentHandSize == 0 || unknownCards == [] ==> p == 0.0
      ensures 0.0 <= p <= 1.0
      ensures BeatingCards(card) == [] ==> p == 0.0
      ensures opponentHandSize > 0 && unknownCards != [] && |BeatingCards(card)| == |unknownCards| ==> p == 1.0
    {
      if opponentHandSize == 0 then 0.0
      else
        var beating := BeatingCards(card);
        var totalUnknown := |unknownCards|;
        if totalUnknown == 0 then 0.0
        else
          ChanceOfAny(|beating|, totalUnknown, opponentHandSize)
    }

    /** `calculateExpectedValue`: low cards, plain cards and cards the
        opponent is unlikely to beat score higher. */
    function CalculateExpectedValue(card: Card, s: Situation): (ev: real)
      ensures -1.6 <= ev <= 2.4
    {
      var cardValue := GetCardValue(card);
      var base := (15 - cardValue) as real * 0.1;
      var trumpAdjust :=
        if trumpSuit == Some(card.suit) then -0.3 + (if deckSize < 5 then 0.2 else 0.0) else 0.0;
      var endgame :=
        if s.ourHandSize <= 3 then 0.4 + (if cardValue >= 12 then 0.3 else 0.0) else 0.0;
      var opening :=
        if s.tableSize == 0 && s.phase == Attack then
          (if cardValue <= 8 then 0.5 else 0.0) + (if cardValue >= 12 then -0.4 else 0.0)
        else 0.0;
      var beatProb := ProbabilityOpponentCanBeat(card, s.opponentHandSize);
      var chance := if s.phase == Attack then (1.0 - beatProb) * 0.6 else 0.0;
      assert 0.0 <= chance <= 0.6;
      base + trumpAdjust + endgame + opening + chance
    }

    /** How `findOptimalDefense` scores a defence: small overkill, no trump
        early, no high card, and a card the opponent cannot easily beat. */
    function DefenseScore(card: Card, attack: Card, opponentHandSize: nat): (score: real)
      ensures -7.3 <= score <= 6.5
      ensures CanBeat(attack, card) ==> score <= 0.8
    {
      assert CanBeat(attack, card) ==> GetCardValue(card) > GetCardValue(attack) by {
        if CanBeat(attack, card) { BeatingCardWorthMore(attack, card); }
      }
      var margin := GetCardValue(card) - GetCardValue(attack);
      var isTrump := trumpSuit == Some(card.suit);
      - margin as real * 0.3
      + (if isTrump then -0.8 + (if deckSize > 10 then -0.5 else 0.0) else 0.0)
      + (if card.rank >= 13 then -0.6 else 0.0)
      + (if deckSize < 5 && isTrump then 0.7 else 0.0)
      + ProbabilityOpponentCanBeat(card, opponentHandSize) * 0.4
    }

    /** `findOptimalDefense`: the legal defence with the highest score, the
        first such in hand order on a tie; none when no card beats the attack. */
    function FindOptimalDefense(attack: Card, hand: seq<Card>, opponentHandSize: nat): (r: Option<Card>)
      ensures r.None? <==> forall c :: c in hand ==> !CanBeat(attack, c)
      ensures r.Some? ==> r.value in hand && CanBeat(attack, r.value)
      ensures r.Some? ==> forall c :: c in hand && CanBeat(attack, c) ==>
                DefenseScore(c, attack, opponentHandSize) <= DefenseScore(r.value, attack, opponentHandSize)
    {
      var valid := Filter(hand, c => CanBeat(attack, c));
      if valid == [] then None
      else
        var key := (c: Card) => -DefenseScore(c, attack, opponentHandSize);
        SortedHeadLeast(valid, key);
        Some(SortBy(valid, key)[0])
    }

    /** How `findOptimalAttack` scores an attack. */
    function AttackScore(card: Card, hand: seq<Card>, table: seq<TableEntry>, opponentHandSize: nat): (score: real)
      ensures -1.6 <= score <= 4.0
    {
      var ev := CalculateExpectedValue(card, Situation(opponentHandSize, |hand|, |table|, Attack));
      var beatProb := ProbabilityOpponentCanBeat(card, opponentHandSize);
      ev + (1.0 - beatProb) * 0.8
      + (if SameRankCount(hand, card.rank) > 1 then 0.3 else 0.0)
      + (if card.rank <= 8 && opponentHandSize <= 3 then 0.5 else 0.0)
    }

    /** `findOptimalAttack`: the legal attack with the highest score; none
        when no card may be added. */
    function FindOptimalAttack(hand: seq<Card>, table: seq<TableEntry>, opponentHandSize: nat): (r: Option<Card>)
      ensures r.None? <==> ValidAttackCards(hand, table) == []
      ensures r.Some? ==> r.value in hand && Addable(r.value, table)
      ensures r.Some? ==> forall c :: c in ValidAttackCards(hand, table) ==>
                AttackScore(c, hand, table, opponentHandSize) <= AttackScore(r.value, hand, table, opponentHandSize)
    {
      var valid := ValidAttackCards(hand, table);
      if valid == [] then None
      else
        var key := (c: Card) => -AttackScore(c, hand, table, opponentHandSize);
        SortedHeadLeast(valid, key);
        Some(SortBy(valid, key)[0])
    }

    /** The engine's copy of `getValidAttackCards`, collecting the table's
        ranks in a set first. */
    method GetValidAttackCards(hand: seq<Card>, table: seq<TableEntry>) returns (r: seq<Card>)
      ensures r == ValidAttackCards(hand, table)
    {
      if |table| == 0 {
        return hand;
      }
      var tableRanks := CollectTableRanks(table);
      r := Filter(hand, (c: Card) => c.rank in tableRanks);
    }

    /** `shouldContinueAttack`; `Math.random()` is the nondeterministic `roll`. */
    method ShouldContinueAttack(hand: seq<Card>, table: seq<TableEntry>, opponentHandSize: int, defenderCards: int)
      returns (b: bool)
      ensures |table| >= defenderCards ==> !b
      ensures ValidAttackCards(hand, table) == [] ==> !b
      ensures |table| < defenderCards && ValidAttackCards(hand, table) != [] ==>
                (|hand| <= 2 && opponentHandSize <= 2 ==> b)
      ensures |table| < defenderCards && ValidAttackCards(hand, table) != [] && !(|hand| <= 2 && opponentHandSize <= 2) ==>
                (!AllDefended(table) ==> !b)
                && (AllDefended(table) && deckSize <= 5 ==> (b <==> |table| < MinInt(5, defenderCards)))
    {
      if |table| >= defenderCards {
        return false;
      }
      var validAttacks := GetValidAttackCards(hand, table);
      if |validAttacks| == 0 {
        return false;
      }
      if |hand| <= 2 && opponentHandSize <= 2 {
        return true;
      }
      if !AllDefended(table) {
        return false;
      }
      var roll: real :| 0.0 <= roll < 1.0;
      if deckSize > 15 && |table| >= 3 {
        return roll > 0.7;
      }
      if deckSize > 5 && |table| >= 4 {
        return roll > 0.6;
      }
      if deckSize <= 5 {
        return |table| < MinInt(5, defenderCards);
      }
      return roll > 0.5;
    }

    /** `estimateOpponentStrength`: the share of high cards and trumps among
        the unknown cards, scaled by the opponent's hand against six. */
    function EstimateOpponentStrength(opponentHandSize: nat, cardsPlayed: int): (s: real)
      ensures unknownCards == [] ==> s == 0.5
      ensures unknownCards != [] ==> 0.0 <= s <= opponentHandSize as real / 6.0
    {
      var highCardsRemaining := Count(unknownCards, (c: Card) => c.rank >= 12 || trumpSuit == Some(c.suit));
      var totalUnknown := |unknownCards|;
      if totalUnknown == 0 then 0.5
      else
        var strengthRatio := Ratio(highCardsRemaining, totalUnknown);
        PerSixCards(strengthRatio, opponentHandSize)
    }

    /** What `estimateDefenseProbability` computes: nothing to defend with
        for an empty hand, even odds when nothing is unknown, and otherwise
        the same chance as `probabilityOpponentCanBeat`. */
    function DefenseProbability(attack: Card, opponentHandSize: nat): (p: real)
      ensures opponentHandSize == 0 ==> p == 0.0
      ensures opponentHandSize > 0 && unknownCards == [] ==> p == 0.5
      ensures 0.0 <= p <= 1.0
    {
      if opponentHandSize == 0 then 0.0
      else if unknownCards == [] then 0.5
      else ProbabilityOpponentCanBeat(attack, opponentHandSize)
    }

    /** Counts, in a loop, the unknown cards that beat the attack. */
    method EstimateDefenseProbability(attack: Card, opponentHandSize: nat) returns (p: real)
      ensures p == DefenseProbability(attack, opponentHandSize)
    {
      if opponentHandSize == 0 {
        return 0.0;
      }
      var totalUnknown := |unknownCards|;
      if totalUnknown == 0 {
        return 0.5;
      }
      var cards := unknownCards;
      var f := Beats(attack);
      var canBeatCount := 0;
      var i := 0;
      while i < totalUnknown
        invariant 0 <= i <= totalUnknown
        invariant canBeatCount == CountIf(cards[..i], f)
      {
        var card := cards[i];
        assert cards[..i + 1][..i] == cards[..i];
        if CanBeat(attack, card) {
          canBeatCount := canBeatCount + 1;
        }
        i := i + 1;
      }
      assert cards[..i] == cards;
      CountIfFilter(cards, f);
      p := ChanceOfAny(canBeatCount, totalUnknown, opponentHandSize);
    }
  }
}
