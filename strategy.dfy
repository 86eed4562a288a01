/** The strategy engine behind the computer players: four play styles
    (easy, medium, hard, aha), chosen by difficulty, and the helpers they
    share. Every style answers one question for an attack or a defence:
    which card to play, or none. */
module AIStrategy {
  import opened Seqs
  import opened Cards
  import opened Rules
  import opened Records
  import opened AIProbability
  import opened DuplicateRanks

  /** The four play styles. */
  datatype Strategy = Easy | Medium | Hard | Aha

  /** The `strategies` table, keyed by difficulty name. */
  const StrategyTable: map<string, Strategy> :=
    map["easy" := Easy, "medium" := Medium, "hard" := Hard, "aha" := Aha]

  /** The `gameState` a strategy is asked about. */
  datatype GameState = GameState(
    trumpSuit: Suit,
    table: seq<TableEntry>,
    deckSize: int,
    opponentHandSize: nat,
    ourHandSize: nat)

  /** `tableCards.find(p => !p.defense).attack`, when there is one. */
  function UndefendedAttack(table: seq<TableEntry>): (a: Option<Card>)
    ensures a.None? <==> AllDefended(table)
    ensures a.Some? ==> exists u :: 0 <= u < |table| && table[u].attack == a.value && table[u].defense.None?
  {
    match FirstUndefended(table)
    case None => None
    case Some(u) => Some(table[u].attack)
  }

  /** An attack decision is legal: none exactly when no card may be added,
      otherwise a card that may. */
  predicate LegalAttack(hand: seq<Card>, table: seq<TableEntry>, r: Option<Card>)
  {
    && (r.None? <==> ValidAttackCards(hand, table) == [])
    && (r.Some? ==> r.value in ValidAttackCards(hand, table))
  }

  /** A defence decision is legal: none when nothing is left undefended,
      and otherwise either none (take) or a hand card that beats the first
      undefended attack. */
  predicate LegalDefence(hand: seq<Card>, table: seq<TableEntry>, trump: Suit, r: Option<Card>)
  {
    match UndefendedAttack(table)
    case None => r.None?
    case Some(a) => r.Some? ==> r.value in hand && CanBeat(a, r.value, trump)
  }

  /** c is the first card of the hand, in hand order, that beats the attack. */
  predicate FirstBeating(hand: seq<Card>, attack: Card, trump: Suit, c: Card)
  {
    exists i :: 0 <= i < |hand| && hand[i] == c && Rules.CanBeat(attack, c, trump)
      && forall j :: 0 <= j < i ==> !Rules.CanBeat(attack, hand[j], trump)
  }

  /** The test `c => this.canBeat(attack, c, trumpSuit)`. */
  function BeatsAttack(attack: Card, trump: Suit): Card -> bool
  {
    (c: Card) => CanBeat(attack, c, trump)
  }

  /** `getCardStrength`: the rank, plus 10 for a trump. */
  function GetCardStrength(card: Card, trump: Suit): (v: int)
    ensures card.suit == trump ==> v == card.rank + 10 && 14 < v <= 24
    ensures card.suit != trump ==> v == card.rank
  {
    card.rank + (if card.suit == trump then 10 else 0)
  }

  /** The strategy engine's strength is the probability engine's card value
      when both know the same trump. */
  lemma StrengthIsEngineValue(prob: ProbabilityEngine, card: Card, trump: Suit)
    requires prob.trumpSuit == Some(trump)
    ensures GetCardStrength(card, trump) == prob.GetCardValue(card)
  {
  }

  /** The strategy engine's copy of `canBeat`, written as two tests. */
  function CanBeat(attack: Card, defense: Card, trump: Suit): (b: bool)
    ensures b <==> Rules.CanBeat(attack, defense, trump)
  {
    if defense.suit == trump && attack.suit != trump then true
    else if defense.suit == attack.suit && defense.rank > attack.rank then true
    else false
  }

  /** Medium's attack order: the rank, plus 20 for a trump. */
  function MediumAttackKey(trump: Suit): Card -> real
  {
    (c: Card) => (c.rank + (if c.suit == trump then 20 else 0)) as real
  }

  /** Medium's defence order: the card strength. */
  function StrengthKey(trump: Suit): Card -> real
  {
    (c: Card) => GetCardStrength(c, trump) as real
  }

  /** The weakest card that beats the attack, as the medium style finds it
      (first of the beating cards sorted by strength), is a beating card of
      the hand no stronger than any other. */
  lemma CheapestBeater(hand: seq<Card>, attack: Card, trump: Suit)
    requires Filter(hand, BeatsAttack(attack, trump)) != []
    ensures var c := SortBy(Filter(hand, BeatsAttack(attack, trump)), StrengthKey(trump))[0];
      && c in hand && Rules.CanBeat(attack, c, trump)
      && forall c' :: c' in hand && Rules.CanBeat(attack, c', trump) ==>
           GetCardStrength(c, trump) <= GetCardStrength(c', trump)
  {
    SortedHeadLeast(Filter(hand, BeatsAttack(attack, trump)), StrengthKey(trump));
  }

  // ----- learned knowledge -----

  /** The test of `findSimilarKnowledge`: a successful record whose hand size
      is within two of ours. */
  function Similar(handSize: int): Knowledge -> bool
  {
    (k: Knowledge) => Abs(k.handSize - handSize) <= 2 && k.wasSuccessful
  }

  /** The test of `getLearnedCardScore`: a record of the same kind of
      decision, with a card within two ranks of ours. */
  function Relevant(card: Card, action: string): Knowledge -> bool
  {
    (k: Knowledge) => k.decisionType == action && k.cardPlayed.Some? && Abs(k.cardPlayed.value.rank - card.rank) <= 2
  }

  /** `reduce((sum, m) => sum + m.reward, 0)`, left to right. */
  function SumRewards(s: seq<Knowledge>): real
  {
    if s == [] then 0.0 else SumRewards(s[..|s| - 1]) + s[|s| - 1].reward
  }

  /** Rewards in [0, 1] add up to at most the number of records. */
  lemma {:induction false} SumRewardsBounded(s: seq<Knowledge>)
    requires forall k :: k in s ==> 0.0 <= k.reward <= 1.0
    ensures 0.0 <= SumRewards(s) <= |s| as real
  {
    if s != [] {
      var init := s[..|s| - 1];
      assert forall k :: k in init ==> k in s;
      SumRewardsBounded(init);
      assert s[|s| - 1] in s;
    }
  }

  /** The mean of n values in [0, 1] is in [0, 1]. */
  function Mean(sum: real, n: nat): (m: real)
    requires n > 0 && 0.0 <= sum <= n as real
    ensures 0.0 <= m <= 1.0
  {
    var m := sum / n as real;
    assert m * n as real == sum;
    m
  }

  /** `getLearnedCardScore`: five times the mean reward of the relevant
      records; nothing without situations or relevant records. */
  function LearnedCardScore(card: Card, situations: seq<Knowledge>, action: string): (score: real)
    ensures situations == [] || Filter(situations, Relevant(card, action)) == [] ==> score == 0.0
    ensures (forall k :: k in situations ==> 0.0 <= k.reward <= 1.0) ==> 0.0 <= score <= 5.0
  {
    if situations == [] then 0.0
    else
      var relevant := Filter(situations, Relevant(card, action));
      if relevant == [] then 0.0
      else
        var sum := SumRewards(relevant);
        var mean := sum / |relevant| as real;
        assert (forall k :: k in situations ==> 0.0 <= k.reward <= 1.0) ==> 0.0 <= mean <= 1.0 by {
          if forall k :: k in situations ==> 0.0 <= k.reward <= 1.0 {
            SumRewardsBounded(relevant);
            assert mean == Mean(sum, |relevant|);
          }
        }
        mean * 5.0
  }

  /** `evaluateEndgameAttack`: with fewer cards than the opponent, high
      cards score up; with more, low cards do; a trump loses 8 points while
      the hand holds more than two cards. */
  function EvaluateEndgameAttack(card: Card, hand: seq<Card>, opponentHandSize: int, trump: Suit): (score: real)
    ensures -10.1 <= score <= 3.5
    ensures card.suit == trump && |hand| > 2 ==> score <= -4.5
    ensures (card.suit != trump || |hand| <= 2) && |hand| == opponentHandSize ==> score == 0.0
  {
    var behind := if |hand| < opponentHandSize then (card.rank - 7) as real * 0.5 else 0.0;
    var ahead := if |hand| > opponentHandSize then (card.rank - 7) as real * 0.3 else 0.0;
    var trumpPenalty := if card.suit == trump && |hand| > 2 then 8.0 else 0.0;
    behind - ahead - trumpPenalty
  }

  /** Behind on cards, a higher card of the same kind scores higher; ahead,
      a lower one does. */
  lemma EndgameOrder(lo: Card, hi: Card, hand: seq<Card>, opponentHandSize: int, trump: Suit)
    requires lo.rank < hi.rank && (lo.suit == trump <==> hi.suit == trump)
    ensures |hand| < opponentHandSize ==>
              EvaluateEndgameAttack(lo, hand, opponentHandSize, trump) < EvaluateEndgameAttack(hi, hand, opponentHandSize, trump)
    ensures |hand| > opponentHandSize ==>
              EvaluateEndgameAttack(lo, hand, opponentHandSize, trump) > EvaluateEndgameAttack(hi, hand, opponentHandSize, trump)
  {
  }

  // ----- the aha scores -----

  /** How the aha attack scores a card, given the opponent's chance to
      defend it and the similar situations found. */
  function AhaAttackScore(card: Card, hand: seq<Card>, st: GameState, similar: seq<Knowledge>, defenseProb: real): (score: real)
    ensures card in hand && 0.0 <= defenseProb <= 1.0 && (forall k :: k in similar ==> 0.0 <= k.reward <= 1.0) ==>
              -22.1 <= score <= 28.5 + 2.0 * |hand| as real
  {
    - GetCardStrength(card, st.trumpSuit) as real * 0.5
    + (1.0 - defenseProb) * 10.0
    + LearnedCardScore(card, similar, "attack") * 3.0
    + (SameRankCount(hand, card.rank) as real - 1.0) * 2.0
    + (if st.deckSize == 0 && st.ourHandSize <= 3
       then EvaluateEndgameAttack(card, hand, st.opponentHandSize, st.trumpSuit) else 0.0)
    + (if |st.table| == 0 && st.deckSize > 20 && card.rank <= 8 && card.suit != st.trumpSuit then 5.0 else 0.0)
  }

  /** A card the opponent is less likely to defend scores at least as high
      as with a greater chance of defence, everything else equal. */
  lemma AhaAttackPrefersSafeCards(card: Card, hand: seq<Card>, st: GameState, similar: seq<Knowledge>,
                                  p1: real, p2: real)
    requires p1 <= p2
    ensures AhaAttackScore(card, hand, st, similar, p2) <= AhaAttackScore(card, hand, st, similar, p1)
  {
  }

  /** A score that may be infinite (the aha defence's way to say "take"). */
  datatype Score = Finite(value: real) | Infinite

  /** How the aha defence scores a card; infinite in the endgame, when not
      behind on cards, for a card more than 10 above the attack. */
  function AhaDefenseScore(card: Card, attack: Card, st: GameState, similar: seq<Knowledge>): (s: Score)
    ensures st.deckSize != 0 || st.ourHandSize > st.opponentHandSize ==> s.Finite?
  {
    var strength := GetCardStrength(card, st.trumpSuit) as real;
    var attackValue := GetCardStrength(attack, st.trumpSuit) as real;
    var score := strength + (strength - attackValue) * 0.8
      + (if card.suit == st.trumpSuit && st.deckSize > 10 then 15.0 else 0.0)
      - LearnedCardScore(card, similar, "defense") * 2.0;
    if st.deckSize == 0 then
      if st.ourHandSize > st.opponentHandSize then Finite(score - 5.0)
      else if score > attackValue + 10.0 then Infinite
      else Finite(score)
    else Finite(score)
  }

  /** The aha attack score of each card, with the opponent's chance to
      defend taken from the probability engine. */
  function AhaAttackKey(prob: ProbabilityEngine, hand: seq<Card>, st: GameState, similar: seq<Knowledge>): Card -> real
  {
    (c: Card) => AhaAttackScore(c, hand, st, similar, prob.DefenseProbability(c, st.opponentHandSize))
  }

  /** The aha attack loop: the first candidate of highest score. */
  method AhaSelectAttack(prob: ProbabilityEngine, candidates: seq<Card>, hand: seq<Card>, st: GameState, similar: seq<Knowledge>)
    returns (r: Option<Card>)
    ensures r.None? <==> candidates == []
    ensures r.Some? ==>
              exists i :: FirstMaxAt(candidates, AhaAttackKey(prob, hand, st, similar), i) && candidates[i] == r.value
  {
    ghost var key := AhaAttackKey(prob, hand, st, similar);
    r := None;
    var bestScore := 0.0;
    ghost var bestIdx := 0;
    for i := 0 to |candidates|
      invariant r.None? <==> i == 0
      invariant r.Some? ==> MaxScan(candidates, key, i, bestIdx) && candidates[bestIdx] == r.value && bestScore == key(r.value)
    {
      var card := candidates[i];
      var defenseProb := prob.EstimateDefenseProbability(card, st.opponentHandSize);
      var score := AhaAttackScore(card, hand, st, similar, defenseProb);
      assert score == key(card);
      ghost var before := bestIdx;
      if r.None? || score > bestScore {
        bestScore := score;
        r := Some(card);
        bestIdx := i;
      }
      MaxScanStep(candidates, key, i, before, bestIdx);
    }
    if r.Some? {
      assert FirstMaxAt(candidates, key, bestIdx);
    }
  }

  /** The aha defence score of each card against the attack. */
  function AhaDefenseKey(attack: Card, st: GameState, similar: seq<Knowledge>): Card -> Score
  {
    (c: Card) => AhaDefenseScore(c, attack, st, similar)
  }

  /** After scanning s[..i], best is the first index of least finite score,
      or none when every score so far is infinite. */
  ghost predicate MinFiniteScan(s: seq<Card>, key: Card -> Score, i: nat, best: Option<nat>)
  {
    && i <= |s|
    && match best
       case None => forall j :: 0 <= j < i ==> key(s[j]).Infinite?
       case Some(b) =>
         && b < i && key(s[b]).Finite?
         && (forall j :: 0 <= j < i && key(s[j]).Finite? ==> key(s[b]).value <= key(s[j]).value)
         && (forall j :: 0 <= j < b && key(s[j]).Finite? ==> key(s[b]).value < key(s[j]).value)
  }

  /** s[i] has the least finite score in s, and every earlier finite score is
      strictly greater: what a scan keeping the first strict improvement ends on. */
  ghost predicate FirstMinFiniteAt(s: seq<Card>, key: Card -> Score, i: int)
  {
    && 0 <= i < |s| && key(s[i]).Finite?
    && (forall j :: 0 <= j < |s| && key(s[j]).Finite? ==> key(s[i]).value <= key(s[j]).value)
    && (forall j :: 0 <= j < i && key(s[j]).Finite? ==> key(s[i]).value < key(s[j]).value)
  }

  /** One step of the scan: move to s[i] only when its score is finite and
      strictly below the best so far. */
  lemma MinFiniteScanStep(s: seq<Card>, key: Card -> Score, i: nat, best: Option<nat>, best': Option<nat>)
    requires i < |s| && MinFiniteScan(s, key, i, best)
    requires best' == if key(s[i]).Finite? && (best.None? || key(s[i]).value < key(s[best.value]).value)
                      then Some(i) else best
    ensures MinFiniteScan(s, key, i + 1, best')
  {
  }

  /** The aha defence loop: the first candidate of lowest finite score;
      none when every score is infinite. */
  method AhaSelectDefense(candidates: seq<Card>, attack: Card, st: GameState, similar: seq<Knowledge>)
    returns (r: Option<Card>)
    ensures r.None? <==> forall c :: c in candidates ==> AhaDefenseScore(c, attack, st, similar).Infinite?
    ensures r.Some? ==> r.value in candidates && AhaDefenseScore(r.value, attack, st, similar).Finite?
    ensures r.Some? ==>
              forall c :: c in candidates && AhaDefenseScore(c, attack, st, similar).Finite? ==>
                AhaDefenseScore(r.value, attack, st, similar).value <= AhaDefenseScore(c, attack, st, similar).value
    ensures r.Some? ==>
              exists i :: FirstMinFiniteAt(candidates, AhaDefenseKey(attack, st, similar), i) && candidates[i] == r.value
  {
    ghost var key := AhaDefenseKey(attack, st, similar);
    r := None;
    var bestScore: Score := Infinite;
    ghost var best: Option<nat> := None;
    for i := 0 to |candidates|
      invariant MinFiniteScan(candidates, key, i, best)
      invariant best.None? ==> r.None? && bestScore.Infinite?
      invariant best.Some? ==> best.value < |candidates| && r == Some(candidates[best.value]) && bestScore == key(r.value)
    {
      var card := candidates[i];
      var score := AhaDefenseScore(card, attack, st, similar);
      assert score == key(card);
      ghost var before := best;
      if score.Finite? && (bestScore.Infinite? || score.value < bestScore.value) {
        bestScore := score;
        r := Some(card);
        best := Some(i);
      }
      MinFiniteScanStep(candidates, key, i, before, best);
    }
    if best.Some? {
      assert FirstMinFiniteAt(candidates, key, best.value);
    }
    forall c | c in candidates
      ensures key(c) == AhaDefenseScore(c, attack, st, similar)
    {
    }
  }

  /** The advice of a probability engine that knows the deck size but no
      trump and no visible card, on whether to go on attacking a defender
      holding `opponentHandSize` cards. */
  method ProbabilityAdvice(hand: seq<Card>, table: seq<TableEntry>, deckSize: int, opponentHandSize: int)
    returns (b: bool)
    ensures |table| >= opponentHandSize || ValidAttackCards(hand, table) == [] ==> !b
    ensures |table| < opponentHandSize && ValidAttackCards(hand, table) != [] ==>
              (|hand| <= 2 && opponentHandSize <= 2 ==> b)
              && (!(|hand| <= 2 && opponentHandSize <= 2) && !AllDefended(table) ==> !b)
              && (!(|hand| <= 2 && opponentHandSize <= 2) && AllDefended(table) && deckSize <= 5 ==>
                    (b <==> |table| < MinInt(5, opponentHandSize)))
  {
    var prob := new ProbabilityEngine(None, deckSize, []);
    b := prob.ShouldContinueAttack(hand, table, opponentHandSize, opponentHandSize);
  }

  class AIStrategyEngine {
    const difficulty: string
    const knowledge: seq<Knowledge>
    const strategies: map<string, Strategy> := StrategyTable

    /** Keeps the difficulty and the learned records (none when absent),
        and sets up the table of play styles. */
    constructor (difficulty: string, learnedKnowledge: Option<seq<Knowledge>>)
      ensures this.difficulty == difficulty
      ensures knowledge == (if learnedKnowledge.Some? then learnedKnowledge.value else [])
    {
      this.difficulty := difficulty;
      knowledge := if learnedKnowledge.Some? then learnedKnowledge.value else [];
    }

    /** `findSimilarKnowledge`: the first ten successful records whose hand
        size is within two of ours, in the order they were learned. */
    function FindSimilarKnowledge(handSize: int): (r: seq<Knowledge>)
      ensures |r| == MinInt(10, Count(knowledge, Similar(handSize)))
      ensures forall k :: k in r ==> k in knowledge && k.wasSuccessful && Abs(k.handSize - handSize) <= 2
      ensures Subsequence(r, knowledge)
      ensures knowledge == [] ==> r == []
    {
      if knowledge == [] then []
      else
        var similar := Filter(knowledge, Similar(handSize));
        var r := Take(similar, 10);
        assert Subsequence(r, similar) by {
          if |similar| > 10 {
            SubsequencePrefix(similar, 10);
          } else {
            SubsequenceRefl(similar);
          }
        }
        FilterSubsequence(knowledge, Similar(handSize));
        SubsequenceTrans(r, similar, knowledge);
        r
    }

    /** `getValidAttacks`: the strategy engine's own copy, collecting the
        table's ranks in a set first. */
    method GetValidAttacks(hand: seq<Card>, table: seq<TableEntry>) returns (r: seq<Card>)
      ensures r == ValidAttackCards(hand, table)
    {
      if |table| == 0 {
        return hand;
      }
      var ranks := CollectTableRanks(table);
      r := Filter(hand, (c: Card) => c.rank in ranks);
    }

    /** `getVisibleCards`: our hand, then every attack on the table followed
        by its defence when there is one. */
    method GetVisibleCards(hand: seq<Card>, table: seq<TableEntry>) returns (visible: seq<Card>)
      ensures visible == hand + TableCards(table)
    {
      visible := hand;
      var i := 0;
      while i < |table|
        invariant 0 <= i <= |table|
        invariant visible == hand + TableCards(table[..i])
      {
        var p := table[i];
        ghost var before := visible;
        visible := visible + [p.attack];
        if p.defense.Some? {
          visible := visible + [p.defense.value];
        }
        TableCardsPush(hand, table, i, before, visible);
        i := i + 1;
      }
      assert table[..i] == table;
    }

    /** `findDuplicates`: the method that groups the hand by rank in a
        dictionary, then gathers every group of two or more in rank order. */
    method FindDuplicates(hand: seq<Card>) returns (duplicates: seq<Card>)
      ensures duplicates == Duplicates(hand)
    {
      var ranks: map<Rank, seq<Card>> := map[];
      var i := 0;
      assert hand[..0] == [];
      while i < |hand|
        invariant 0 <= i <= |hand|
        invariant GroupsOf(hand[..i], ranks)
      {
        var c := hand[i];
        GroupsOfSnoc(hand, i, ranks);
        // the group of the card's rank, created empty on first sight
        var group := if c.rank in ranks then ranks[c.rank] else [];
        ranks := ranks[c.rank := group + [c]];
        i := i + 1;
      }
      assert hand[..i] == hand;
      duplicates := [];
      var k := 0;
      assert duplicates == DuplicatesBelow(hand, 0);
      while k < 9
        invariant 0 <= k <= 9
        invariant duplicates == DuplicatesBelow(hand, k)
      {
        var rank: Rank := 6 + k;
        var group := if rank in ranks then ranks[rank] else [];
        assert Filter(hand, RankIs(rank)) == group;
        DuplicatesBelowNext(hand, k, group);
        if |group| > 1 {
          duplicates := duplicates + group;
        }
        k := k + 1;
      }
    }

    /** The easy style: a random legal attack (the last one 40% of the
        time); defends with the first card in hand order that beats. */
    method EasyStrategy(hand: seq<Card>, st: GameState, action: Phase) returns (r: Option<Card>)
      ensures action == Attack ==> LegalAttack(hand, st.table, r)
      ensures action == Defend ==> LegalDefence(hand, st.table, st.trumpSuit, r)
      ensures action == Defend && UndefendedAttack(st.table).Some? ==>
                var a := UndefendedAttack(st.table).value;
                (r.None? <==> forall c :: c in hand ==> !Rules.CanBeat(a, c, st.trumpSuit))
                && (r.Some? ==> FirstBeating(hand, a, st.trumpSuit, r.value))
    {
      if action == Attack {
        r := EasyAttack(hand, st.table);
      } else {
        r := EasyDefend(hand, st.table, st.trumpSuit);
      }
    }

    /** The attack half of the easy style. */
    method EasyAttack(hand: seq<Card>, table: seq<TableEntry>) returns (r: Option<Card>)
      ensures LegalAttack(hand, table, r)
    {
      var valid := GetValidAttacks(hand, table);
      if |valid| == 0 {
        return None;
      }
      var roll: real :| 0.0 <= roll < 1.0;
      if roll < 0.4 {
        return Some(valid[|valid| - 1]);
      }
      var k :| 0 <= k < |valid|;
      return Some(valid[k]);
    }

    /** The defence half of the easy style. */
    method EasyDefend(hand: seq<Card>, table: seq<TableEntry>, trump: Suit) returns (r: Option<Card>)
      ensures LegalDefence(hand, table, trump, r)
      ensures UndefendedAttack(table).Some? ==>
                var a := UndefendedAttack(table).value;
                (r.None? <==> forall c :: c in hand ==> !Rules.CanBeat(a, c, trump))
                && (r.Some? ==> FirstBeating(hand, a, trump, r.value))
    {
      var undefended := UndefendedAttack(table);
      if undefended.None? {
        return None;
      }
      var valid := Filter(hand, BeatsAttack(undefended.value, trump));
      if |valid| == 0 {
        return None;
      }
      FilterFirst(hand, BeatsAttack(undefended.value, trump));
      return Some(valid[0]);
    }

    /** The medium style: attacks with one of its three cheapest legal cards
        (plain before trump, low before high); defends with the weakest
        card that beats. */
    method MediumStrategy(hand: seq<Card>, st: GameState, action: Phase) returns (r: Option<Card>)
      ensures action == Attack ==> LegalAttack(hand, st.table, r)
      ensures action == Attack && r.Some? ==>
                exists k :: 0 <= k < MinInt(3, |ValidAttackCards(hand, st.table)|)
                  && r.value == SortBy(ValidAttackCards(hand, st.table), MediumAttackKey(st.trumpSuit))[k]
      ensures action == Defend ==> LegalDefence(hand, st.table, st.trumpSuit, r)
      ensures action == Defend && UndefendedAttack(st.table).Some? ==>
                var a := UndefendedAttack(st.table).value;
                (r.None? <==> forall c :: c in hand ==> !Rules.CanBeat(a, c, st.trumpSuit))
                && (r.Some? ==> forall c :: c in hand && Rules.CanBeat(a, c, st.trumpSuit) ==>
                      GetCardStrength(r.value, st.trumpSuit) <= GetCardStrength(c, st.trumpSuit))
    {
      if action == Attack {
        r := MediumAttack(hand, st.table, st.trumpSuit);
      } else {
        r := MediumDefend(hand, st.table, st.trumpSuit);
      }
    }

    /** The attack half of the medium style: the cheapest card 70% of the
        time, otherwise one of the three cheapest. */
    method MediumAttack(hand: seq<Card>, table: seq<TableEntry>, trump: Suit) returns (r: Option<Card>)
      ensures LegalAttack(hand, table, r)
      ensures r.Some? ==>
                exists k :: 0 <= k < MinInt(3, |ValidAttackCards(hand, table)|)
                  && r.value == SortBy(ValidAttackCards(hand, table), MediumAttackKey(trump))[k]
    {
      var valid := GetValidAttacks(hand, table);
      if |valid| == 0 {
        return None;
      }
      var sorted := SortBy(valid, MediumAttackKey(trump));
      var roll: real :| 0.0 <= roll < 1.0;
      var k: nat := 0;
      if roll >= 0.7 {
        assert MinInt(3, |sorted|) <= |sorted|;
        k :| k < MinInt(3, |sorted|);
      }
      SortedIn(valid, MediumAttackKey(trump), k);
      return Some(sorted[k]);
    }

    /** The defence half of the medium style. */
    method MediumDefend(hand: seq<Card>, table: seq<TableEntry>, trump: Suit) returns (r: Option<Card>)
      ensures LegalDefence(hand, table, trump, r)
      ensures UndefendedAttack(table).Some? ==>
                var a := UndefendedAttack(table).value;
                (r.None? <==> forall c :: c in hand ==> !Rules.CanBeat(a, c, trump))
                && (r.Some? ==> forall c :: c in hand && Rules.CanBeat(a, c, trump) ==>
                      GetCardStrength(r.value, trump) <= GetCardStrength(c, trump))
    {
      var undefended := UndefendedAttack(table);
      if undefended.None? {
        return None;
      }
      var valid := Filter(hand, BeatsAttack(undefended.value, trump));
      if |valid| == 0 {
        return None;
      }
      CheapestBeater(hand, undefended.value, trump);
      var sorted := SortBy(valid, StrengthKey(trump));
      return Some(sorted[0]);
    }

    /** The hard style: asks a probability engine that knows the trump, the
        deck size and every visible card for its best attack or defence. */
    method HardStrategy(hand: seq<Card>, st: GameState, action: Phase) returns (r: Option<Card>)
      ensures action == Attack ==> LegalAttack(hand, st.table, r)
      ensures action == Defend ==> LegalDefence(hand, st.table, st.trumpSuit, r)
      ensures action == Defend && UndefendedAttack(st.table).Some? ==>
                (r.None? <==> forall c :: c in hand ==> !Rules.CanBeat(UndefendedAttack(st.table).value, c, st.trumpSuit))
    {
      var visible := GetVisibleCards(hand, st.table);
      var prob := new ProbabilityEngine(Some(st.trumpSuit), st.deckSize, visible);
      if action == Attack {
        r := prob.FindOptimalAttack(hand, st.table, st.opponentHandSize);
      } else {
        var undefended := UndefendedAttack(st.table);
        if undefended.None? {
          return None;
        }
        r := prob.FindOptimalDefense(undefended.value, hand, st.opponentHandSize);
      }
    }

    /** The aha style: scores every legal card, using the probability
        engine and the learned records of similar situations, and plays the
        best; in the endgame it takes rather than spend a valuable card. */
    method AhaStrategy(hand: seq<Card>, st: GameState, action: Phase) returns (r: Option<Card>)
      ensures action == Attack ==> LegalAttack(hand, st.table, r)
      ensures action == Defend ==> LegalDefence(hand, st.table, st.trumpSuit, r)
      ensures action == Defend && UndefendedAttack(st.table).Some? ==>
                var a := UndefendedAttack(st.table).value;
                (r.None? <==> forall c :: c in hand && Rules.CanBeat(a, c, st.trumpSuit) ==>
                                AhaDefenseScore(c, a, st, FindSimilarKnowledge(st.ourHandSize)).Infinite?)
    {
      var visible := GetVisibleCards(hand, st.table);
      var prob := new ProbabilityEngine(Some(st.trumpSuit), st.deckSize, visible);
      var similar := FindSimilarKnowledge(st.ourHandSize);
      if action == Attack {
        var candidates := GetValidAttacks(hand, st.table);
        if |candidates| == 0 {
          return None;
        }
        r := AhaSelectAttack(prob, candidates, hand, st, similar);
      } else {
        var undefended := UndefendedAttack(st.table);
        if undefended.None? {
          return None;
        }
        var validDefenses := Filter(hand, BeatsAttack(undefended.value, st.trumpSuit));
        if |validDefenses| == 0 {
          return None;
        }
        r := AhaSelectDefense(validDefenses, undefended.value, st, similar);
      }
    }

    /** `shouldContinueAttack`: never past the defender's hand size, never
        while an attack is undefended, never without a legal card; then a
        coin for easy and medium and the probability engine's advice
        (knowing no trump and no visible card) for the rest. */
    method ShouldContinueAttack(hand: seq<Card>, table: seq<TableEntry>, deckSize: int, opponentHandSize: int)
      returns (b: bool)
      ensures |table| >= opponentHandSize ==> !b
      ensures !AllDefended(table) ==> !b
      ensures ValidAttackCards(hand, table) == [] ==> !b
      ensures difficulty != "easy" && difficulty != "medium" && |table| < opponentHandSize
              && AllDefended(table) && ValidAttackCards(hand, table) != [] ==>
                (|hand| <= 2 && opponentHandSize <= 2 ==> b)
                && (!(|hand| <= 2 && opponentHandSize <= 2) && deckSize <= 5 ==>
                      (b <==> |table| < MinInt(5, opponentHandSize)))
    {
      if |table| >= opponentHandSize {
        return false;
      }
      if !AllDefended(table) {
        return false;
      }
      var valid := GetValidAttacks(hand, table);
      if |valid| == 0 {
        return false;
      }
      var roll: real :| 0.0 <= roll < 1.0;
      if difficulty == "easy" {
        return roll > 0.6;
      }
      if difficulty == "medium" {
        return roll > 0.5;
      }
      b := ProbabilityAdvice(hand, table, deckSize, opponentHandSize);
    }

    /** `makeDecision`: the style named by the difficulty, medium for an
        unknown one. Whatever the style, the decision is legal. */
    method MakeDecision(hand: seq<Card>, st: GameState, action: Phase) returns (r: Option<Card>)
      ensures action == Attack ==> LegalAttack(hand, st.table, r)
      ensures action == Defend ==> LegalDefence(hand, st.table, st.trumpSuit, r)
    {
      var strategy := if difficulty in strategies then strategies[difficulty] else strategies["medium"];
      match strategy
      case Easy => r := EasyStrategy(hand, st, action);
      case Medium => r := MediumStrategy(hand, st, action);
      case Hard => r := HardStrategy(hand, st, action);
      case Aha => r := AhaStrategy(hand, st, action);
    }

    /** The style `makeDecision` uses for this engine's difficulty. */
    function ChosenStrategy(): (s: Strategy)
      ensures difficulty !in {"easy", "medium", "hard", "aha"} ==> s == Medium
      ensures difficulty == "easy" <==> s == Easy
      ensures difficulty == "hard" <==> s == Hard
      ensures difficulty == "aha" <==> s == Aha
    {
      if difficulty in strategies then strategies[difficulty] else strategies["medium"]
    }
  }

}
