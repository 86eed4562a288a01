/** The built-in computer player of the game engine: `aiSelectAttack`,
    `aiSelectDefense` and `aiShouldContinueAttack`. Each first tries the
    learned tactics (aha difficulty only), then the strategy engine when it
    is loaded, then a choice by difficulty over the legal cards sorted by
    `evaluateCard`. Whatever path is taken, the answer is legal. */
module EngineAI {
  import opened Seqs
  import opened Cards
  import opened Rules
  import opened Records
  import opened AIStrategy

  // ----- sort keys and tests -----

  /** `(a, b) => a.rank - b.rank`. */
  function RankKey(): Card -> real
  {
    (c: Card) => c.rank as real
  }

  /** `(a, b) => b.rank - a.rank`. */
  function DescendingRankKey(): Card -> real
  {
    (c: Card) => -(c.rank as real)
  }

  /** `(a, b) => evaluateCard(a, ...) - evaluateCard(b, ...)`. */
  function ValueKey(trump: Suit, hand: seq<Card>, weights: Option<Weights>): Card -> real
  {
    (c: Card) => EvaluateCard(c, trump, hand, weights)
  }

  /** How much a tactic is trusted: its success rate times its confidence. */
  function Score(t: Tactic): real
  {
    t.successRate * t.confidence
  }

  /** `(a, b) => (b.success_rate * b.confidence) - (a.success_rate * a.confidence)`. */
  function TacticKey(): Tactic -> real
  {
    (t: Tactic) => -Score(t)
  }

  /** The card's rank occurs more than once among `cards`. */
  function Repeated(cards: seq<Card>): Card -> bool
  {
    (c: Card) => SameRankCount(cards, c.rank) > 1
  }

  /** `c.rank <= bound`. */
  function RankAtMost(bound: int): Card -> bool
  {
    (c: Card) => c.rank <= bound
  }

  /** `c.suit === trumpSuit && c.rank >= 11`. */
  function HighTrump(trump: Suit): Card -> bool
  {
    (c: Card) => c.suit == trump && c.rank >= 11
  }

  /** `c.suit === trumpSuit`. */
  function IsTrump(trump: Suit): Card -> bool
  {
    (c: Card) => c.suit == trump
  }

  // ----- picking from a list -----

  /** The first card after sorting by rank: the lowest rank, the earliest
      such card on a tie. */
  function LowestRank(cards: seq<Card>): (r: Option<Card>)
    ensures r.None? <==> cards == []
    ensures r.Some? ==> r.value in cards && forall c :: c in cards ==> r.value.rank <= c.rank
  {
    if cards == [] then None
    else
      SortedHeadLeast(cards, RankKey());
      Some(SortBy(cards, RankKey())[0])
  }

  /** The first card after sorting by descending rank: the highest rank. */
  function HighestRank(cards: seq<Card>): (r: Option<Card>)
    ensures r.None? <==> cards == []
    ensures r.Some? ==> r.value in cards && forall c :: c in cards ==> c.rank <= r.value.rank
  {
    if cards == [] then None
    else
      SortedHeadLeast(cards, DescendingRankKey());
      Some(SortBy(cards, DescendingRankKey())[0])
  }

  /** The first card after sorting by `evaluateCard`: the cheapest to give up. */
  function LeastValue(cards: seq<Card>, trump: Suit, hand: seq<Card>, weights: Option<Weights>): (r: Option<Card>)
    ensures r.None? <==> cards == []
    ensures r.Some? ==> r.value in cards
    ensures r.Some? ==> forall c :: c in cards ==>
              EvaluateCard(r.value, trump, hand, weights) <= EvaluateCard(c, trump, hand, weights)
  {
    if cards == [] then None
    else
      SortedHeadLeast(cards, ValueKey(trump, hand, weights));
      Some(SortBy(cards, ValueKey(trump, hand, weights))[0])
  }

  // ----- learned tactics -----

  /** The filter on tactics: one recorded for this phase, with a hand size
      within 2 and a deck size within 10 of ours, that won more than half
      of the time. */
  function Applicable(phase: string, handSize: int, deckSize: int): Tactic -> bool
  {
    (t: Tactic) =>
      && t.scenario.Some? && t.scenario.value.phase == phase
      && Abs(t.scenario.value.handSize - handSize) <= 2
      && Abs(t.scenario.value.deckRemaining - deckSize) <= 10
      && t.successRate > 0.5
  }

  /** The applicable tactics, best (success rate times confidence) first. */
  function ApplicableTactics(tactics: seq<Tactic>, phase: string, handSize: int, deckSize: int): (r: seq<Tactic>)
    ensures forall t :: t in r <==> t in tactics && Applicable(phase, handSize, deckSize)(t)
    ensures r != [] ==> forall t :: t in tactics && Applicable(phase, handSize, deckSize)(t) ==>
              Score(t) <= Score(r[0])
  {
    var applicable := Filter(tactics, Applicable(phase, handSize, deckSize));
    SortedMembers(applicable, TacticKey());
    assert applicable != [] ==> forall t :: t in applicable ==> TacticKey()(SortBy(applicable, TacticKey())[0]) <= TacticKey()(t) by {
      if applicable != [] { SortedHeadLeast(applicable, TacticKey()); }
    }
    SortBy(applicable, TacticKey())
  }

  /** The best tactic to follow, when the difficulty is aha and some tactic
      applies. */
  function BestTactic(difficulty: string, tactics: Option<seq<Tactic>>, phase: string, handSize: int, deckSize: int)
    : (r: Option<Tactic>)
    ensures r.Some? ==> difficulty == "aha" && tactics.Some? && r.value in tactics.value
    ensures r.Some? ==> Applicable(phase, handSize, deckSize)(r.value)
    ensures r.Some? ==> forall t :: t in tactics.value && Applicable(phase, handSize, deckSize)(t) ==>
              Score(t) <= Score(r.value)
    ensures difficulty == "aha" && tactics.Some? ==>
              (r.Some? <==> exists t :: t in tactics.value && Applicable(phase, handSize, deckSize)(t))
  {
    if difficulty == "aha" && tactics.Some? && |tactics.value| > 0 then
      var applicable := ApplicableTactics(tactics.value, phase, handSize, deckSize);
      if |applicable| > 0 then
        assert applicable[0] in applicable;
        Some(applicable[0])
      else None
    else None
  }

  /** What the best tactic makes the attacker play, if anything: its card
      preference first (lowest card of rank at most 8, highest trump of rank
      11 or more, or the first card whose rank is repeated), then its
      aggression level (highest rank above 0.7, lowest below 0.4). */
  function TacticAttack(valid: seq<Card>, trump: Suit, action: Option<TacticAction>): (r: Option<Card>)
    ensures r.Some? ==> r.value in valid
    ensures action.None? ==> r.None?
    ensures action.Some? && action.value.cardPreference == "low_cards" && (exists c :: c in valid && c.rank <= 8) ==>
              r.Some? && r.value.rank <= 8 && forall c :: c in valid && c.rank <= 8 ==> r.value.rank <= c.rank
    ensures action.Some? && action.value.cardPreference == "high_trumps" && (exists c :: c in valid && HighTrump(trump)(c)) ==>
              r.Some? && HighTrump(trump)(r.value) && forall c :: c in valid && HighTrump(trump)(c) ==> c.rank <= r.value.rank
  {
    if action.None? then None
    else
      var a := action.value;
      var preferred :=
        if a.cardPreference == "low_cards" then LowestRank(Filter(valid, RankAtMost(8)))
        else if a.cardPreference == "high_trumps" then HighestRank(Filter(valid, HighTrump(trump)))
        else if a.cardPreference == "duplicates" then Find(valid, Repeated(valid))
        else None;
      if preferred.Some? then preferred
      else if a.aggressionLevel.Some? && a.aggressionLevel.value > 0.7 then HighestRank(valid)
      else if a.aggressionLevel.Some? && a.aggressionLevel.value < 0.4 then LowestRank(valid)
      else None
  }

  /** What the best tactic makes the defender do: `None` to fall through to
      the other rules, `Some(None)` to take, `Some(Some(c))` to beat with c.
      A desperate defence plays the cheapest card, a conservative one the
      lowest card of rank at most 10 (or takes), and a trump finish on an
      empty deck the lowest trump. */
  function TacticDefence(valid: seq<Card>, trump: Suit, hand: seq<Card>, weights: Option<Weights>,
                         deckSize: int, action: Option<TacticAction>): (r: Option<Option<Card>>)
    requires valid != []
    ensures r.Some? && r.value.Some? ==> r.value.value in valid
    ensures action.None? ==> r.None?
    ensures action.Some? && action.value.kind == "desperate_defense" ==>
              r.Some? && r.value.Some? && forall c :: c in valid ==>
                EvaluateCard(r.value.value, trump, hand, weights) <= EvaluateCard(c, trump, hand, weights)
    ensures action.Some? && action.value.kind == "conservative" ==>
              r.Some? && (r.value.None? <==> forall c :: c in valid ==> c.rank > 10)
    ensures r == Some(None) ==> action.Some? && action.value.kind == "conservative"
  {
    if action.None? then None
    else
      var kind := action.value.kind;
      if kind == "desperate_defense" then
        Some(LeastValue(valid, trump, hand, weights))
      else if kind == "conservative" then
        Some(LowestRank(Filter(valid, RankAtMost(10))))
      else if kind == "trump_finish" && deckSize == 0 then
        var trumps := LowestRank(Filter(valid, IsTrump(trump)));
        if trumps.Some? then Some(trumps) else None
      else None
  }

  // ----- aiSelectAttack -----

  /** The ranks of the recorded moves with a card and a reward above 0.4. */
  function LearnedRanks(data: seq<Knowledge>): (ranks: set<int>)
    ensures forall d :: d in data && d.cardPlayed.Some? && d.reward > 0.4 ==> d.cardPlayed.value.rank in ranks
    ensures forall x :: x in ranks ==>
              exists d :: d in data && d.cardPlayed.Some? && d.reward > 0.4 && d.cardPlayed.value.rank == x
  {
    set d | d in data && d.cardPlayed.Some? && d.reward > 0.4 :: d.cardPlayed.value.rank
  }

  /** `c => learnedRanks.includes(c.rank)`. */
  function RankIn(ranks: set<int>): Card -> bool
  {
    (c: Card) => c.rank in ranks
  }

  /** The defaults of `aiSelectAttack`'s aha branch. */
  const AhaAttackWeights := Weights(1.5, 1.3, 12.0)

  /** The choice by difficulty once tactics and the strategy engine have not
      decided: among the legal cards sorted by value, easy picks any, medium
      one of the cheaper half, aha a learned rank or a repeated rank or one
      of the two cheapest, and every other difficulty a repeated rank or the
      cheapest card. */
  method AttackByDifficulty(valid: seq<Card>, hand: seq<Card>, trump: Suit, difficulty: string,
                            strategyWeights: Option<Weights>, learnedData: Option<seq<Knowledge>>)
    returns (r: Card)
    requires valid != []
    ensures r in valid
    ensures difficulty !in {"easy", "medium", "aha"} ==>
              || Repeated(valid)(r)
              || forall c :: c in valid ==>
                   EvaluateCard(r, trump, hand, strategyWeights) <= EvaluateCard(c, trump, hand, strategyWeights)
  {
    var sorted := SortBy(valid, ValueKey(trump, hand, strategyWeights));
    SortedHeadLeast(valid, ValueKey(trump, hand, strategyWeights));
    if difficulty == "easy" {
      var k :| 0 <= k < |sorted|;
      SortedIn(valid, ValueKey(trump, hand, strategyWeights), k);
      return sorted[k];
    } else if difficulty == "medium" {
      var topHalf := sorted[..(|sorted| + 1) / 2];
      var k :| 0 <= k < |topHalf|;
      SortedIn(valid, ValueKey(trump, hand, strategyWeights), k);
      return topHalf[k];
    } else if difficulty == "aha" {
      r := AhaAttack(valid, hand, trump, strategyWeights, learnedData);
    } else {
      var multiAttack := Filter(valid, Repeated(valid));
      var roll: real :| 0.0 <= roll < 1.0;
      if |multiAttack| > 0 && roll > 0.3 {
        var best := LeastValue(multiAttack, trump, hand, strategyWeights);
        return best.value;
      }
      return sorted[0];
    }
  }

  /** The aha branch of `aiSelectAttack`: a card of a rank that earned a
      reward before, or a card whose rank is repeated (more often the more
      aggressive the weights), or with a big hand the cheapest card, or else
      one of the two cheapest. */
  method AhaAttack(valid: seq<Card>, hand: seq<Card>, trump: Suit,
                   strategyWeights: Option<Weights>, learnedData: Option<seq<Knowledge>>)
    returns (r: Card)
    requires valid != []
    ensures r in valid
  {
    var weights := if strategyWeights.Some? then strategyWeights.value else AhaAttackWeights;
    if learnedData.Some? && |learnedData.value| > 0 {
      var learnedCard := Find(valid, RankIn(LearnedRanks(learnedData.value)));
      var roll: real :| 0.0 <= roll < 1.0;
      if learnedCard.Some? && roll > 0.3 {
        return learnedCard.value;
      }
    }
    var multiAttack := Filter(valid, Repeated(valid));
    var roll: real :| 0.0 <= roll < 1.0;
    if |multiAttack| > 0 && weights.aggressiveFactor != 0.0 && roll > 0.2 / weights.aggressiveFactor {
      var best := LeastValue(multiAttack, trump, hand, Some(weights));
      return best.value;
    }
    var key := ValueKey(trump, hand, strategyWeights);
    if |hand| > 8 {
      SortedHeadIn(valid, key);
      return SortBy(valid, key)[0];
    }
    var k :| 0 <= k < |valid| && k < 2;
    SortedIn(valid, key, k);
    return SortBy(valid, key)[k];
  }

  /** `aiSelectAttack`: none exactly when no card may be played, otherwise a
      legal attack card. `oracleLoaded` says whether the strategy engine is
      registered on the page. */
  method AiSelectAttack(hand: seq<Card>, table: seq<TableEntry>, trump: Suit, difficulty: string,
                        strategyWeights: Option<Weights>, learnedData: Option<seq<Knowledge>>,
                        deckSize: int, opponentHandSize: nat, tactics: Option<seq<Tactic>>, oracleLoaded: bool)
    returns (r: Option<Card>)
    ensures r.None? <==> ValidAttackCards(hand, table) == []
    ensures r.Some? ==> r.value in ValidAttackCards(hand, table)
    ensures BestTactic(difficulty, tactics, "attack", |hand|, deckSize).None? && !oracleLoaded
              && difficulty !in {"easy", "medium", "aha"} && r.Some?
              && (forall c :: c in ValidAttackCards(hand, table) ==> !Repeated(ValidAttackCards(hand, table))(c)) ==>
                forall c :: c in ValidAttackCards(hand, table) ==>
                  EvaluateCard(r.value, trump, hand, strategyWeights) <= EvaluateCard(c, trump, hand, strategyWeights)
  {
    var validCards := ValidAttackCards(hand, table);
    if |validCards| == 0 {
      return None;
    }
    var best := BestTactic(difficulty, tactics, "attack", |hand|, deckSize);
    if best.Some? {
      var choice := TacticAttack(validCards, trump, best.value.action);
      if choice.Some? {
        return choice;
      }
    }
    if oracleLoaded {
      var ai := new AIStrategyEngine(difficulty, learnedData);
      var decision := ai.MakeDecision(hand, GameState(trump, table, deckSize, opponentHandSize, |hand|), Attack);
      if decision.Some? {
        return decision;
      }
    }
    var card := AttackByDifficulty(validCards, hand, trump, difficulty, strategyWeights, learnedData);
    return Some(card);
  }

  // ----- aiSelectDefense -----

  /** The hand sizes of the recorded moves, summed. */
  function SumHandSizes(data: seq<Knowledge>): int
  {
    if data == [] then 0 else data[0].handSize + SumHandSizes(data[1..])
  }

  /** The records of successful defences: a card played and a reward above 0.5. */
  function SuccessfulDefence(): Knowledge -> bool
  {
    (d: Knowledge) => d.reward > 0.5 && d.cardPlayed.Some?
  }

  /** Their average hand size, 4 when there are none. */
  function AverageHandSize(data: seq<Knowledge>): (avg: real)
    ensures Filter(data, SuccessfulDefence()) == [] ==> avg == 4.0
  {
    var successful := Filter(data, SuccessfulDefence());
    if |successful| > 0 then SumHandSizes(successful) as real / |successful| as real else 4.0
  }

  /** The choice by difficulty once tactics and the strategy engine have not
      decided: easy sometimes takes and otherwise beats with any legal card,
      medium sometimes takes and otherwise beats with the cheapest, aha
      beats with the cheapest unless it is worth much more than the attack
      and a roll says take, and every other difficulty beats with the
      cheapest unless it is worth more than 15 above the attack while the
      hand holds more than four cards. */
  method DefendByDifficulty(valid: seq<Card>, attackCard: Card, hand: seq<Card>, trump: Suit, difficulty: string,
                            strategyWeights: Option<Weights>, learnedData: Option<seq<Knowledge>>)
    returns (r: Option<Card>)
    requires valid != []
    ensures r.Some? ==> r.value in valid
    ensures difficulty in {"medium", "aha"} && r.Some? ==>
              forall c :: c in valid ==>
                EvaluateCard(r.value, trump, hand, strategyWeights) <= EvaluateCard(c, trump, hand, strategyWeights)
    ensures difficulty !in {"easy", "medium", "aha"} ==>
              var lowest := LeastValue(valid, trump, hand, strategyWeights).value;
              r == if EvaluateCard(lowest, trump, hand, strategyWeights)
                        > EvaluateCard(attackCard, trump, [], strategyWeights) + 15.0 && |hand| > 4
                   then None else Some(lowest)
  {
    var sorted := SortBy(valid, ValueKey(trump, hand, strategyWeights));
    SortedHeadLeast(valid, ValueKey(trump, hand, strategyWeights));
    if difficulty == "easy" {
      var roll: real :| 0.0 <= roll < 1.0;
      if roll < 0.2 {
        return None;
      }
      var k :| 0 <= k < |sorted|;
      SortedIn(valid, ValueKey(trump, hand, strategyWeights), k);
      return Some(sorted[k]);
    } else if difficulty == "medium" {
      var roll: real :| 0.0 <= roll < 1.0;
      if roll < 0.1 {
        return None;
      }
      return Some(sorted[0]);
    } else if difficulty == "aha" {
      var lowestDefense := sorted[0];
      var attackValue := EvaluateCard(attackCard, trump, [], strategyWeights);
      var defenseValue := EvaluateCard(lowestDefense, trump, hand, strategyWeights);
      var threshold := if strategyWeights.Some? then strategyWeights.value.cardValueThreshold else 12.0;
      if learnedData.Some? && |learnedData.value| > 0 {
        var avgHandSize := AverageHandSize(learnedData.value);
        if (|hand| as real) < avgHandSize - 1.0 && defenseValue > attackValue + 10.0 {
          var roll: real :| 0.0 <= roll < 1.0;
          if roll < 0.2 {
            return None;
          }
        }
      }
      if defenseValue > attackValue + threshold && |hand| > 3 {
        var roll: real :| 0.0 <= roll < 1.0;
        if roll < 0.15 {
          return None;
        }
      }
      return Some(lowestDefense);
    } else {
      var lowestDefense := sorted[0];
      var attackValue := EvaluateCard(attackCard, trump, [], strategyWeights);
      var defenseValue := EvaluateCard(lowestDefense, trump, hand, strategyWeights);
      if defenseValue > attackValue + 15.0 && |hand| > 4 {
        return None;
      }
      return Some(lowestDefense);
    }
  }

  /** `aiSelectDefense`: none (take) or a hand card that beats the attack;
      always none when no card beats it. */
  method AiSelectDefense(hand: seq<Card>, attackCard: Card, trump: Suit, difficulty: string,
                         strategyWeights: Option<Weights>, learnedData: Option<seq<Knowledge>>,
                         deckSize: int, opponentHandSize: nat, tactics: Option<seq<Tactic>>, oracleLoaded: bool)
    returns (r: Option<Card>)
    ensures r.Some? ==> r.value in hand && Rules.CanBeat(attackCard, r.value, trump)
    ensures ValidDefenseCards(hand, attackCard, trump) == [] ==> r.None?
    ensures BestTactic(difficulty, tactics, "defend", |hand|, deckSize).None? && !oracleLoaded
              && difficulty in {"medium", "aha"} && r.Some? ==>
                forall c :: c in ValidDefenseCards(hand, attackCard, trump) ==>
                  EvaluateCard(r.value, trump, hand, strategyWeights) <= EvaluateCard(c, trump, hand, strategyWeights)
  {
    var validCards := ValidDefenseCards(hand, attackCard, trump);
    var best := BestTactic(difficulty, tactics, "defend", |hand|, deckSize);
    if best.Some? && |validCards| > 0 {
      var choice := TacticDefence(validCards, trump, hand, strategyWeights, deckSize, best.value.action);
      if choice.Some? {
        return choice.value;
      }
    }
    if |validCards| == 0 {
      return None;
    }
    if oracleLoaded {
      var ai := new AIStrategyEngine(difficulty, learnedData);
      var table := [TableEntry(attackCard, None)];
      var decision := ai.MakeDecision(hand, GameState(trump, table, deckSize, opponentHandSize, |hand|), Defend);
      if decision.Some? {
        assert UndefendedAttack(table) == Some(attackCard);
        return decision;
      }
    }
    r := DefendByDifficulty(validCards, attackCard, hand, trump, difficulty, strategyWeights, learnedData);
  }

  // ----- aiShouldContinueAttack -----

  /** The defaults of `aiShouldContinueAttack`'s aha branch. They carry no
      trump conservation factor, so a trump's value there is not a number
      and never counts as low. */
  const AhaContinueWeights := Weights(1.5, 0.0, 12.0)

  /** A card counts as low-valued in the aha branch. */
  function AhaLowValue(trump: Suit, hand: seq<Card>, strategyWeights: Option<Weights>): Card -> bool
  {
    (c: Card) =>
      if strategyWeights.Some? then
        EvaluateCard(c, trump, hand, strategyWeights) < strategyWeights.value.cardValueThreshold
      else
        c.suit != trump && EvaluateCard(c, trump, hand, Some(AhaContinueWeights)) < 12.0
  }

  /** `c => evaluateCard(c, ...) < bound`. */
  function ValueBelow(trump: Suit, hand: seq<Card>, weights: Option<Weights>, bound: real): Card -> bool
  {
    (c: Card) => EvaluateCard(c, trump, hand, weights) < bound
  }

  /** The recorded follow-up attacks that went well. */
  function GoodFollowUp(): Knowledge -> bool
  {
    (d: Knowledge) => d.moveNumber > 1 && d.reward > 0.3
  }

  /** `aiShouldContinueAttack`: never with no legal card or when the
      undefended attacks already match the defender's hand; otherwise a
      roll, which medium, aha and the other difficulties only make when
      some legal card is cheap enough. */
  method AiShouldContinueAttack(hand: seq<Card>, table: seq<TableEntry>, defenderHandSize: int, trump: Suit,
                                difficulty: string, strategyWeights: Option<Weights>, learnedData: Option<seq<Knowledge>>)
    returns (b: bool)
    ensures b ==> ValidAttackCards(hand, table) != [] && |table| - DefendedCount(table) < defenderHandSize
    ensures b && difficulty == "medium" ==>
              exists c :: c in ValidAttackCards(hand, table) && EvaluateCard(c, trump, hand, strategyWeights) < 15.0
    ensures b && difficulty == "aha" ==>
              exists c :: c in ValidAttackCards(hand, table) && AhaLowValue(trump, hand, strategyWeights)(c)
    ensures b && difficulty !in {"easy", "medium", "aha"} ==>
              exists c :: c in ValidAttackCards(hand, table) && EvaluateCard(c, trump, hand, strategyWeights) < 12.0
  {
    var validCards := ValidAttackCards(hand, table);
    if |validCards| == 0 {
      return false;
    }
    var undefendedCount := |table| - DefendedCount(table);
    if undefendedCount >= defenderHandSize {
      return false;
    }
    var roll: real :| 0.0 <= roll < 1.0;
    if difficulty == "easy" {
      b := roll < 0.3;
    } else if difficulty == "medium" {
      var cheap := Find(validCards, ValueBelow(trump, hand, strategyWeights, 15.0));
      b := roll < 0.5 && cheap.Some?;
    } else if difficulty == "aha" {
      var aggressiveFactor := if strategyWeights.Some? then strategyWeights.value.aggressiveFactor else 1.5;
      var lowValueCards := Filter(validCards, AhaLowValue(trump, hand, strategyWeights));
      if lowValueCards != [] {
        assert lowValueCards[0] in lowValueCards;
      }
      if learnedData.Some? && |learnedData.value| > 0 && Count(learnedData.value, GoodFollowUp()) > 5 {
        return |lowValueCards| > 0 && roll < 0.85 * aggressiveFactor;
      }
      b := |lowValueCards| > 0 && roll < 0.75 * aggressiveFactor;
    } else {
      var lowValueCards := Filter(validCards, ValueBelow(trump, hand, strategyWeights, 12.0));
      if lowValueCards != [] {
        assert lowValueCards[0] in lowValueCards;
      }
      b := |lowValueCards| > 0 && roll < 0.7;
    }
  }

  /** Without weights of its own, the aha branch of `aiShouldContinueAttack`
      never counts a trump as low-valued. */
  lemma AhaDefaultSkipsTrumps(c: Card, trump: Suit, hand: seq<Card>)
    requires c.suit == trump
    ensures !AhaLowValue(trump, hand, None)(c)
  {
  }
}
