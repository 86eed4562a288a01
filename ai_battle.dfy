/** The AI-against-AI battle page: two computer players (seat 0 plays the
    aha difficulty, seat 1 the hard one) move in turn; a round ends when
    the attacker stops or the defender takes; and after each game the
    tactics store learns from it. */
module AIBattle {
  import opened Seqs
  import opened Cards
  import opened Rules
  import opened Records
  import opened Rounds
  import opened EngineAI

  /** A battle between two computer players. */
  datatype BattleState = BattleState(
    hands: seq<seq<Card>>,
    deck: seq<Card>,
    trumpCard: Option<Card>,
    trumpSuit: Suit,
    table: seq<TableEntry>,
    attacker: nat,
    defender: nat,
    phase: Phase,
    moveCount: int)

  /** What `endRound` returns: the end of the game with its durak, or the
      state of the next round. */
  datatype RoundResult =
    | GameOver(durak: Option<nat>, finalHands: seq<seq<Card>>)
    | NextRound(state: BattleState)

  /** The cards a take moves from the table into a hand. */
  function Taken(s: BattleState, defenderTook: bool): multiset<Card>
  {
    if defenderTook then multiset(TableCards(s.table)) else multiset{}
  }

  /** The refill step of `endRound`: `refillHands` with the attacker
      first, run only while the deck holds cards. */
  function RefillIfDeck(hands: seq<seq<Card>>, deck: seq<Card>, attacker: nat): (r: (seq<seq<Card>>, seq<Card>))
    ensures |r.0| == |hands|
    ensures Pool(r.0, r.1) == Pool(hands, deck)
    ensures deck == [] ==> r == (hands, deck)
    ensures r.1 == [] || forall q :: 0 <= q < |r.0| ==> |r.0[q]| >= 6
  {
    RefillConserves(hands, deck, attacker, 0);
    RefillComplete(hands, deck, attacker);
    if |deck| > 0 then Refill(hands, deck, attacker) else (hands, deck)
  }

  /** The hands after the defender's choice: the table goes to the
      defender on a take, and to the discard pile otherwise. */
  function AfterTake(s: BattleState, defenderTook: bool): (held: seq<seq<Card>>)
    requires s.defender < |s.hands|
    ensures |held| == |s.hands|
    ensures HandsMultiset(held) == HandsMultiset(s.hands) + Taken(s, defenderTook)
  {
    if defenderTook then TakeTable(s.hands, s.defender, s.table) else s.hands
  }

  /** `endRound`: on a take the defender picks the table up; if the deck is
      not empty every hand is refilled, the attacker first; then the game
      is over when the deck is gone and at most one hand still holds cards.
      Otherwise the next round starts on an empty table, with the seats
      `NextRoles` gives. */
  function EndRound(s: BattleState, defenderTook: bool): (r: RoundResult)
    requires s.defender < |s.hands|
    ensures r.GameOver? ==> CheckGameOver(r.finalHands, true) == Over(r.durak)
    ensures r.GameOver? ==> HandsMultiset(r.finalHands) == Pool(s.hands, s.deck) + Taken(s, defenderTook)
    ensures r.NextRound? ==> Pool(r.state.hands, r.state.deck) == Pool(s.hands, s.deck) + Taken(s, defenderTook)
    ensures r.NextRound? ==>
              || r.state.deck != []
              || exists i, j :: 0 <= i < j < |r.state.hands| && r.state.hands[i] != [] && r.state.hands[j] != []
    ensures r.NextRound? ==> r.state.deck == [] || forall q :: 0 <= q < |r.state.hands| ==> |r.state.hands[q]| >= 6
    ensures s.deck == [] ==>
              if r.GameOver? then r.finalHands == AfterTake(s, defenderTook)
              else r.state.hands == AfterTake(s, defenderTook) && r.state.deck == []
    ensures r.NextRound? ==>
              && r.state.table == [] && r.state.phase == Attack && r.state.moveCount == s.moveCount + 1
              && r.state.trumpSuit == s.trumpSuit
              && r.state.trumpCard == (if r.state.deck == [] then None else s.trumpCard)
              && (r.state.attacker, r.state.defender) == NextRoles(s.attacker, s.defender, defenderTook)
  {
    var held := AfterTake(s, defenderTook);
    var refilled := RefillIfDeck(held, s.deck, s.attacker);
    MultisetSwap(HandsMultiset(s.hands), multiset(s.deck), Taken(s, defenderTook));
    assert Pool(refilled.0, refilled.1) == Pool(s.hands, s.deck) + Taken(s, defenderTook);
    var verdict := CheckGameOver(refilled.0, |refilled.1| == 0);
    if verdict.Over? then
      assert refilled.1 == [] && multiset(refilled.1) == multiset{};
      GameOver(verdict.durak, refilled.0)
    else
      var roles := NextRoles(s.attacker, s.defender, defenderTook);
      NextRound(BattleState(
        refilled.0, refilled.1,
        if |refilled.1| > 0 then s.trumpCard else None,
        s.trumpSuit, [], roles.0, roles.1, Attack, s.moveCount + 1))
  }

  /** The seats of the next round: after a beaten attack the defender
      attacks, after a take the attacker attacks again, and either way the
      next defender is the seat after the old defender. */
  function NextRoles(attacker: nat, defender: nat, defenderTook: bool): (roles: (nat, nat))
    ensures roles.1 < 2
    ensures !defenderTook && defender < 2 ==> roles.0 != roles.1
  {
    (if defenderTook then attacker else defender, (defender + 1) % 2)
  }

  /** After a beaten attack the two seats swap roles. */
  lemma BeatenAttackSwapsRoles(attacker: nat, defender: nat)
    requires attacker < 2 && defender == (attacker + 1) % 2
    ensures NextRoles(attacker, defender, false) == (defender, attacker)
  {
    if attacker == 0 {
      assert defender == 1;
    } else {
      assert defender == 0;
    }
  }

  /** After a take, the next defender is the seat after the old defender,
      which in a two-seat battle is the attacker itself: the next round has
      the same seat on both sides. */
  lemma TakeGivesAttackerBothRoles(attacker: nat, defender: nat)
    requires attacker < 2 && defender == (attacker + 1) % 2
    ensures NextRoles(attacker, defender, true) == (attacker, attacker)
  {
    if attacker == 0 {
      assert defender == 1;
    } else {
      assert defender == 0;
    }
  }

  // ----- single moves -----

  /** What `playAIMove` returns: the changed part of the state after a card
      was played, the outcome of the round it ended, or nothing. */
  datatype MoveResult =
    | Moved(hands: seq<seq<Card>>, table: seq<TableEntry>, phase: Phase, moveCount: int)
    | RoundOver(result: RoundResult)
    | NoMove

  /** The attacker plays `card`: it leaves the hand and goes on the table
      as a new undefended attack, and the defender is to move. */
  function AttackMove(s: BattleState, card: Card): (m: MoveResult)
    requires s.attacker < |s.hands|
    ensures m.Moved? && m.phase == Defend && m.moveCount == s.moveCount + 1
    ensures m.table == s.table + [TableEntry(card, None)]
    ensures |m.hands| == |s.hands| && forall i :: 0 <= i < |s.hands| && i != s.attacker ==> m.hands[i] == s.hands[i]
    ensures card !in m.hands[s.attacker]
    ensures forall c :: c != card ==> multiset(m.hands[s.attacker])[c] == multiset(s.hands[s.attacker])[c]
  {
    Moved(s.hands[s.attacker := RemoveCard(s.hands[s.attacker], card)],
          s.table + [TableEntry(card, None)], Defend, s.moveCount + 1)
  }

  /** The defender beats entry u with `card`: it leaves the hand, only that
      entry gains it as defence, and the attacker moves again once every
      entry is defended. */
  function DefenceMove(s: BattleState, u: nat, card: Card): (m: MoveResult)
    requires s.defender < |s.hands| && u < |s.table|
    ensures m.Moved? && m.moveCount == s.moveCount + 1
    ensures |m.table| == |s.table| && m.table[u] == TableEntry(s.table[u].attack, Some(card))
    ensures forall i :: 0 <= i < |s.table| && i != u ==> m.table[i] == s.table[i]
    ensures m.phase == Attack <==> forall i :: 0 <= i < |s.table| && i != u ==> s.table[i].defense.Some?
    ensures |m.hands| == |s.hands| && forall i :: 0 <= i < |s.hands| && i != s.defender ==> m.hands[i] == s.hands[i]
    ensures card !in m.hands[s.defender]
    ensures forall c :: c != card ==> multiset(m.hands[s.defender])[c] == multiset(s.hands[s.defender])[c]
  {
    var table := DefendEntry(s.table, u, card);
    Moved(s.hands[s.defender := RemoveCard(s.hands[s.defender], card)],
          table, if AllDefended(table) then Attack else Defend, s.moveCount + 1)
  }

  /** An attack keeps every card of the game in a hand or on the table. */
  lemma AttackMoveConserves(s: BattleState, card: Card)
    requires s.attacker < |s.hands| && multiset(s.hands[s.attacker])[card] == 1
    ensures var m := AttackMove(s, card);
      HandsMultiset(m.hands) + multiset(TableCards(m.table)) == HandsMultiset(s.hands) + multiset(TableCards(s.table))
  {
    TableCardsAttack(s.table, card);
    MoveToTable(s.hands, s.attacker, card, TableCards(s.table), TableCards(s.table + [TableEntry(card, None)]));
  }

  /** So does a defence, which also leaves every other entry as it was. */
  lemma DefenceMoveConserves(s: BattleState, u: nat, card: Card)
    requires s.defender < |s.hands| && u < |s.table| && s.table[u].defense.None?
    requires multiset(s.hands[s.defender])[card] == 1
    ensures var m := DefenceMove(s, u, card);
      && HandsMultiset(m.hands) + multiset(TableCards(m.table)) == HandsMultiset(s.hands) + multiset(TableCards(s.table))
      && |m.table| == |s.table|
      && forall i :: 0 <= i < |s.table| && i != u ==> m.table[i] == s.table[i]
  {
    var table := DefendEntry(s.table, u, card);
    MoveToTable(s.hands, s.defender, card, TableCards(s.table), TableCards(table));
  }

  /** `aiPlayer === 0 ? 'aha' : 'hard'`. */
  function SeatDifficulty(player: nat): (d: string)
    ensures d == "aha" <==> player == 0
    ensures d != "aha" ==> d == "hard"
  {
    if player == 0 then "aha" else "hard"
  }

  /** `playAIMove`: in the attack phase the attacker opens, or adds a card
      when it decides to continue, or else ends the round with the attack
      beaten; in the defence phase the defender beats the first undefended
      attack or takes. `weights` are the stored strategy weights and
      `oracleLoaded` says whether the strategy engine is registered. */
  method PlayAIMove(s: BattleState, weights: Option<Weights>, learnedData: Option<seq<Knowledge>>,
                    tactics: Option<seq<Tactic>>, oracleLoaded: bool)
    returns (r: MoveResult)
    requires s.attacker < |s.hands| && s.defender < |s.hands|
    ensures s.phase == Attack ==>
              || r == RoundOver(EndRound(s, false))
              || exists card :: card in ValidAttackCards(s.hands[s.attacker], s.table) && r == AttackMove(s, card)
    ensures s.phase == Attack && ValidAttackCards(s.hands[s.attacker], s.table) == [] ==> r == RoundOver(EndRound(s, false))
    ensures s.phase == Attack && s.table != [] && |s.table| - DefendedCount(s.table) >= |s.hands[s.defender]| ==>
              r == RoundOver(EndRound(s, false))
    ensures s.phase == Defend && AllDefended(s.table) ==> r == NoMove
    ensures s.phase == Defend && !AllDefended(s.table) ==>
              var u := FirstUndefended(s.table).value;
              || r == RoundOver(EndRound(s, true))
              || exists card :: card in s.hands[s.defender] && CanBeat(s.table[u].attack, card, s.trumpSuit)
                                && r == DefenceMove(s, u, card)
    ensures s.phase == Defend && !AllDefended(s.table)
              && ValidDefenseCards(s.hands[s.defender], s.table[FirstUndefended(s.table).value].attack, s.trumpSuit) == [] ==>
              r == RoundOver(EndRound(s, true))
  {
    if s.phase == Attack {
      var aiPlayer := s.attacker;
      var hand := s.hands[aiPlayer];
      var difficulty := SeatDifficulty(aiPlayer);
      var opponentHandSize := |s.hands[s.defender]|;
      if |s.table| == 0 {
        var attackCard := AiSelectAttack(hand, [], s.trumpSuit, difficulty, weights, learnedData,
                                         |s.deck|, opponentHandSize, tactics, oracleLoaded);
        if attackCard.Some? {
          return AttackMove(s, attackCard.value);
        }
        return RoundOver(EndRound(s, false));
      }
      var shouldContinue := AiShouldContinueAttack(hand, s.table, opponentHandSize, s.trumpSuit, difficulty,
                                                   weights, learnedData);
      if shouldContinue {
        var attackCard := AiSelectAttack(hand, s.table, s.trumpSuit, difficulty, weights, learnedData,
                                         |s.deck|, opponentHandSize, tactics, oracleLoaded);
        if attackCard.Some? {
          return AttackMove(s, attackCard.value);
        }
      }
      return RoundOver(EndRound(s, false));
    }
    var undefended := FirstUndefended(s.table);
    if undefended.None? {
      return NoMove;
    }
    var u := undefended.value;
    var aiPlayer := s.defender;
    var defenseCard := AiSelectDefense(s.hands[aiPlayer], s.table[u].attack, s.trumpSuit, SeatDifficulty(aiPlayer),
                                       weights, learnedData, |s.deck|, |s.hands[s.attacker]|, tactics, oracleLoaded);
    if defenseCard.Some? {
      return DefenceMove(s, u, defenseCard.value);
    }
    return RoundOver(EndRound(s, true));
  }

  // ----- learning tactics -----

  /** `calculateTacticSimilarity`: 0 unless both tactics have a scenario
      and an action, 1 for the same name, and otherwise 0.3 for the same
      phase, 0.3 for the same action type, 0.2 for hand sizes within one
      and 0.2 for deck sizes within five. */
  function TacticSimilarity(t1: Tactic, t2: Tactic): (sim: real)
    ensures 0.0 <= sim <= 1.0
    ensures t1.scenario.None? || t2.scenario.None? || t1.action.None? || t2.action.None? ==> sim == 0.0
    ensures t1.scenario.Some? && t2.scenario.Some? && t1.action.Some? && t2.action.Some? && t1.name == t2.name ==>
              sim == 1.0
  {
    if t1.scenario.None? || t2.scenario.None? || t1.action.None? || t2.action.None? then 0.0
    else if t1.name == t2.name then 1.0
    else
      var s1, s2 := t1.scenario.value, t2.scenario.value;
      var handDiff := Abs(s1.handSize - s2.handSize);
      var deckDiff := Abs(s1.deckRemaining - s2.deckRemaining);
      (if s1.phase == s2.phase then 0.3 else 0.0)
      + (if t1.action.value.kind == t2.action.value.kind then 0.3 else 0.0)
      + (if handDiff <= 1 then 0.2 else 0.0)
      + (if deckDiff <= 5 then 0.2 else 0.0)
  }

  /** The score does not depend on the order of the two tactics. */
  lemma SimilaritySymmetric(t1: Tactic, t2: Tactic)
    ensures TacticSimilarity(t1, t2) == TacticSimilarity(t2, t1)
  {
  }

  /** A stored tactic counts as similar to a new one (score above 0.7)
      exactly when both are complete and they share the name, or share
      the phase and the action type and are close in hand or deck size. */
  lemma SimilarExactly(t1: Tactic, t2: Tactic)
    ensures TacticSimilarity(t1, t2) > 0.7 <==>
              && t1.scenario.Some? && t2.scenario.Some? && t1.action.Some? && t2.action.Some?
              && (|| t1.name == t2.name
                  || (&& t1.scenario.value.phase == t2.scenario.value.phase
                      && t1.action.value.kind == t2.action.value.kind
                      && (|| Abs(t1.scenario.value.handSize - t2.scenario.value.handSize) <= 1
                          || Abs(t1.scenario.value.deckRemaining - t2.scenario.value.deckRemaining) <= 5)))
  {
  }

  const ConfidenceFloor: real := 0.01
  const ConfidenceCeiling: real := 0.99

  /** The update of a stored tactic found similar to one seen in a game:
      one more use, one more win if the game was won, the success rate
      recomputed as wins over uses, and the confidence moved up by 0.12 on
      a win or down by 0.08 on a loss, kept within [0.01, 0.99]. */
  function UpdateTactic(t: Tactic, wonGame: bool): (u: Tactic)
    requires t.timesUsed >= 0
    ensures u.name == t.name && u.scenario == t.scenario && u.action == t.action
    ensures u.timesUsed == t.timesUsed + 1
    ensures u.timesWon == t.timesWon + (if wonGame then 1 else 0)
    ensures u.successRate * (u.timesUsed as real) == u.timesWon as real
    ensures ConfidenceFloor <= u.confidence <= ConfidenceCeiling
    ensures var moved := t.confidence + (if wonGame then 0.12 else -0.08);
              u.confidence == if moved < ConfidenceFloor then ConfidenceFloor
                              else if moved > ConfidenceCeiling then ConfidenceCeiling
                              else moved
    ensures ConfidenceFloor <= t.confidence <= ConfidenceCeiling ==>
              if wonGame then u.confidence >= t.confidence else u.confidence <= t.confidence
  {
    var timesUsed := t.timesUsed + 1;
    var timesWon := t.timesWon + (if wonGame then 1 else 0);
    var change := if wonGame then 0.12 else -0.08;
    var confidence := MaxReal(ConfidenceFloor, MinReal(ConfidenceCeiling, t.confidence + change));
    Tactic(t.name, t.scenario, t.action, timesWon as real / timesUsed as real, confidence, timesUsed, timesWon)
  }

  /** A tactic whose wins never exceed its uses keeps a success rate
      between 0 and 1 through any number of updates. */
  lemma UpdateKeepsRateInRange(t: Tactic, wonGame: bool)
    requires 0 <= t.timesWon <= t.timesUsed
    ensures var u := UpdateTactic(t, wonGame);
      && 0 <= u.timesWon <= u.timesUsed
      && 0.0 <= u.successRate <= 1.0
  {
    var u := UpdateTactic(t, wonGame);
    assert u.successRate * (u.timesUsed as real) == u.timesWon as real;
  }
}
