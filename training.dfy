/** The training page: two computer players play game after game on a
    timer. Its `endRound` is its own two-seat variant of the round's end:
    it always refills, ends the game only when the deck ran out before
    this round (or there is no trump card left), and keeps the two roles
    on different seats. */
module Training {
  import opened Seqs
  import opened Cards
  import opened Rules
  import opened Rounds

  /** The state kept in `gameRef.current`. */
  datatype TrainingState = TrainingState(
    hands: seq<seq<Card>>,
    deck: seq<Card>,
    trumpCard: Option<Card>,
    trumpSuit: Suit,
    table: seq<TableEntry>,
    attacker: nat,
    defender: nat,
    phase: Phase)

  /** What `endRound` returns when there is a game to end a round of. */
  datatype TrainingResult =
    | GameOver(durak: Option<nat>, finalHands: seq<seq<Card>>)
    | NextRound(state: TrainingState)

  /** The cards a take moves from the table into a hand. */
  function Taken(s: TrainingState, defenderTook: bool): multiset<Card>
  {
    if defenderTook then multiset(TableCards(s.table)) else multiset{}
  }

  /** The seats of the next round: the seat after the defender attacks
      after a take, the defender attacks after a beaten attack, and the
      seat after the new attacker defends. */
  function TrainingRoles(defender: nat, defenderTook: bool): (roles: (nat, nat))
    ensures roles.1 < 2
    ensures defender < 2 ==> roles.0 < 2 && roles.0 != roles.1
  {
    var nextAttacker := if defenderTook then (defender + 1) % 2 else defender;
    (nextAttacker, (nextAttacker + 1) % 2)
  }

  /** With two seats, a take lets the attacker attack the same defender
      again, and a beaten attack swaps the roles. */
  lemma TrainingRolesTwoSeats(attacker: nat, defender: nat)
    requires attacker < 2 && defender == (attacker + 1) % 2
    ensures TrainingRoles(defender, true) == (attacker, defender)
    ensures TrainingRoles(defender, false) == (defender, attacker)
  {
    if attacker == 0 {
      assert defender == 1;
    } else {
      assert defender == 0;
    }
  }

  /** The hands after the defender's choice. */
  function AfterTake(s: TrainingState, defenderTook: bool): (held: seq<seq<Card>>)
    requires s.defender < |s.hands|
    ensures |held| == |s.hands|
    ensures HandsMultiset(held) == HandsMultiset(s.hands) + Taken(s, defenderTook)
  {
    if defenderTook then TakeTable(s.hands, s.defender, s.table) else s.hands
  }

  /** The round's end as `endRound` computes it: the defender picks the
      table up on a take; every hand is refilled, the attacker first; the
      game is over only when the deck is now empty and was already empty
      (or there is no trump card), with at most one hand holding cards. */
  function TrainingRound(s: TrainingState, defenderTook: bool): (r: TrainingResult)
    requires s.defender < |s.hands|
    ensures r.GameOver? ==> CheckGameOver(r.finalHands, true) == Over(r.durak)
    ensures r.GameOver? ==> s.deck == [] || s.trumpCard.None?
    ensures r.GameOver? ==> HandsMultiset(r.finalHands) == Pool(s.hands, s.deck) + Taken(s, defenderTook)
    ensures r.NextRound? ==> Pool(r.state.hands, r.state.deck) == Pool(s.hands, s.deck) + Taken(s, defenderTook)
    ensures r.NextRound? ==>
              || r.state.deck != []
              || (s.deck != [] && s.trumpCard.Some?)
              || exists i, j :: 0 <= i < j < |r.state.hands| && r.state.hands[i] != [] && r.state.hands[j] != []
    ensures r.NextRound? ==> r.state.deck == [] || forall q :: 0 <= q < |r.state.hands| ==> |r.state.hands[q]| >= 6
    ensures r.NextRound? ==>
              && r.state.table == [] && r.state.phase == Attack && r.state.trumpSuit == s.trumpSuit
              && r.state.trumpCard == (if r.state.deck == [] then None else s.trumpCard)
              && (r.state.attacker, r.state.defender) == TrainingRoles(s.defender, defenderTook)
  {
    var held := AfterTake(s, defenderTook);
    RefillConserves(held, s.deck, s.attacker, 0);
    RefillComplete(held, s.deck, s.attacker);
    var refilled := Refill(held, s.deck, s.attacker);
    MultisetSwap(HandsMultiset(s.hands), multiset(s.deck), Taken(s, defenderTook));
    assert Pool(refilled.0, refilled.1) == Pool(s.hands, s.deck) + Taken(s, defenderTook);
    var deckEmpty := |refilled.1| == 0 && (|s.deck| == 0 || s.trumpCard.None?);
    var verdict := CheckGameOver(refilled.0, deckEmpty);
    if verdict.Over? then
      assert refilled.1 == [] && multiset(refilled.1) == multiset{};
      GameOver(verdict.durak, refilled.0)
    else
      var roles := TrainingRoles(s.defender, defenderTook);
      NextRound(TrainingState(
        refilled.0, refilled.1,
        if |refilled.1| > 0 then s.trumpCard else None,
        s.trumpSuit, [], roles.0, roles.1, Attack))
  }

  /** `gameRef`: the game the training loop is playing, if any. */
  class TrainingLoop {
    var current: Option<TrainingState>

    constructor (initial: Option<TrainingState>)
      ensures current == initial
    {
      current := initial;
    }

    /** `endRound`: nothing without a game; otherwise the round's end, and
        a next round is also written back as the current game. */
    method EndRound(defenderTook: bool) returns (r: Option<TrainingResult>)
      requires current.Some? ==> current.value.defender < |current.value.hands|
      modifies this
      ensures old(current).None? ==> r.None? && current == old(current)
      ensures old(current).Some? ==> r == Some(TrainingRound(old(current).value, defenderTook))
      ensures r.Some? && r.value.NextRound? ==> current == Some(r.value.state)
      ensures r.Some? && r.value.GameOver? ==> current == old(current)
    {
      var state := current;
      if state.None? {
        return None;
      }
      var result := TrainingRound(state.value, defenderTook);
      if result.NextRound? {
        current := Some(result.state);
      }
      return Some(result);
    }
  }
}
