/** The game page where a person (seat 0) plays against one or more
    computer players. Its state lives in one object that the page's
    handlers update: the end of a round (with the skipping of seats whose
    hands are empty), a defence by the person, and the two buttons that
    end an attack or take the table. */
module GamePage {
  import opened Seqs
  import opened Cards
  import opened Rules
  import opened Rounds

  /** What one of the two `while` loops of `endRound` computes, from its
      k-th move on: from seat `start`, move round the table past seats
      with empty hands, but stop on reaching `stop` (checked after each
      move). It ends on a seat with cards or on `stop`; `stop` comes
      round within n moves, so the search terminates. */
  function SkipFrom(hands: seq<seq<Card>>, start: nat, stop: nat, k: nat): (seat: nat)
    requires start < |hands| && stop < |hands| && k < |hands|
    requires forall j :: 0 < j <= k ==> Seat(start, j, |hands|) != stop
    ensures seat < |hands|
    ensures hands[seat] != [] || seat == stop
    decreases |hands| - k
  {
    var n := |hands|;
    var seat := Seat(start, k, n);
    if hands[seat] != [] then seat
    else if Seat(start, k + 1, n) == stop then stop
    else
      SeatStopReached(start, stop, n);
      SkipFrom(hands, start, stop, k + 1)
  }

  /** The seat a search ends on is reached from its k-th move by moving
      past seats with empty hands only: it is the m-th seat, and the
      seats from the k-th to before the m-th have empty hands. */
  lemma {:induction false} SkipFromPassesEmpty(hands: seq<seq<Card>>, start: nat, stop: nat, k: nat) returns (m: nat)
    requires start < |hands| && stop < |hands| && k < |hands|
    requires forall j :: 0 < j <= k ==> Seat(start, j, |hands|) != stop
    ensures k <= m <= |hands| && SkipFrom(hands, start, stop, k) == Seat(start, m, |hands|)
    ensures forall j :: k <= j < m ==> hands[Seat(start, j, |hands|)] == []
    decreases |hands| - k
  {
    var n := |hands|;
    if hands[Seat(start, k, n)] != [] {
      m := k;
    } else if Seat(start, k + 1, n) == stop {
      SeatStopReached(start, stop, n);
      m := k + 1;
    } else {
      SeatStopReached(start, stop, n);
      m := SkipFromPassesEmpty(hands, start, stop, k + 1);
    }
  }

  /** One of the two `while` loops of `endRound`, proved to compute
      `SkipFrom` from the first move. */
  method SkipEmptySeats(hands: seq<seq<Card>>, start: nat, stop: nat) returns (seat: nat)
    requires start < |hands| && stop < |hands|
    ensures seat == SkipFrom(hands, start, stop, 0)
  {
    var n := |hands|;
    seat := start;
    ghost var moves := 0;
    SeatZero(start, n);
    while hands[seat] == []
      invariant moves < n && seat == Seat(start, moves, n)
      invariant forall j :: 0 < j <= moves ==> Seat(start, j, n) != stop
      invariant SkipFrom(hands, start, stop, moves) == SkipFrom(hands, start, stop, 0)
      decreases n - moves
    {
      SeatNext(start, moves, n);
      seat := (seat + 1) % n;
      if seat == stop {
        break;
      }
      SeatStopReached(start, stop, n);
      moves := moves + 1;
    }
  }

  lemma SeatZero(start: nat, n: nat)
    requires start < n
    ensures Seat(start, 0, n) == start
  {
    ModUnique(start, n, 0, start);
  }

  /** One more move round the table is one more seat: `(seat + 1) % n`. */
  lemma SeatNext(start: nat, k: nat, n: nat)
    requires n > 0
    ensures Seat(start, k + 1, n) == (Seat(start, k, n) + 1) % n
  {
    ModShift(start + k, 1, n);
  }

  /** Going n seats round the table from `start` passes every seat, so
      some move among the first n lands on `stop`. */
  lemma SeatStopReached(start: nat, stop: nat, n: nat)
    requires start < n && stop < n
    ensures exists j :: 0 < j <= n && Seat(start, j, n) == stop
  {
    if stop == start {
      ModUnique(start + n, n, 1, start);
      assert Seat(start, n, n) == stop;
    } else {
      var o := SeatOffset(start, stop, n);
      SeatZero(start, n);
      assert 0 < o && Seat(start, o, n) == stop;
    }
  }

  /** The seats a search from `start` passes over before `seat`, at most
      once round the table, all have empty hands. */
  ghost predicate ReachedPastEmpty(hands: seq<seq<Card>>, start: nat, seat: nat)
    requires |hands| > 0
  {
    exists k :: 0 <= k <= |hands| && seat == Seat(start, k, |hands|)
      && forall j :: 0 <= j < k ==> hands[Seat(start, j, |hands|)] == []
  }

  /** The state kept in `gameRef.current` (and shown as `gameState`). */
  datatype GameState = GameState(
    hands: seq<seq<Card>>,
    deck: seq<Card>,
    trumpCard: Option<Card>,
    trumpSuit: Suit,
    attacker: nat,
    defender: nat,
    table: seq<TableEntry>,
    phase: Phase,
    passers: seq<nat>)

  /** How `endRound` leaves the game: over, with its durak, or in a new
      round. */
  datatype RoundEnd =
    | Finished(durak: Option<nat>, state: GameState)
    | Continued(state: GameState)

  /** The cards a take moves from the table into a hand. */
  function Taken(s: GameState, defenderTook: bool): multiset<Card>
  {
    if defenderTook then multiset(TableCards(s.table)) else multiset{}
  }

  /** The seat the attacker search starts from: the defender after a
      beaten attack, the seat after it after a take. */
  function RotationStart(defender: nat, n: nat, defenderTook: bool): (s: nat)
    requires defender < n
    ensures s < n
    ensures defenderTook ==> s == Seat(defender, 1, n)
    ensures !defenderTook ==> s == defender
  {
    if defenderTook then (defender + 1) % n else defender
  }

  /** The round's end as `endRound` computes it: on a take the defender
      picks the table up; every hand is refilled, the attacker first. The
      game is over when the deck is now empty and the trump card was
      already gone at the start of the round, with at most one hand still
      holding cards; the hands and deck are kept and the table cleared.
      Otherwise the next round starts on an empty table with no passers:
      the attacker is found from the defender (after a beaten attack) or
      the seat after it (after a take), moving past seats with empty
      hands, and the defender from the seat after the new attacker. */
  function EndOfRound(s: GameState, defenderTook: bool): (r: RoundEnd)
    requires s.defender < |s.hands|
    ensures |r.state.hands| == |s.hands|
    ensures Pool(r.state.hands, r.state.deck) == Pool(s.hands, s.deck) + Taken(s, defenderTook)
    ensures r.state.deck == [] || forall q :: 0 <= q < |r.state.hands| ==> |r.state.hands[q]| >= 6
    ensures r.state.table == [] && r.state.trumpSuit == s.trumpSuit
    ensures r.Finished? ==>
              && r.state.deck == [] && s.trumpCard.None?
              && CheckGameOver(r.state.hands, true) == Over(r.durak)
              && r.state.attacker == s.attacker && r.state.defender == s.defender
              && r.state.phase == s.phase && r.state.passers == s.passers && r.state.trumpCard == s.trumpCard
    ensures r.Continued? ==>
              && (r.state.deck != [] || s.trumpCard.Some?
                  || exists i, j :: 0 <= i < j < |r.state.hands| && r.state.hands[i] != [] && r.state.hands[j] != [])
              && r.state.phase == Attack && r.state.passers == []
              && r.state.trumpCard == (if r.state.deck == [] then None else s.trumpCard)
              && r.state.attacker < |s.hands| && r.state.defender < |s.hands|
              && (r.state.hands[r.state.attacker] != [] || r.state.attacker == s.defender)
              && (r.state.hands[r.state.defender] != [] || r.state.defender == r.state.attacker)
  {
    var refilled := Refilled(s, defenderTook);
    var verdict := CheckGameOver(refilled.0, |refilled.1| == 0 && s.trumpCard.None?);
    if verdict.Over? then
      Finished(verdict.durak, s.(hands := refilled.0, deck := refilled.1, table := []))
    else
      Continued(NewRound(s, defenderTook, refilled.0, refilled.1))
  }

  /** The hands and deck after the take and the refill. */
  function Refilled(s: GameState, defenderTook: bool): (r: (seq<seq<Card>>, seq<Card>))
    requires s.defender < |s.hands|
    ensures |r.0| == |s.hands|
    ensures Pool(r.0, r.1) == Pool(s.hands, s.deck) + Taken(s, defenderTook)
    ensures r.1 == [] || forall q :: 0 <= q < |r.0| ==> |r.0[q]| >= 6
  {
    var held := if defenderTook then TakeTable(s.hands, s.defender, s.table) else s.hands;
    RefillConserves(held, s.deck, s.attacker, 0);
    RefillComplete(held, s.deck, s.attacker);
    var refilled := Refill(held, s.deck, s.attacker);
    MultisetSwap(HandsMultiset(s.hands), multiset(s.deck), Taken(s, defenderTook));
    assert Pool(refilled.0, refilled.1) == Pool(s.hands, s.deck) + Taken(s, defenderTook);
    refilled
  }

  /** The state of the next round, with the attacker and the defender
      found by the two searches on the refilled hands. */
  function NewRound(s: GameState, defenderTook: bool, hands: seq<seq<Card>>, deck: seq<Card>): GameState
    requires s.defender < |hands|
  {
    var n := |hands|;
    var attacker := SkipFrom(hands, RotationStart(s.defender, n, defenderTook), s.defender, 0);
    var defender := SkipFrom(hands, (attacker + 1) % n, attacker, 0);
    RoundState(s, hands, deck, attacker, defender)
  }

  /** The fields `endRound` sets for the next round. */
  function RoundState(s: GameState, hands: seq<seq<Card>>, deck: seq<Card>, attacker: nat, defender: nat): GameState
  {
    s.(hands := hands, deck := deck, trumpCard := if |deck| > 0 then s.trumpCard else None,
       table := [], attacker := attacker, defender := defender, phase := Attack, passers := [])
  }

  /** The two searches of `endRound` on the refilled hands: each moves
      past empty hands only, and the defender search lands back on the
      attacker only when there is one seat or every other hand is empty. */
  lemma NextSeats(hands: seq<seq<Card>>, start: nat, stop: nat, attacker: nat, defender: nat)
    requires start < |hands| && stop < |hands|
    requires attacker == SkipFrom(hands, start, stop, 0)
    requires defender == SkipFrom(hands, (attacker + 1) % |hands|, attacker, 0)
    ensures ReachedPastEmpty(hands, start, attacker)
    ensures ReachedPastEmpty(hands, (attacker + 1) % |hands|, defender)
    ensures defender == attacker ==> |hands| == 1 || forall q :: 0 <= q < |hands| && q != attacker ==> hands[q] == []
  {
    SkipFromReached(hands, start, stop, attacker);
    SkipFromReached(hands, (attacker + 1) % |hands|, attacker, defender);
    if defender == attacker {
      DefenderSearch(hands, attacker);
    }
  }

  /** The defender search starts after the attacker and stops at the
      attacker: it ends there only when there is one seat or no other
      seat holds cards. */
  lemma DefenderSearch(hands: seq<seq<Card>>, attacker: nat)
    requires attacker < |hands| && SkipFrom(hands, (attacker + 1) % |hands|, attacker, 0) == attacker
    ensures |hands| == 1 || forall q :: 0 <= q < |hands| && q != attacker ==> hands[q] == []
  {
    var n := |hands|;
    var from := (attacker + 1) % n;
    if n >= 2 {
      SkipFromReached(hands, from, attacker, attacker);
      var k :| 0 <= k <= n && attacker == Seat(from, k, n)
               && forall j :: 0 <= j < k ==> hands[Seat(from, j, n)] == [];
      DefenderDiffers(hands, attacker, from, k);
    }
  }

  /** A whole search, from its first move, ends on a seat it reaches by
      moving past seats with empty hands only. */
  lemma SkipFromReached(hands: seq<seq<Card>>, start: nat, stop: nat, seat: nat)
    requires start < |hands| && stop < |hands| && seat == SkipFrom(hands, start, stop, 0)
    ensures ReachedPastEmpty(hands, start, seat)
  {
    var m := SkipFromPassesEmpty(hands, start, stop, 0);
    assert 0 <= m <= |hands| && seat == Seat(start, m, |hands|);
  }

  /** The seats of the next round (the state `EndOfRound` continues
      with), as `NextSeats` describes them. */
  lemma NextRoundSeats(s: GameState, defenderTook: bool, hands: seq<seq<Card>>, deck: seq<Card>)
    requires s.defender < |hands|
    ensures var t := NewRound(s, defenderTook, hands, deck);
      && t.hands == hands && t.table == [] && t.phase == Attack && t.passers == []
      && ReachedPastEmpty(hands, RotationStart(s.defender, |hands|, defenderTook), t.attacker)
      && ReachedPastEmpty(hands, (t.attacker + 1) % |hands|, t.defender)
      && (t.defender == t.attacker ==> |hands| == 1 || forall q :: 0 <= q < |hands| && q != t.attacker ==> hands[q] == [])
  {
    var attacker := SkipFrom(hands, RotationStart(s.defender, |hands|, defenderTook), s.defender, 0);
    NextSeats(hands, RotationStart(s.defender, |hands|, defenderTook), s.defender,
              attacker, SkipFrom(hands, (attacker + 1) % |hands|, attacker, 0));
  }

  /** With two or more seats the search for a defender, which starts
      at the seat after the attacker, lands on the attacker only when no
      other seat holds cards. */
  lemma DefenderDiffers(hands: seq<seq<Card>>, attacker: nat, from: nat, k: nat)
    requires |hands| >= 2 && attacker < |hands| && from == (attacker + 1) % |hands|
    requires k <= |hands| && Seat(from, k, |hands|) == attacker
    requires forall j :: 0 <= j < k ==> hands[Seat(from, j, |hands|)] == []
    ensures forall q :: 0 <= q < |hands| && q != attacker ==> hands[q] == []
  {
    var n := |hands|;
    ModShift(attacker + 1, n - 1, n);
    ModUnique(attacker + n, n, 1, attacker);
    assert Seat(from, n - 1, n) == attacker;
    if k < n && k != n - 1 {
      SeatsDistinct(from, k, n - 1, n);
    }
    forall q | 0 <= q < n && q != attacker
      ensures hands[q] == []
    {
      var o := SeatOffset(from, q, n);
      assert o != n - 1;
    }
  }

  /** `handleDefend(pairIndex)` with `card` selected: nothing happens
      unless the person defends, the entry is not yet beaten and the card
      beats it; then the card leaves seat 0, only that entry gains it as
      defence, and the attacker moves again exactly when every entry is
      defended. A card held once moves from the hand to the table. */
  function Defended(s: GameState, pairIndex: nat, card: Card): (r: Option<GameState>)
    requires pairIndex < |s.table| && |s.hands| > 0
    ensures r.Some? <==> s.defender == 0 && s.table[pairIndex].defense.None?
                         && CanBeat(s.table[pairIndex].attack, card, s.trumpSuit)
    ensures r.Some? ==>
              && |r.value.hands| == |s.hands| && r.value.hands[0] == RemoveCard(s.hands[0], card)
              && (forall q :: 0 < q < |s.hands| ==> r.value.hands[q] == s.hands[q])
              && |r.value.table| == |s.table|
              && r.value.table[pairIndex] == TableEntry(s.table[pairIndex].attack, Some(card))
              && (forall i :: 0 <= i < |s.table| && i != pairIndex ==> r.value.table[i] == s.table[i])
              && (r.value.phase == Attack <==> forall i :: 0 <= i < |s.table| && i != pairIndex ==> s.table[i].defense.Some?)
              && r.value.deck == s.deck && r.value.trumpCard == s.trumpCard && r.value.trumpSuit == s.trumpSuit
              && r.value.attacker == s.attacker && r.value.defender == s.defender && r.value.passers == s.passers
    ensures r.Some? && multiset(s.hands[0])[card] == 1 ==>
              HandsMultiset(r.value.hands) + multiset(TableCards(r.value.table))
              == HandsMultiset(s.hands) + multiset(TableCards(s.table))
  {
    var pair := s.table[pairIndex];
    if s.defender != 0 || pair.defense.Some? || !CanBeat(pair.attack, card, s.trumpSuit) then None
    else
      var table := DefendEntry(s.table, pairIndex, card);
      var hands := s.hands[0 := RemoveCard(s.hands[0], card)];
      if multiset(s.hands[0])[card] == 1 then
        MoveToTable(s.hands, 0, card, TableCards(s.table), TableCards(table));
        Some(s.(hands := hands, table := table, phase := if AllDefended(table) then Attack else Defend))
      else
        Some(s.(hands := hands, table := table, phase := if AllDefended(table) then Attack else Defend))
  }

  /** `canEndAttack`: the person attacks, and the table holds attacks
      that are all beaten. */
  predicate CanEndAttack(s: GameState): (b: bool)
    ensures b <==> s.attacker == 0 && s.phase == Attack && 0 < DefendedCount(s.table) == |s.table|
  {
    s.attacker == 0 && s.phase == Attack && |s.table| > 0 && AllDefended(s.table)
  }

  /** `canTake`: the person defends, and some attack is not beaten yet. */
  predicate CanTake(s: GameState): (b: bool)
    ensures b <==> s.defender == 0 && s.phase == Defend && FirstUndefended(s.table).Some?
  {
    s.defender == 0 && s.phase == Defend && !AllDefended(s.table)
  }

  /** Ending the attack and taking the table are never offered together;
      taking is offered only when there is an attack to beat, and ending
      the attack only when every attack is beaten. */
  lemma ActionsExclusive(s: GameState)
    ensures !(CanEndAttack(s) && CanTake(s))
    ensures CanTake(s) ==> FirstUndefended(s.table).Some?
    ensures CanEndAttack(s) ==> FirstUndefended(s.table).None? && s.table != []
  {
  }

  /** The page: the game state, the card the person selected, and
      `gameOver`, set with its durak once the game has ended. */
  class Game {
    var state: GameState
    var selectedCard: Option<Card>
    var gameOver: Option<Option<nat>>

    constructor (initial: GameState)
      ensures state == initial && selectedCard.None? && gameOver.None?
    {
      state := initial;
      selectedCard := None;
      gameOver := None;
    }

    /** `handleDefend(pairIndex)`: with no card selected nothing happens;
        otherwise the state becomes the defence with that card, if it is
        allowed, and the selection is cleared. */
    method HandleDefend(pairIndex: nat)
      requires pairIndex < |state.table| && |state.hands| > 0
      modifies this
      ensures old(selectedCard).None? ==> unchanged(this)
      ensures old(selectedCard).Some? ==>
                var r := Defended(old(state), pairIndex, old(selectedCard).value);
                if r.None? then unchanged(this)
                else state == r.value && selectedCard.None? && gameOver == old(gameOver)
    {
      if selectedCard.None? {
        return;
      }
      var r := Defended(state, pairIndex, selectedCard.value);
      if r.Some? {
        state := r.value;
        selectedCard := None;
      }
    }

    /** `endRound`: the state becomes the round's end; a finished game
        records its durak, and a new round clears the selection. */
    method EndRound(defenderTook: bool)
      requires state.defender < |state.hands|
      modifies this
      ensures var r := EndOfRound(old(state), defenderTook);
        && state == r.state
        && (r.Finished? ==> gameOver == Some(r.durak) && selectedCard == old(selectedCard))
        && (r.Continued? ==> gameOver == old(gameOver) && selectedCard.None?)
    {
      var s := state;
      var held := if defenderTook then TakeTable(s.hands, s.defender, s.table) else s.hands;
      var refilledHands, remainingDeck := RefillHands(held, s.deck, s.attacker);
      assert (refilledHands, remainingDeck) == Refilled(s, defenderTook);
      var verdict := CheckGameOver(refilledHands, |remainingDeck| == 0 && s.trumpCard.None?);
      if verdict.Over? {
        gameOver := Some(verdict.durak);
        state := s.(hands := refilledHands, deck := remainingDeck, table := []);
        return;
      }
      StartNextRound(s, defenderTook, refilledHands, remainingDeck);
    }

    /** The rest of `endRound` when the game goes on: the attacker and
        defender searches, the new round's state, and the selection
        cleared. */
    method StartNextRound(s: GameState, defenderTook: bool, hands: seq<seq<Card>>, deck: seq<Card>)
      requires s.defender < |hands|
      modifies this
      ensures state == NewRound(s, defenderTook, hands, deck)
      ensures selectedCard.None? && gameOver == old(gameOver)
    {
      var n := |hands|;
      var nextAttacker := SkipEmptySeats(hands, RotationStart(s.defender, n, defenderTook), s.defender);
      var nextDefender := SkipEmptySeats(hands, (nextAttacker + 1) % n, nextAttacker);
      state := s.(hands := hands, deck := deck, trumpCard := if |deck| > 0 then s.trumpCard else None,
                  table := [], attacker := nextAttacker, defender := nextDefender, phase := Attack, passers := []);
      assert state == RoundState(s, hands, deck, nextAttacker, nextDefender);
      selectedCard := None;
    }
  }
}
