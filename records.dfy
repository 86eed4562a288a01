/** The records the AI reads from its store: one `AIKnowledge` entry per
    recorded decision, and the `AHATactic` entries learnt from whole games.
    Fields the source reads with a default (`|| 0`) hold that default here. */
module Records {
  import opened Seqs
  import opened Cards

  /** An `AIKnowledge` record: what was decided, with which card, and how it went. */
  datatype Knowledge = Knowledge(
    decisionType: string,
    cardPlayed: Option<Card>,
    reward: real,
    wasSuccessful: bool,
    handSize: int,
    moveNumber: int)

  /** The situation a tactic applies to. */
  datatype Scenario = Scenario(handSize: int, deckRemaining: int, phase: string)

  /** What a tactic does: its type (`multi_attack`, `conservative`, ...), the
      kind of card it prefers and, when set, how aggressive it is. */
  datatype TacticAction = TacticAction(kind: string, cardPreference: string, aggressionLevel: Option<real>)

  /** An `AHATactic` record. */
  datatype Tactic = Tactic(
    name: string,
    scenario: Option<Scenario>,
    action: Option<TacticAction>,
    successRate: real,
    confidence: real,
    timesUsed: int,
    timesWon: int)
}
