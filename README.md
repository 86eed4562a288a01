# Durak: the rule engine, the computer players and the game loops

This project models the core of a browser implementation of Durak, the
card game with a trump suit played with a 36-card deck (ranks 6 to 14 in
four suits). A defender must beat every attack card on the table or take
them all, and the last player left holding cards is the *durak*.

The model covers these parts:

- **The rule engine** (`GameEngine.jsx`), in modules `Cards` and `Rules`.
  - It builds, shuffles and deals the deck.
  - It holds the trump rule `canBeat` and the rank rule for adding a card to an attack.
  - It filters the legal attack and defence cards.
  - It refills hands in rotation order, picks the first attacker and detects the end of the game.
  - It scores cards with `evaluateCard`.
- **The engine's built-in computer player** (`aiSelectAttack`, `aiSelectDefense`, `aiShouldContinueAttack`), in module `EngineAI`.
- **The probability engine** (`AIProbability.jsx`), as class `AIProbability.ProbabilityEngine`.
- **The strategy engine** (`AIStrategyEngine.jsx`), as class `AIStrategy.AIStrategyEngine`, with its four difficulty levels. `DuplicateRanks` models its `findDuplicates`.
- **The round's end on the three pages.** Each page has its own copy, and they differ:
  - the AI battle (`AIBattle`), together with its move step `playAIMove` and its tactic learning arithmetic;
  - the training loop (`Training`, with class `TrainingLoop` for `gameRef`);
  - the human game (`GamePage`, with class `Game` and the N-player skip-empty-seat loops).
  - `Rounds` holds what the three share.
- **The knowledge-base page's statistics and strategy de-duplication** (`KnowledgeBase`).

Hands, the deck and the table are sequences of values. A card is the
datatype `Card(rank, suit)`. Its identifier string in the source is a
function of rank and suit, so two cards with equal identifiers are equal
cards. The table is a sequence of `TableEntry(attack, defense: Option<Card>)`.

What the model proves:

- **Conservation.** Every card stays in a hand, the deck or on the table, through dealing, refills, takes, attacks and defences.
- **Legality.** Every computer player, at every difficulty, returns nothing or a card the rules allow.
- **Agreement.** The duplicated `canBeat` and valid-attack helpers in the two AI engines agree with the engine's own.
- **Termination.** The skip-empty-seat loops of the human game end within one trip round the table.
- **The round's end.** The rotation and game-over rules of each page are stated as that page writes them.

The AI battle's take rule is one example of following the source as written. On a take, the attacker stays and the new defender is the seat after the old defender. With two seats, that is the attacker again. `AIBattle.TakeGivesAttackerBothRoles` states this, and the model does not claim the two roles differ.

Randomness is a nondeterministic choice:

- `Math.random()` picks any real in [0, 1).
- `floor(Math.random() * n)` picks any index below n.
- The crypto shuffle is any permutation.

Scores are `real` numbers. Only their bounds, boundary values and the orderings the code relies on are stated.

## Model

| member | source | states |
|---|---|---|
| Cards.FullDeck | src/components/durak/GameEngine.jsx:3-12 | 36 cards: position i holds rank `RANKS[i % 9]` of suit `SUITS[i / 9]` |
| Cards.DeckIndex | src/components/durak/GameEngine.jsx:6-12 | every card occurs in the full deck at some position below 36 |
| Cards.FullDeckExactlyOnce | src/components/durak/GameEngine.jsx:6-12 | every (rank, suit) card occurs exactly once in the full deck |
| Cards.FullDeckDistinct | src/components/durak/GameEngine.jsx:6-12 | any two positions of the deck hold different cards (distinct ids) |
| Cards.BuildDeck | src/components/durak/GameEngine.jsx:6-14 | the nested push loops over suits and ranks build exactly the full deck |
| Cards.DefendedCount | src/pages/Game.jsx:356 | the number of defended entries is at most the table's length, and equals it exactly when every entry is defended |
| Cards.TableCards | src/pages/Game.jsx:108 | the flattened table has one card per attack plus one per defence |
| Cards.TableCardsMembers | src/pages/Game.jsx:108 | a card is in the flattened table exactly when it is some entry's attack or defence |
| Cards.TableCardsAppend | src/pages/Game.jsx:108 | flattening distributes over concatenation of tables |
| Cards.FirstUndefended | src/pages/AIBattle.jsx:382 | none exactly when every entry is defended; otherwise an index of an undefended entry, the first one |
| Cards.RemoveCard | src/pages/Game.jsx:309 | removing by id drops every copy of the card, keeps every other card with its multiplicity and keeps the order |
| Cards.HandsMultisetUpdate | src/pages/Game.jsx:308-309 | replacing one hand changes the multiset of all hands by exactly that hand's difference |
| Cards.EmptyHands | src/components/durak/GameEngine.jsx:34 | n empty hands, holding no card |
| Rules.ShuffleDeck | src/components/durak/GameEngine.jsx:16-31 | the Fisher-Yates swaps return a permutation of the input (same length, same multiset) |
| Rules.CreateDeck | src/components/durak/GameEngine.jsx:6-14 | 36 cards, each (rank, suit) exactly once, in some order |
| Rules.DealCards | src/components/durak/GameEngine.jsx:33-46 | hands plus the remaining deck are a permutation of the deck; cards come off the tail; the remaining deck is the untouched front; no hand exceeds `cardsPerPlayer`, and every hand gets exactly that many when the deck is large enough |
| Rules.CanBeatByPower | src/components/durak/GameEngine.jsx:48-63 | `canBeat` agrees with an independent reading: same suit and a higher rank, or a trump over a non-trump |
| Rules.CanBeatCases | src/components/durak/GameEngine.jsx:48-63 | a trump beats any non-trump; a non-trump never beats a trump; within a suit, beats iff higher rank; two different plain suits never beat |
| Rules.CanBeatStrict | src/components/durak/GameEngine.jsx:48-63 | no card beats itself, and beating is never mutual |
| Rules.CanBeatTransitive | src/components/durak/GameEngine.jsx:48-63 | if a is beaten by b and b by c, then a is beaten by c |
| Rules.TableRanksOnTable | src/components/durak/GameEngine.jsx:68-74 | a rank is in the table's rank set exactly when some attack or defence has it |
| Rules.TableCardsRanks | src/components/durak/GameEngine.jsx:68-74 | every card on the table has its rank in the table's rank set |
| Rules.CollectTableRanks | src/components/durak/GameEngine.jsx:68-74 | the loop filling the Set yields exactly the ranks of the table's attacks and defences |
| Rules.CanAddToAttack | src/components/durak/GameEngine.jsx:65-77 | a card may be added iff the table is empty or its rank is already on the table |
| Rules.ValidAttackCards | src/components/durak/GameEngine.jsx:83-86 | the whole hand on an empty table; otherwise the order-preserving sub-list of addable cards, each kept with its full multiplicity; empty iff no hand card is addable |
| Rules.ValidDefenseCards | src/components/durak/GameEngine.jsx:79-81 | the order-preserving sub-list of hand cards that beat the attack, each beating card kept with its full multiplicity and no other card |
| Rules.DrawUpTo | src/components/durak/GameEngine.jsx:99-101 | drawing conserves cards, leaves a hand of 6 or more untouched, and stops only at 6 cards or an empty deck |
| Rules.DrawUpToShape | src/components/durak/GameEngine.jsx:99-101 | the hand only gains cards at its end, popped from the deck's tail, and the deck keeps its front |
| Rules.DrawCards | src/components/durak/GameEngine.jsx:99-101 | the inner while loop computes exactly the drawing function |
| Rules.RefillFrom | src/components/durak/GameEngine.jsx:88-105 | serving the seats from `from` to the end of the rotation keeps the number of hands; RefillConserves and the lemmas after it state what it draws |
| Rules.Refill | src/components/durak/GameEngine.jsx:88-105 | a refill keeps the number of hands and conserves the cards in hands and deck together |
| Rules.RefillHands | src/components/durak/GameEngine.jsx:88-105 | the rotation loop from `startingPlayer` computes exactly the refill function |
| Rules.RefillConserves | src/components/durak/GameEngine.jsx:88-105 | a refill conserves the cards in hands and deck together, and keeps the number of hands |
| Rules.RefillTakesFromEnd | src/components/durak/GameEngine.jsx:98-102 | the remaining deck is a prefix of the old deck: cards are only taken from its end |
| Rules.RefillOnlyAppends | src/components/durak/GameEngine.jsx:98-102 | every hand keeps its old cards as a prefix; a hand that already had 6 or more is unchanged |
| Rules.RefillUnserved | src/components/durak/GameEngine.jsx:92-101 | seats the rotation has not reached yet are unchanged |
| Rules.RefillStartsAtStart | src/components/durak/GameEngine.jsx:92-101 | the starting player draws first: their hand is refilled from the full deck |
| Rules.RefillComplete | src/components/durak/GameEngine.jsx:88-105 | afterwards the deck is empty or every hand holds at least 6 cards |
| Rules.RefillDeckStaysEmpty | src/components/durak/GameEngine.jsx:99 | nothing is drawn from an empty deck |
| Rules.DetermineFirstAttacker | src/components/durak/GameEngine.jsx:393-409 | 0 when nobody holds a trump; otherwise the seat holding the lowest trump, the first such seat in scan order |
| Rules.NonEmptySeats | src/components/durak/GameEngine.jsx:414-415 | exactly the seats with cards, in increasing order |
| Rules.CheckGameOver | src/components/durak/GameEngine.jsx:411-425 | never over while the deck has cards; otherwise over iff at most one hand holds cards, with that seat as durak, or none when all hands are empty |
| Rules.SameRankCount | src/components/durak/GameEngine.jsx:122-123 | at most the hand's size, and 0 iff no card of that rank is held |
| Rules.EvaluateCard | src/components/durak/GameEngine.jsx:108-129 | a lone plain card is worth its rank; without weights the value lies between rank - 5 and rank + 20 |
| Rules.DefaultTrumpAbovePlain | src/components/durak/GameEngine.jsx:111-120 | with the default weights, any trump is valued above any plain card |
| Rules.PairLowersValue | src/components/durak/GameEngine.jsx:122-126 | holding another card of the same rank lowers a card's value |
| AIProbability.CalculateUnknownCards | src/components/durak/AIProbability.jsx:26-29 | the order-preserving sub-list of the full deck whose cards are not visible |
| AIProbability.UnknownCardsCount | src/components/durak/AIProbability.jsx:13-29 | the unknown cards number 36 minus the distinct visible deck cards |
| AIProbability.FilterOutCount | src/components/durak/AIProbability.jsx:26-29 | filtering a duplicate-free list by a set removes exactly the elements it shares with the set |
| AIProbability.PerSixCards | src/components/durak/AIProbability.jsx:226-230 | the scaled ratio lies between 0 and handSize / 6 |
| AIProbability.ChanceOfAny | src/components/durak/AIProbability.jsx:38-43 | `1 - (1 - k/total)^n` lies in [0, 1]; it is 0 with no good cards or no draws, and 1 when every card is good |
| AIProbability.ProbabilityEngine.constructor | src/components/durak/AIProbability.jsx:5-11 | fields as given; `allCards` is the full deck; `unknownCards` is the full deck minus the visible cards, with 36 minus the distinct visible cards of them |
| AIProbability.ProbabilityEngine.CanBeat | src/components/durak/AIProbability.jsx:83-91 | with a trump set, agrees with the engine's `canBeat`; with none, same suit and higher rank |
| AIProbability.ProbabilityEngine.GetCardValue | src/components/durak/AIProbability.jsx:93-98 | the rank for a plain card; exactly rank + 10 (so in 15..24) for a trump |
| AIProbability.ProbabilityEngine.BeatingCardWorthMore | src/components/durak/AIProbability.jsx:83-98 | a card that beats another always has a higher value |
| AIProbability.ProbabilityEngine.BeatingCards | src/components/durak/AIProbability.jsx:35 | exactly the unknown cards that beat the card |
| AIProbability.ProbabilityEngine.ProbabilityOpponentCanBeat | src/components/durak/AIProbability.jsx:32-44 | 0 for an empty opponent hand, no unknown cards or no beating card; 1 when every unknown card beats; always in [0, 1] |
| AIProbability.ProbabilityEngine.CalculateExpectedValue | src/components/durak/AIProbability.jsx:47-81 | the expected value of an attack lies in [-1.6, 2.4] |
| AIProbability.ProbabilityEngine.DefenseScore | src/components/durak/AIProbability.jsx:104-131 | the defence score lies in [-7.3, 6.5], and a card that beats the attack scores at most 0.8, since it is worth more than the attack |
| AIProbability.ProbabilityEngine.AttackScore | src/components/durak/AIProbability.jsx:141-166 | the attack score lies in [-1.6, 4.0] |
| AIProbability.ProbabilityEngine.FindOptimalDefense | src/components/durak/AIProbability.jsx:100-136 | null iff no hand card beats the attack; otherwise a hand card that beats it, with the greatest defence score among those (the head of the descending sort) |
| AIProbability.ProbabilityEngine.FindOptimalAttack | src/components/durak/AIProbability.jsx:138-170 | null iff there is no valid attack; otherwise a valid attack card with the greatest score |
| AIProbability.ProbabilityEngine.GetValidAttackCards | src/components/durak/AIProbability.jsx:172-182 | agrees with the engine's `getValidAttackCards` |
| AIProbability.ProbabilityEngine.ShouldContinueAttack | src/components/durak/AIProbability.jsx:185-216 | false with a full table or no valid attack; then true when both hands are small; then false with an undefended entry; near the deck's end, true iff the table is below min(5, defender's cards) |
| AIProbability.ProbabilityEngine.EstimateOpponentStrength | src/components/durak/AIProbability.jsx:219-231 | 0.5 with no unknown cards; otherwise between 0 and handSize / 6 |
| AIProbability.ProbabilityEngine.DefenseProbability | src/components/durak/AIProbability.jsx:234-253 | 0 for an empty opponent hand, 0.5 with no unknown cards, always in [0, 1] |
| AIProbability.ProbabilityEngine.EstimateDefenseProbability | src/components/durak/AIProbability.jsx:234-253 | the counting loop computes exactly the defence probability |
| DuplicateRanks.AddToGroup | src/components/durak/AIStrategyEngine.jsx:274-277 | the card is appended to its rank's group, creating it if new; other groups are unchanged |
| DuplicateRanks.GroupsOfSnoc | src/components/durak/AIStrategyEngine.jsx:274-277 | after each card, every group is the hand's prefix filtered to that rank |
| DuplicateRanks.DuplicatesBelowCount | src/components/durak/AIStrategyEngine.jsx:279-282 | walking the rank groups in ascending key order keeps a card's every copy iff its group has two or more cards |
| DuplicateRanks.Duplicates | src/components/durak/AIStrategyEngine.jsx:272-285 | the duplicate groups are a sub-multiset of the hand, and each card in them has a rank held at least twice |
| DuplicateRanks.DuplicatesBelowAt | src/components/durak/AIStrategyEngine.jsx:272-285 | pointwise: a card occurs among the groups no more often than in the hand, and only if its rank is repeated |
| DuplicateRanks.DuplicatesExactly | src/components/durak/AIStrategyEngine.jsx:272-285 | `findDuplicates` holds exactly the hand cards whose rank occurs at least twice, with their multiplicity |
| DuplicateRanks.DuplicatesBelowSorted | src/components/durak/AIStrategyEngine.jsx:279-282 | the groups come out in ascending rank |
| DuplicateRanks.DuplicatesGrouped | src/components/durak/AIStrategyEngine.jsx:279-282 | the result's ranks never decrease, so each rank's cards are together |
| AIStrategy.UndefendedAttack | src/components/durak/AIStrategyEngine.jsx:32 | none iff every entry is defended; otherwise the attack of an undefended entry |
| AIStrategy.GetCardStrength | src/components/durak/AIStrategyEngine.jsx:354-356 | rank for a plain card, exactly rank + 10 for a trump |
| AIStrategy.StrengthIsEngineValue | src/components/durak/AIStrategyEngine.jsx:354-356 | the strategy engine's strength equals the probability engine's card value |
| AIStrategy.CanBeat | src/components/durak/AIStrategyEngine.jsx:348-352 | agrees with the engine's `canBeat` on every pair of cards |
| AIStrategy.CheapestBeater | src/components/durak/AIStrategyEngine.jsx:70-80 | the first card after sorting the beating cards by strength beats the attack and is no stronger than any other beating card |
| AIStrategy.SumRewardsBounded | src/components/durak/AIStrategyEngine.jsx:379 | rewards clamped to [0, 1] sum to between 0 and their count |
| AIStrategy.Mean | src/components/durak/AIStrategyEngine.jsx:379 | the mean of clamped rewards lies in [0, 1] |
| AIStrategy.LearnedCardScore | src/components/durak/AIStrategyEngine.jsx:368-381 | 0 with no situations or no relevant record; within [0, 5] when the rewards lie in [0, 1] |
| AIStrategy.EvaluateEndgameAttack | src/components/durak/AIStrategyEngine.jsx:384-403 | a score in [-10.1, 3.5]; a trump with more than two cards in hand scores at most -4.5; 0 for a plain card when the hands are equal |
| AIStrategy.EndgameOrder | src/components/durak/AIStrategyEngine.jsx:387-395 | when behind, a higher plain card scores higher; when ahead, a lower one does |
| AIStrategy.AhaAttackScore | src/components/durak/AIStrategyEngine.jsx:125-160 | for a hand card, a defence chance in [0, 1] and rewards in [0, 1], the aha attack score lies between -22.1 and 28.5 + 2 times the hand size |
| AIStrategy.AhaAttackPrefersSafeCards | src/components/durak/AIStrategyEngine.jsx:125-160 | a smaller chance that the opponent defends never lowers a card's aha attack score |
| AIStrategy.AhaDefenseScore | src/components/durak/AIStrategyEngine.jsx:176-206 | the score is finite unless the deck is empty and our hand is not larger than the opponent's |
| AIStrategy.AhaSelectAttack | src/components/durak/AIStrategyEngine.jsx:116-162 | none iff there are no candidates; otherwise the candidate of greatest score, the first among equals |
| AIStrategy.MinFiniteScanStep | src/components/durak/AIStrategyEngine.jsx:208-211 | one step of the strict `<` defence scan keeps the invariant: the best so far has the least finite score among the scanned candidates, and every earlier finite score is strictly greater |
| AIStrategy.AhaSelectDefense | src/components/durak/AIStrategyEngine.jsx:164-215 | none iff every candidate's score is Infinity; otherwise a candidate of least finite score, at an index before which every finite score is strictly greater (the first among equals) |
| AIStrategy.ProbabilityAdvice | src/components/durak/AIStrategyEngine.jsx:319-326 | false with a full table or no valid attack; otherwise the probability engine's answer |
| AIStrategy.AIStrategyEngine.constructor | src/components/durak/AIStrategyEngine.jsx:5-14 | the difficulty as given; the knowledge as given, or empty |
| AIStrategy.AIStrategyEngine.FindSimilarKnowledge | src/components/durak/AIStrategyEngine.jsx:288-295 | at most 10 records, in knowledge order, each successful with a hand size within 2; empty without knowledge |
| AIStrategy.AIStrategyEngine.GetValidAttacks | src/components/durak/AIStrategyEngine.jsx:336-346 | agrees with the engine's `getValidAttackCards` |
| AIStrategy.AIStrategyEngine.GetVisibleCards | src/components/durak/AIStrategyEngine.jsx:358-365 | the hand followed by each entry's attack and then its defence, so of length hand + entries + defences |
| AIStrategy.AIStrategyEngine.FindDuplicates | src/components/durak/AIStrategyEngine.jsx:272-285 | the dictionary-filling loop computes the duplicates: the cards whose rank occurs twice or more, grouped by rank |
| AIStrategy.AIStrategyEngine.EasyStrategy | src/components/durak/AIStrategyEngine.jsx:17-41 | a legal attack or none; a defence that beats the undefended attack or none |
| AIStrategy.AIStrategyEngine.EasyAttack | src/components/durak/AIStrategyEngine.jsx:20-29 | a randomly chosen valid attack card, none only when there is none |
| AIStrategy.AIStrategyEngine.EasyDefend | src/components/durak/AIStrategyEngine.jsx:31-40 | a randomly chosen beating card, or none when nothing beats the undefended attack |
| AIStrategy.AIStrategyEngine.MediumStrategy | src/components/durak/AIStrategyEngine.jsx:44-82 | legal as above; attacks with one of the first three valid cards once they are stably sorted by rank + 20 for a trump (which one depends on the random roll); defends with a beating card of least strength |
| AIStrategy.AIStrategyEngine.MediumAttack | src/components/durak/AIStrategyEngine.jsx:48-64 | one of the first three valid cards after the stable sort by rank + 20 for a trump (the first on a roll below 0.7, any of the three otherwise); none only with no valid card |
| AIStrategy.AIStrategyEngine.MediumDefend | src/components/durak/AIStrategyEngine.jsx:66-81 | a beating card of least strength, none only when nothing beats |
| AIStrategy.AIStrategyEngine.HardStrategy | src/components/durak/AIStrategyEngine.jsx:85-99 | the probability engine's choice, which is legal |
| AIStrategy.AIStrategyEngine.AhaStrategy | src/components/durak/AIStrategyEngine.jsx:102-218 | a legal attack or none; a defence that beats the first undefended attack or none |
| AIStrategy.AIStrategyEngine.ShouldContinueAttack | src/components/durak/AIStrategyEngine.jsx:314-327 | false with a full table, an undefended entry or no valid attack; above easy and medium, the probability engine's answer |
| AIStrategy.AIStrategyEngine.MakeDecision | src/components/durak/AIStrategyEngine.jsx:330-333 | whatever the difficulty, a legal attack or defence, or none |
| AIStrategy.AIStrategyEngine.ChosenStrategy | src/components/durak/AIStrategyEngine.jsx:330-333 | easy, hard and aha map to their strategies; any other difficulty falls back to medium |
| EngineAI.LowestRank | src/components/durak/GameEngine.jsx:148-153 | none iff there are no cards; otherwise a card of least rank |
| EngineAI.HighestRank | src/components/durak/GameEngine.jsx:154-159 | none iff there are no cards; otherwise a card of greatest rank |
| EngineAI.LeastValue | src/components/durak/GameEngine.jsx:193-197 | none iff there are no cards; otherwise a card of least `evaluateCard` value |
| EngineAI.ApplicableTactics | src/components/durak/GameEngine.jsx:137-142 | exactly the tactics for this phase with close hand and deck sizes and a success rate above 0.5, best score first |
| EngineAI.BestTactic | src/components/durak/GameEngine.jsx:136-145 | a stored applicable tactic, only at difficulty aha, whose success rate times confidence is at least that of every applicable stored tactic; some tactic is chosen iff one applies |
| EngineAI.TacticAttack | src/components/durak/GameEngine.jsx:147-181 | the tactic's card is a valid one: a low card or a high trump when the preference asks for it and one exists |
| EngineAI.TacticDefence | src/components/durak/GameEngine.jsx:267-289 | the tactic's defence is a valid card; a conservative tactic may decline (take); no tactic means no decision |
| EngineAI.LearnedRanks | src/components/durak/GameEngine.jsx:215-218 | exactly the ranks of the recorded cards with a reward above 0.4: every such rank, and no other |
| EngineAI.AttackByDifficulty | src/components/durak/GameEngine.jsx:199-252 | a valid card; at hard, a repeated-rank card or one of least value |
| EngineAI.AhaAttack | src/components/durak/GameEngine.jsx:205-238 | a valid card |
| EngineAI.AiSelectAttack | src/components/durak/GameEngine.jsx:131-253 | null iff there is no valid attack card; otherwise a valid one |
| EngineAI.AverageHandSize | src/components/durak/GameEngine.jsx:326-329 | 4 when there is no successful defence on record |
| EngineAI.DefendByDifficulty | src/components/durak/GameEngine.jsx:302-356 | a valid defence or a take; at medium and aha a cheapest valid card |
| EngineAI.AiSelectDefense | src/components/durak/GameEngine.jsx:255-357 | null (take) or a hand card that beats the attack; null whenever none beats it |
| EngineAI.AiShouldContinueAttack | src/components/durak/GameEngine.jsx:359-391 | never with no valid card or once the undefended entries reach the defender's hand size; otherwise per difficulty |
| EngineAI.AhaDefaultSkipsTrumps | src/components/durak/GameEngine.jsx:372-385 | with the aha branch's default weights, a trump never counts as low-valued |
| Rounds.TakeTable | src/pages/Game.jsx:107-110 | on a take, the defender's hand gains exactly the table's cards; other hands are unchanged |
| Rounds.TakeTableHand | src/pages/AIBattle.jsx:263-266 | the defender keeps the old hand as a prefix, followed by every attack and defence card on the table |
| Rounds.RemoveHeldOnce | src/pages/AIBattle.jsx:331 | removing a card held once takes exactly that card away |
| Rounds.MoveToTable | src/pages/AIBattle.jsx:329-338 | moving a card from a hand to the table keeps the cards in hands and on the table together unchanged |
| Rounds.TableCardsAttack | src/pages/AIBattle.jsx:333 | a new attack entry adds its card to the table's cards |
| Rounds.TableCardsDefend | src/pages/Game.jsx:311-312 | defending an undefended entry adds that card to the table's cards |
| Rounds.DefendEntry | src/pages/Game.jsx:311-314 | only the chosen entry gains the defence; the table is all defended iff every other entry was |
| AIBattle.RefillIfDeck | src/pages/AIBattle.jsx:271-275 | a refill only when the deck has cards; conserves cards; then the deck is empty or every hand holds 6 |
| AIBattle.AfterTake | src/pages/AIBattle.jsx:263-266 | on a take the hands gain exactly the table's cards; otherwise they are unchanged |
| AIBattle.EndRound | src/pages/AIBattle.jsx:260-307 | game over carries `checkGameOver`'s durak; conserves cards; a next round has an empty table, phase attack, move count + 1, the trump card dropped iff the deck ran out, and the page's roles |
| AIBattle.NextRoles | src/pages/AIBattle.jsx:284-291 | the defender is always a seat below 2; after a beaten attack the two roles differ |
| AIBattle.BeatenAttackSwapsRoles | src/pages/AIBattle.jsx:284-291 | after a beaten attack the two seats swap roles |
| AIBattle.TakeGivesAttackerBothRoles | src/pages/AIBattle.jsx:284-291 | after a take with two seats, the attacker is also the new defender |
| AIBattle.SeatDifficulty | src/pages/AIBattle.jsx:311 | seat 0 plays aha, every other seat hard |
| AIBattle.AttackMove | src/pages/AIBattle.jsx:329-338 | the attacker's hand loses every copy of the card and nothing else, the other hands are unchanged, the table gains the card as a new undefended entry at its end, and the defender is to move |
| AIBattle.DefenceMove | src/pages/AIBattle.jsx:396-411 | only entry u gains the card as its defence; the defender's hand loses every copy of the card and nothing else, the other hands are unchanged; the attacker moves next iff every other entry was already defended |
| AIBattle.AttackMoveConserves | src/pages/AIBattle.jsx:329-338 | an attack keeps every card in a hand or on the table and opens a new undefended entry |
| AIBattle.DefenceMoveConserves | src/pages/AIBattle.jsx:382-411 | a defence keeps every card in a hand or on the table and leaves every other entry as it was |
| AIBattle.PlayAIMove | src/pages/AIBattle.jsx:309-420 | an attack is a valid card or the round's end; a full table or no valid card ends the round; a defence beats the first undefended attack or takes; a fully defended table in the defence phase is no move |
| AIBattle.TacticSimilarity | src/pages/AIBattle.jsx:189-213 | in [0, 1]; 0 when a scenario or action is missing; 1 for equal names |
| AIBattle.SimilaritySymmetric | src/pages/AIBattle.jsx:189-213 | the score does not depend on the order of the two tactics |
| AIBattle.SimilarExactly | src/pages/AIBattle.jsx:189-213 | above 0.7 iff both are complete and either share a name or share phase and action with close hand or deck sizes |
| AIBattle.UpdateTactic | src/pages/AIBattle.jsx:153-159 | uses + 1, wins + 1 on a win, success rate times uses equals wins, and the new confidence is exactly the old one plus 0.12 on a win or minus 0.08 on a loss, clamped to [0.01, 0.99] |
| AIBattle.UpdateKeepsRateInRange | src/pages/AIBattle.jsx:152-154 | wins never exceeding uses is kept, and the success rate stays in [0, 1] |
| Training.TrainingRoles | src/pages/Training.jsx:159-165 | the defender is a seat below 2, and with two seats attacker and defender always differ |
| Training.TrainingRolesTwoSeats | src/pages/Training.jsx:159-165 | with two seats a take lets the attacker attack again and a beaten attack swaps roles |
| Training.AfterTake | src/pages/Training.jsx:132-135 | on a take the hands gain exactly the table's cards |
| Training.TrainingRound | src/pages/Training.jsx:126-180 | over only when the deck was already empty or there is no trump card; carries `checkGameOver`'s durak; conserves cards; a next round has an empty table, phase attack, the trump card dropped iff the deck ran out, and the page's roles |
| Training.TrainingLoop.constructor | src/pages/Training.jsx:58 | the current game is the one given |
| Training.TrainingLoop.EndRound | src/pages/Training.jsx:126-180 | nothing without a game; otherwise the round's end, and a next round becomes the current game |
| GamePage.SkipFrom | src/pages/Game.jsx:137-145 | the seat the skip loop stops at: a seat with cards, or the stop seat |
| GamePage.SkipFromPassesEmpty | src/pages/Game.jsx:137-145 | the search ends on the m-th seat from its start, with m at most one trip round the table, and every seat passed over had an empty hand |
| GamePage.SkipEmptySeats | src/pages/Game.jsx:137-145 | the while loop terminates and returns the skip function's seat |
| GamePage.RotationStart | src/pages/Game.jsx:128-134 | after a take the search starts after the defender, otherwise at the defender |
| GamePage.EndOfRound | src/pages/Game.jsx:101-160 | conserves cards; over only with an empty deck and no trump card left, with `checkGameOver`'s durak; a next round has an empty table, phase attack, no passers, the trump card dropped iff the deck ran out, and attacker and defender at seats with cards unless none is left |
| GamePage.Refilled | src/pages/Game.jsx:105-116 | take plus refill conserve cards and leave the deck empty or every hand with 6 |
| GamePage.NextSeats | src/pages/Game.jsx:137-145 | the attacker and defender searches pass only empty seats; they meet only when all other hands are empty |
| GamePage.NextRoundSeats | src/pages/Game.jsx:128-156 | the state a round continues with has an empty table, phase attack and no passers; its attacker and defender are found past empty seats only, and coincide only when every other hand is empty |
| GamePage.SkipFromReached | src/pages/Game.jsx:137-145 | a whole search ends on a seat reached by moving past empty hands only |
| GamePage.DefenderSearch | src/pages/Game.jsx:141-145 | the defender search ends back at the attacker only with one seat or every other hand empty |
| GamePage.DefenderDiffers | src/pages/Game.jsx:141-145 | the defender search returning to the attacker means every other hand is empty |
| GamePage.Defended | src/pages/Game.jsx:300-320 | acts iff the player defends and the entry is undefended and beaten; then only that entry gains the card, the card leaves hand 0, the phase is attack iff all entries are defended, and cards are conserved |
| GamePage.CanEndAttack | src/pages/Game.jsx:356 | offered iff the person attacks in the attack phase and the table is non-empty with every entry defended (the defended count equals the table's length) |
| GamePage.CanTake | src/pages/Game.jsx:357 | offered iff the person defends in the defence phase and some entry is undefended (the first-undefended search finds one) |
| GamePage.ActionsExclusive | src/pages/Game.jsx:356-357 | ending the attack and taking are never both offered; ending needs a non-empty, all-defended table, taking an undefended entry |
| GamePage.Game.constructor | src/pages/Game.jsx:38-44 | the given state, no selected card, no result yet |
| GamePage.Game.HandleDefend | src/pages/Game.jsx:300-320 | nothing changes without a selected card or a legal defence; otherwise the defended state and the selection is cleared |
| GamePage.Game.EndRound | src/pages/Game.jsx:101-160 | the state becomes the round's end; a finished game records its durak; a next round clears the selection |
| GamePage.Game.StartNextRound | src/pages/Game.jsx:128-158 | runs the two skip loops and sets the next round's state, clearing the selection |
| KnowledgeBase.DisjointCounts | src/pages/KnowledgeBase.jsx:41-49 | the counts of two disjoint filters add up to at most the number of records |
| KnowledgeBase.KnowledgeStats | src/pages/KnowledgeBase.jsx:41-49 | total is the number of records; the other counts are at most the total, and each is 0 iff no record qualifies |
| KnowledgeBase.FilteredKnowledge | src/pages/KnowledgeBase.jsx:55-57 | all records for `all`; otherwise exactly the records of that decision type, in order |
| KnowledgeBase.BestDecisions | src/pages/KnowledgeBase.jsx:60-71 | at most 15 records, each with a card, a reward above 0.5 and success; drawn from the records; all of them when there are at most 15 |
| KnowledgeBase.PatternOf | src/pages/KnowledgeBase.jsx:77 | the pattern keeps the decision type, and its band is floor(rank / 3) |
| KnowledgeBase.FirstOfEachPattern | src/pages/KnowledgeBase.jsx:74-83 | members come from the list with a pattern not yet seen, and no two share a pattern |
| KnowledgeBase.FirstOfEachPatternSubsequence | src/pages/KnowledgeBase.jsx:74-83 | the de-duplicated list keeps the records' order |
| KnowledgeBase.FirstOfEachPatternCovers | src/pages/KnowledgeBase.jsx:74-83 | every pattern in the list that was not already seen is represented |
| KnowledgeBase.FirstOfEachPatternCoversAt | src/pages/KnowledgeBase.jsx:76-81 | the pattern of any record not already seen is the pattern of some kept record |
| KnowledgeBase.FirstOfEachPatternIsFirst | src/pages/KnowledgeBase.jsx:74-83 | each kept record is the first of its pattern in the list |
| KnowledgeBase.UniqueStrategies | src/pages/KnowledgeBase.jsx:74-83 | the loop with its Set and its break at 10 returns the first 10 records of distinct pattern |
| KnowledgeBase.DisplayBest | src/pages/KnowledgeBase.jsx:85 | empty iff both lists are empty; its records come from one of them |
| KnowledgeBase.DisplayBestEmpty | src/pages/KnowledgeBase.jsx:74-85 | the unique list starts with the best record whenever there is one, so the display is empty iff there is no best decision |

## Left out

- Rendering, navigation, `setState`, messages, timers, animation frames, react-query and all store reads and writes: they are UI and I/O. The pages' `initGame` functions are left out as well; they only deal and store the state.
- Randomness: `crypto.getRandomValues` and `Math.random` are not modelled as values. A shuffle is any permutation, and a random pick is any index or any real in [0, 1).
- In-place sorts (`valid.sort`, `hand.sort`): a stable sort on a sequence value. In-place array identity and aliasing are not modelled.
- Rules.RefillHands: the source pushes into the caller's inner hand arrays, which the shallow copy of the outer array shares. The model returns new hands, so this aliasing is not captured.
- The `window.AIStrategyEngine` lookup is modelled as an optional oracle that the `oracleLoaded` flag switches on. The oracle returns nothing or a legal card; `AILoader.jsx` itself is not modelled.
- Floating point: scores and probabilities are `real`, so rounding, `NaN` from missing record fields and `toFixed` formatting are not modelled. The knowledge base's `avgReward` and `successRate` are display-only formatting and are left out.
- Training.TrainingRound: `avgCardsLeft`, the performance data and the strategy-weight drift around it are float bookkeeping for display and saving. They are left out.
- AIBattle: the asynchronous loop of `learnTacticsFromGame` (store reads, the first-similar search and the creation of new tactics) is store control flow. Only its arithmetic (`UpdateTactic`) and `calculateTacticSimilarity` are modelled.
- AIBattle.UpdateTactic requires `times_used` of at least 0. The store never holds a negative count, and a use count of -1 would divide by zero.
- `applyOpeningTheory`, `applyEndgameTheory` and `applyLearnedPatterns` of the strategy engine are never called, so they are not modelled.
- AIStrategy.AhaSelectAttack and AIStrategy.AhaSelectDefense: the source's guard that skips a candidate lacking a card, a suit or a rank is not modelled. A `Card` always has a suit and a rank from 6 to 14, so the guard never skips one and the behaviour is the same.
- EngineAI.AhaAttack states only that the card is valid, not which of the learned, multi-card or top-two rules chose it. Those choices rest on float scores and a random pick.
- KnowledgeBase.PatternOf gives a record without a card band 0. The source would fail on such a record, but only records with a card reach it.
- GamePage.Game: the `gameOver` flags `isPlayerDurak`/`isPlayerWinner` and the null state before initialisation are not modelled. The game's result is recorded as the durak seat.
- Dealing in the source leaves 36 - 6n cards in the deck, with the trump card at its front and drawn last. The model follows the code, not a reading that reserves one more card for the trump.
- Game.jsx's computer-player moves (`aiTurn`) are not modelled: they are timer-driven page control flow. They call the engine's `aiSelectAttack`, `aiSelectDefense` and `aiShouldContinueAttack`, which `EngineAI` models, with the page's one difficulty and without weights, learned data or tactics. They differ from the battle page's `playAIMove`: when the opening attack finds no card, `aiTurn` does nothing, where the battle page ends the round.
- AIStrategy.AIStrategyEngine.constructor: the source's default difficulty `'aha'` is not modelled; the constructor takes the difficulty as an argument, and both call sites in `GameEngine.jsx` pass one.
