# Blackjack basic-strategy evaluator in Dafny

This project models the strategy engine of a blackjack advice app. The engine is given the
dealer's upcard and the player's ordered cards. It returns an advice record: an action
(HIT, STAND, DOUBLE, SPLIT, SURRENDER or BUSTED), a confidence, a win-probability percentage and an
explanation.

It works in four steps:

- **Hand value.** Every Ace first counts 11. While the total exceeds 21 and an Ace still counts
  11, one Ace drops to 1. The hand is *soft* when an Ace still counts 11 at the end. It is a
  *pair* when it has exactly two cards of the same rank; a Ten with a King is not a pair.
- **Decision table.** A busted hand returns BUSTED at once. Otherwise a two-card pair is read
  from the pair rows, a soft hand from the soft rows and anything else from the hard rows.
  Each row gives a code ("C" hit, "S" stand, "DD" double, "Sp" split) and a description.
- **Downgrade.** In a hand of more than two cards, SPLIT becomes HIT. DOUBLE becomes STAND on a
  soft 18 and HIT otherwise.
- **Win probability.** A fixed piecewise percentage of the total and the dealer's value.

Files:

- `types.dfy`, module `Types`: ranks, suits, cards, actions and the advice record.
- `rules_service.dfy`, module `RulesService`: the engine and its properties.
- `rules_service_examples.dfy`, module `RulesServiceExamples`: worked hands.

`HandOf` is the value-level definition of a hand's value. The Ace demotion is written in closed
form: the fewest demotions that bring the sum to 21 or below, capped by the number of Aces.
`CalculateHand` is the program's two loops, proved to return exactly `HandOf`. `Advise` is the
evaluator as a function of its inputs. `GetBasicStrategyAdvice` is the evaluator written the
way the program runs it: it calls `CalculateHand` and overwrites the action code in place. It
is proved to return exactly `Advise`.

The hand A,6,4 counts 11 + 6 + 4 = soft 21, so against a dealer 9 the code advises STAND
(`AceSixFourIsSoftTwentyOne`). Three-card soft 17 and soft 18 hands, whose table DOUBLE is
downgraded, are covered by `ThreeCardSoftSeventeenHits` and `ThreeCardSoftEighteenStands`.

## Model

| member | source | states |
|---|---|---|
| RulesService.CardValue | services/rulesService.ts:10-14 | A rank's value is between 2 and 11. It is 11 exactly for an Ace, and 10 exactly for 10, J, Q and K. |
| RulesService.DealerValue | services/rulesService.ts:47-51 | The dealer column is the upcard's card value, between 2 and 11, and 11 exactly for an Ace. |
| RulesService.HandOf | services/rulesService.ts:16-45 | The total is one of the obtainable sums: the nominal sum minus 10 for each of some number k of Aces, k at most the Ace count. It lies between the all-Aces-at-1 sum and the all-Aces-at-11 sum. It is at most 21 unless every Ace has been demoted. Soft holds iff an Ace exists and the sum with all but one Ace at 1 is at most 21. Soft implies total at most 21, and a hand without Aces is never soft. Pair holds iff there are two cards of identical rank, and canSplit equals pair. |
| RulesService.CalculateHand | services/rulesService.ts:16-45 | The summing loop and the Ace-demotion loop return exactly the hand value `HandOf` defines. |
| RulesService.SumBounds | services/rulesService.ts:20-24 | The Ace count is at most the number of cards. The nominal sum is at least 11 per Ace plus 2 per other card. |
| RulesService.BestTotal | services/rulesService.ts:26-29 | The total is one of the sums obtained by counting some of the Aces as 1. Whenever one of those sums is at most 21, the total is at most 21 and at least that sum: it is the largest sum that does not exceed 21. |
| RulesService.SoftTotalRange | services/rulesService.ts:16-44 | A soft hand of two or more cards that the pair branch does not take has a total between 13 and 21. |
| RulesService.PairRule | services/rulesService.ts:132-186 | Every rank has a row. A,A splits; a ten-valued pair stands; 9,9 stands exactly against 7, 10 or A and splits otherwise; 4,4 hits. DOUBLE comes only from 5,5 against 2-9, and STAND only from 9s or ten-valued pairs. |
| RulesService.SoftRule | services/rulesService.ts:188-236 | A row fires iff the soft total is at least 13. Below 13 the default "S" with an empty description is kept. 19 and up stand, and soft 18 stands against 2, 7 and 8. DOUBLE only for soft 13-18 against 3-6, and never SPLIT. |
| RulesService.HardRule | services/rulesService.ts:237-281 | Every hard total has a row. 17 and up stand, 8 and below hit. DOUBLE only for 9-11, STAND only from 12 up, and never SPLIT. |
| RulesService.TableRule | services/rulesService.ts:131-281 | Pair rows for a two-card pair, else soft rows for a soft hand, else hard rows. The code is one of C, S, DD, Sp, and Sp only for a two-card pair. |
| RulesService.Degrade | services/rulesService.ts:297-307 | With more than two cards, neither Sp nor DD survives: Sp becomes C, and DD becomes S exactly on soft 18, otherwise C. With two cards or fewer, or for any other code, nothing changes. |
| RulesService.MapCodeToAction | services/rulesService.ts:55-63 | C, DD and Sp map exactly to HIT, DOUBLE and SPLIT. Every other code maps to STAND. SURRENDER and BUSTED are never produced. |
| RulesService.WinProbability | services/rulesService.ts:66-106 | The percentage is between 25 and 100. It is 100 iff the total is 21, at least 85 iff the total is 19-21, and 25 only for 17 against a dealer outside 2-6. |
| RulesService.WinProbabilityDependsOnTotal | services/rulesService.ts:66-67 | Two hands with the same total get the same percentage: softness and pairing play no part. |
| RulesService.Advise | services/rulesService.ts:108-318 | Confidence is always 100 and SURRENDER is never advised. BUSTED is returned iff the total exceeds 21, with win probability 0. Otherwise the action is HIT, STAND, DOUBLE or SPLIT, and the probability is 25-100, reaching 100 iff the total is 21. Over two cards, never SPLIT or DOUBLE, and a table DOUBLE becomes STAND iff soft 18, else HIT. SPLIT only for a two-card strict pair. The explanation is the bust text of line 123 (`BustExplanation`) or the rule text of line 316 (`RuleExplanation`). |
| RulesService.GetBasicStrategyAdvice | services/rulesService.ts:108-318 | The evaluator as the program runs it (hand loop, early bust return, table lookup, in-place downgrade) returns exactly `Advise`. |
| RulesService.SoftFallThroughUnreachable | services/rulesService.ts:115-236 | For hands of two or more cards, whenever the soft rows are consulted, one of them fires, so the default "S" never decides. |
| RulesService.MixedTensAreHardTwenty | services/rulesService.ts:37-44 | Two different ten-valued ranks, in either order (10 with K, J with Q, ...), are not a pair and not soft. They total 20 and are advised STAND. |
| RulesService.AcesAlwaysSplit | services/rulesService.ts:182-186 | A,A is a soft-12 pair and is advised SPLIT against every dealer card. |
| RulesService.TenValuePairStands | services/rulesService.ts:178-181 | Two equal ten-valued ranks are a hard-20 pair and are advised STAND against every dealer card. |
| RulesService.NinesStandOnlyAgainstSevenTenAce | services/rulesService.ts:172-177 | 9,9 is advised STAND exactly against a dealer 7, 10 or A, and SPLIT otherwise. |
| RulesServiceExamples.FivesDoubleAgainstSix | services/rulesService.ts:148-153 | 5,5 against a 6 is advised DOUBLE. |
| RulesServiceExamples.AcesSplitAgainstTen | services/rulesService.ts:182-186 | A,A against a 10 is advised SPLIT. |
| RulesServiceExamples.NinesStandAgainstSeven | services/rulesService.ts:172-177 | 9,9 against a 7 is advised STAND. |
| RulesServiceExamples.TwentyTwoBusts | services/rulesService.ts:118-125 | 10,6,6 against a 5 gives BUSTED, confidence 100, probability 0 and the text "You currently have 22. You have busted." |
| RulesServiceExamples.SoftSeventeenDoublesAgainstFour | services/rulesService.ts:205-210 | A,6 is soft 17 and is advised DOUBLE against a 4. |
| RulesServiceExamples.AceSixFourIsSoftTwentyOne | services/rulesService.ts:193-197 | A,6,4 is soft 21 and is advised STAND against a 9. |
| RulesServiceExamples.ThreeCardSoftSeventeenHits | services/rulesService.ts:297-307 | A,2,4 is soft 17. Its table DOUBLE against a 4 is downgraded to HIT. |
| RulesServiceExamples.ThreeCardSoftEighteenStands | services/rulesService.ts:297-307 | A,2,5 is soft 18. Its DOUBLE against a 4 is downgraded to STAND. |
| RulesServiceExamples.ThreeCardElevenHits | services/rulesService.ts:297-307 | 4,4,3 is hard 11. Its DOUBLE against a 6 is downgraded to HIT. |
| RulesServiceExamples.LoneAceKeepsTheDefault | services/rulesService.ts:115-236 | A lone Ace (soft 11) matches no soft row. The default STAND is returned with an empty rule description, probability 70 and the full explanation text. |

## Left out

- The user interface (App.tsx and the components): state wiring, the card pickers, the
  presentation delay, scrolling, alerts, colours and random card ids. It is presentation only.
  The caller's guard that at least two player cards are present is not modelled. The
  evaluator is modelled for every hand, including those of zero or one card.
- services/geminiService.ts: the call to an external generative model and the parsing of its
  JSON reply. That path is foreign code and not part of this model.
- `getBasicStrategyAdvice` is `async` and returns a promise. The model returns the advice
  record directly, since the function never awaits anything.
- Two locals that `calculateHand` computes but never returns: the value-based pair flag and
  the `isSoft` guarded by `total <= 21`. The model keeps what is returned.
- The explanation texts are built exactly, with numbers rendered in decimal. No property of
  their wording is proved beyond the worked examples.
- Suit and card id are carried in `Card` but never consulted, as in the program.
- `winProbability` is optional in the advice record. The evaluator always fills it, so the
  model's contracts speak of `Some(…)`.
- Determinism and the absence of hidden state hold by construction: the evaluator is a Dafny
  function of its two inputs.
