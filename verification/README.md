# Thai Dummy, verified

A Dafny model of the rules engine of the Thai Dummy server (`server/internal/game`), of the bot's
and the hint engine's searches, and of the part of the room layer that drives a round
(`server/internal/room`), with proofs of what they keep, find and conserve.

One round is a value of type `Rules.State`; `Rules` gives the effect of every action on it as
functions. The class `Engine.GameState` has the original's fields, and its methods and loops are
proved to carry those functions out in place. What holds over whole runs is proved about the
functions. A run is any sequence of attempted actions by anyone (`History.Play`), from any deal
under any rules a room can have; `History.Log` keeps the accepted ones. The random generator is a
parameter: a shuffle takes its draws, a start takes any of them.

| file | what it holds |
|---|---|
| Cards, Bags | cards, rule set, card values; sequences as bags, mark arrays, totals |
| Melds, LayOff | classification, construction, lay-offs and their algebra |
| Deck | deck, shuffle, deal |
| Solver, SolverProof, SolverOrder | the auto-knock search, that it is sound and complete for covers, and which plan it finds |
| Rules, Engine | one round's actions as functions; the methods that carry them out |
| Runs | sequences of one player's actions; solver exactness; replay of a plan |
| Conservation, Invariants, Steps | where cards go; the invariant; every action keeps it |
| History, Termination, Grammar, Attribution | whole runs: bounds, turns, dark knocks, penalties |
| HandSizes, Endings | how long hands get; what is left to the other seats; how rounds end |
| PickUps, Outcomes, Effects | what a pick-up takes; why actions are rejected; what they move, and in which order |
| Scoring, Points, RoundTotals | round scores; conservation of points; every seat's exact score |
| Combos, Hints, HintProof, HintOrder, Bot | the two enumerators; hints; the bot's best meld and its plays |
| RoomModel, Room, RoomEffects, Views | the room's lock sections in any interleaving; its methods; what they do guest by guest; views |
| Settlement | the coin settlement |
| Cases | rounds, each reached from a deal, in which the code falls short of its documentation |
| Reachable | the main results as they read for a round in play |

Choices that shape the model:

- A run of cards is given by suit, lowest value and length (`Melds.Straight`), value 14 being the
  Ace above the King. Classification speaks of bags of cards, so it cannot depend on order.
- The knock card leaves the hand and enters no pile (`server/internal/game/engine.go:339`). The
  state remembers it in `knocked`, which the original does not have, so that cards can be counted.
- Meld numbers stand for the ids "m1", "m2", and so on; an absent id, target card or support is
  `None`. A rejected meld or pick-up still uses a number up, as in the original.
- `Solver.FirstSome` is "the first hit of a loop": the solver's loops are proved to return the
  first hit in the order of the original's masks and melds.
- `RoomModel.RoomState` counts handlers on their way to finishing a round (`pending`), rounds
  dealt and scored, and the rounds scored since the scores were cleared (`ledger`); the original
  has none of these.
- Library sorting is `Melds.Sorted`, an ascending arrangement; for runs it is unique.

Where the code and its documentation part, the model follows the code, and what fails is proved:

- Lay-offs are not monotone in points: a suit completed downwards counts as Ace-low. The exact
  condition is `PointsTheorems.LayOffLowersPoints`, the case `PointsTheorems.TwoOfDiamondsLowersRun`.
- The bot "can never make an illegal play" (`server/internal/bot/bot.go:6`) although it searches
  under the default rules only. Its play is accepted exactly when the room takes melds of three,
  or its hand has no meld to lay, or has one of four cards that leaves a card
  (`Bot.BotPlayIsLegalIffSafe`); a deal on whose first turn it plays illegally is
  `Cases.BotPlaysIllegally`. This is about a bot that sees its current hand: it acts up to 600 ms
  after the frame it stored (`server/internal/bot/bot.go:82-91`), and a play from an outdated
  frame is outside the claim.
- The solver answers whether the player can go out exactly for hands that are not a single card;
  with a single card it says no although knocking with it is accepted (`Runs.SolverExact`,
  `Runs.OneCardIsNotSolved`).
- "Hand sizes stay ≤ 12 cards" (`server/internal/game/autoknock.go:10`,
  `server/internal/game/suggest.go:84`) is what the exponential searches rest on. A hand grows exactly by a draw or by a pick-up with more
  cards above its target than supporting cards (`HandSizes.HandGrowsIff`); without such a pick-up
  the bound holds over any run (`HandSizes.HandsStaySmall`), while with one a hand of 37 cards
  can come about between two players (`Cases.HandOf37`).
- A player may meld the whole hand, and then nothing is accepted from anyone: exactly then a
  running round is stuck (`Termination.StuckIffHandMelded`). Two moves after a deal are enough
  (`Cases.StuckRoundIsReachable`), and the room never gets rid of such a round
  (`Cases.RoomCanHang`).

## Model

| member | source | states |
|---|---|---|
| Melds.ClassifyRun | server/internal/game/meld.go:42-77 | cards are consecutive exactly when their ranks, taken in one suit, fill an interval with the Ace as 1 or as 14 and no wrap; the flag is set exactly when the Ace is on top, the whole suit counting as low; no cards are consecutive |
| Melds.ClassifyMeld | server/internal/game/meld.go:81-104 | kind, flag or error of any group of cards, by its bag: one rank is a set, consecutive cards of one suit a run, too few cards are too short |
| Melds.RunUnique | server/internal/game/meld.go:61-76 | a bag of cards is a run of one suit from one lowest value only |
| Melds.SortRun | server/internal/game/meld.go:121-129 | the array ends up in ascending order of value, the Ace above the King if it is high |
| Melds.NewMeld | server/internal/game/meld.go:108-118 | the meld built, a run listing its straight upwards, or the classification's error |
| LayOff.CanLayOff | server/internal/game/layoff.go:21-38 | the extended meld, or a refusal when the cards are none, do not classify, or change the kind |
| LayOff.LaidOffIsValid | server/internal/game/layoff.go:25-37 | a lay-off keeps id, owner and kind, leaves a valid meld and adds exactly its cards |
| LayOff.ValidRunAscends | server/internal/game/meld.go:121-129 | a valid run is of one suit and steps up by one value at each card |
| LayOff.LayOffsJoin | server/internal/game/layoff.go:21-38 | two successive lay-offs leave the very meld that one combined lay-off leaves |
| LayOff.SingleLayOff | server/internal/game/layoff.go:21-38 | whenever a batch can be laid off, some single card of it can |
| LayOff.BatchIffOneByOne | server/internal/game/layoff.go:21-38 | a batch is accepted exactly when some ordering of it is accepted card by card |
| LayOff.AceFlagChanges | server/internal/game/meld.go:61-76 | the Ace flag changes exactly when an Ace goes above the King of a run without one, or an Ace-high run becomes the whole suit |
| Deck.NewDeck | server/internal/game/deck.go:6-14 | the 52 cards in order of suit and rank |
| Deck.DeckHasEachCardOnce | server/internal/game/deck.go:5-14 | the deck holds every card exactly once |
| Deck.Shuffle | server/internal/game/deck.go:19-28 | the swaps of Fisher-Yates for the given draws |
| Deck.LastIsDrawn | server/internal/game/deck.go:19-28 | the draw for the last open place decides which card ends up there |
| Deck.ShuffleIsBijection | server/internal/game/deck.go:19-28 | for distinct cards of any number the orders reached are exactly the permutations, each from one vector of draws |
| Deck.Deal | server/internal/game/deck.go:33-46 | consecutive hands of the right size, then the head card, then the draw pile |
| Deck.DealKeepsDeck | server/internal/game/deck.go:33-46 | hands, head card and draw pile put together are the deck |
| Solver.RemainingByMask | server/internal/game/autoknock.go:112-120 | the cards whose bit is clear, in order |
| Solver.PartitionForKnock | server/internal/game/autoknock.go:56-110 | the first successful partition in the order of masks and melds, or none |
| Solver.SolveAutoKnock | server/internal/game/autoknock.go:29-51 | the plan that keeps back the first card that can be, or none (`SolverOrder.SolveIsFirst` says which that is) |
| Solver.CanAutoKnock | server/internal/game/autoknock.go:124-127 | whether there is a plan |
| SolverProof.SearchSound | server/internal/game/autoknock.go:56-110 | a partition found places every card, its groups are melds and its lay-offs fit an evolving table in order |
| SolverProof.SearchComplete | server/internal/game/autoknock.go:56-110 | if the cards can be split into piles that fit the table melds or form new ones, a partition is found |
| SolverProof.SolveSound | server/internal/game/autoknock.go:29-51 | a plan keeps one card back and places all the others |
| SolverOrder.SearchIffCoverable | server/internal/game/autoknock.go:56-110 | a partition is found exactly when there is one |
| SolverOrder.SolveIsFirst | server/internal/game/autoknock.go:37-50 | the knock card is the first card of the hand that can be kept back |
| SolverOrder.SearchIsFirst | server/internal/game/autoknock.go:64-107 | the first unplaced card goes into a new meld if any works, by the smallest mask, else onto the first table meld that works, by the smallest mask; and so on with the other cards |
| SolverOrder.LaidOffOnlyIfUnmeldable | server/internal/game/autoknock.go:64-107 | that card is laid off only if no new meld holding it leaves the other cards placeable |
| SolverOrder.MaskPicksBits | server/internal/game/autoknock.go:67-71 | a mask groups the cards whose bit is set |
| Runs.GoingOutCovers | server/internal/game/engine.go:279-351 | every accepted way of laying melds and lay-offs, also onto melds laid on the way, and then knocking is such a split |
| Runs.SolverExact | server/internal/game/autoknock.go:29-110 | the solver's answer is whether some accepted sequence of melds and lay-offs ends in an accepted knock, exactly for the hands that are not a single card |
| Runs.OneCardIsNotSolved | server/internal/game/autoknock.go:32-34 | with one card it says no although the knock is accepted |
| Runs.ReplayNeverFails | server/internal/game/engine.go:358-403 | a found plan is carried out without an error, empties the hand, and comes to the same as playing its moves one by one |
| Engine.Start | server/internal/game/engine.go:26-61 | the dealt round for an allowed number of players, else the error |
| Engine.Mark | server/internal/game/state.go:96-113 | the marking loop succeeds exactly when the cards are held with multiplicity, and marks their first occurrences |
| Engine.GameState.HandContains | server/internal/game/state.go:96-113 | whether the hand holds the cards, counting copies |
| Engine.GameState.RemoveFromHand | server/internal/game/state.go:117-139 | takes the cards out, or changes nothing if one is missing |
| Engine.LocateTarget | server/internal/game/engine.go:116-130 | the top of the pile, or the wanted card nearest the top |
| PickUps.TargetReaches | server/internal/game/engine.go:116-130 | the target is the top when no card is named, else the place of the named card nearest the top |
| PickUps.PickUpAcceptedIff | server/internal/game/engine.go:98-203 | a pick-up is accepted exactly from the player to draw after the first move, when the place it reaches for exists and its card fits the named meld or makes a meld with enough support from the hand and from above it |
| PickUps.PickUpTakes | server/internal/game/engine.go:136-236 | the pile is cut at that place, its card goes to the table, and the cards above it fall into the hand in their order but for the support |
| Engine.ClaimAbove | server/internal/game/engine.go:173-210 | supporting cards are claimed from the pile first, the rest must come from the hand, and what is unclaimed is left in order |
| Engine.KnockSuitOf | server/internal/game/engine.go:315-330 | whether the player owns a meld and all of theirs are of the knock card's suit |
| Engine.IsLayableOnAny | server/internal/game/engine.go:429-436 | whether some meld takes the card alone |
| Engine.GameState.AbsorbHead | server/internal/game/engine.go:267-277 | records the owner the first time the head card is melded |
| Engine.GameState.DrawDeckCard | server/internal/game/engine.go:84-96 | one card from the deck to the hand, or the end of the round |
| Engine.GameState.PickUpOnto | server/internal/game/engine.go:136-165 | picking a pile card up onto a table meld: new state or error |
| Engine.GameState.PickUpMeld | server/internal/game/engine.go:167-236 | picking a pile card up into a new meld from pile and hand: new state or error |
| Engine.GameState.PickUp | server/internal/game/engine.go:98-236 | the whole discard pick-up with its checks in order |
| Engine.GameState.ApplyMeld | server/internal/game/engine.go:279-293 | laying a meld: new state or error |
| Engine.GameState.ApplyLayOff | server/internal/game/engine.go:295-311 | laying off: new state or error |
| Engine.GameState.ApplyKnock | server/internal/game/engine.go:332-351 | going out with the one card left: new state or error |
| Engine.GameState.ApplyAutoKnock | server/internal/game/engine.go:358-403 | solving and replaying without rollback: new state or error |
| Engine.GameState.ApplyDiscard | server/internal/game/engine.go:405-425 | charging a dump, discarding and passing the turn: new state or error |
| Engine.GameState.ApplyAction | server/internal/game/engine.go:65-80 | the outcome of any action by anyone, with the order of checks |
| Outcomes.ReasonExact | server/internal/game/engine.go:63-425 | every rejection names exactly the reason that applies, in terms of turn, phase, cards held, melds that fit and going out by hand; what has no reason is accepted |
| Effects.LayingMovesCards | server/internal/game/engine.go:279-311 | laying takes the cards out of the hand in order and adds a meld, numbered next, at the end of the table or lengthens the named one |
| Effects.DiscardMovesCard | server/internal/game/engine.go:405-420 | discarding moves the card from the hand to the top of the pile |
| Effects.DeckDrawnInOrder | server/internal/game/engine.go:82-96 | over any run, the cards drawn and what is left of the deck are the deck as dealt |
| Effects.RunListsMelds | server/internal/game/engine.go:279-293 | over any run, each player's list names that player's table melds in order |
| Conservation.ClaimsSplit | server/internal/game/engine.go:173-210 | support and leftovers together are the cards from the hand and the pile above the target |
| Conservation.SimpleActionKeepsCards | server/internal/game/engine.go:65-425 | every action but the auto-knock, accepted or not, leaves the bag of all cards as it was |
| Invariants.HeadInOnePlace | server/internal/game/engine.go:34-51 | the head card is at the bottom of the pile without owner, or in exactly one meld of the recorded owner; never in a hand, the draw pile or the knock |
| Invariants.InitialIsSound | server/internal/game/engine.go:38-59 | every deal starts in the invariant |
| Steps.AutoKnockIsRun | server/internal/game/engine.go:358-403 | an auto-knock is rejected without a trace or is a run of melds, lay-offs and a knock open to the player |
| Steps.ActionKeepsSound | server/internal/game/engine.go:65-425 | any action by anyone keeps the whole invariant |
| Steps.RejectionUndoesNothing | server/internal/game/engine.go:279-287 | a rejected action leaves the state as it was but for a meld number used up by a malformed meld or pick-up |
| History.RunIsSound | server/internal/game/engine.go:26-80 | in every state of every run the 52 cards are accounted for, the table is valid under distinct meld numbers, the head card is in one place, and the produced flag is set exactly for seats owning a meld |
| Reachable.CardsAreConserved | server/internal/game/engine.go:98-236 | hands, piles, table and knocked card are always exactly the 52 distinct cards |
| Reachable.TableStaysValid | server/internal/game/meld.go:42-129 | every table meld reclassifies to its kind and flag, is long enough, and a run ascends strictly in one suit |
| Reachable.AutoKnockExact | server/internal/game/autoknock.go:29-110 | in every meld phase of every run the solver's answer and the engine's acceptance both mean that the player can go out by hand, and the auto-knock empties the hand, exactly when the hand is not a single card |
| Termination.ActionDrops | server/internal/game/engine.go:82-96 | twice the cards to be drawn or melded plus the phase drops with every accepted action |
| Termination.RoundsTerminate | server/internal/game/engine.go:65-96 | a run has at most 163 accepted actions with two players, 153 with three, 151 with four |
| Termination.StuckIffHandMelded | server/internal/game/engine.go:243-258 | a running round accepts nothing exactly in the meld phase with an empty hand |
| Termination.LayingSticksIffWholeHand | server/internal/game/engine.go:279-311 | an accepted meld or lay-off leaves the round stuck exactly when it takes the whole hand |
| Termination.MeldingHandSticks | server/internal/game/engine.go:279-293 | laying the whole hand as one meld is accepted exactly when it is one, and the round is then stuck |
| Cases.AnyDealIsInitial | server/internal/game/engine.go:26-61 | a round can start from any order of the deck |
| Cases.StuckRoundIsReachable | server/internal/game/engine.go:279-293 | for any number of seats and any rules of a room there is a deal after which a draw and a meld leave the round stuck |
| Grammar.TurnGrammar | server/internal/game/engine.go:65-80 | accepted actions are round-robin turns of one draw, melds and lay-offs, one discard; the first draw is from the deck; only a knock or an empty deck ends, last of all; turn and phase show it |
| Grammar.SeatsStay | server/internal/game/engine.go:65-80 | players, their order and the rules never change in a round |
| Endings.RunEnding | server/internal/game/engine.go:315-351 | over any run the last accepted action says how the round ended; a knock leaves the hand empty, and its suit flag is set exactly when the knocker owns melds and all their cards are of the knocked card's suit |
| Attribution.RunAttribution | server/internal/game/engine.go:145-156 | over any run the pile's record names each card's latest discarder, penalties are the discards whose lay-off would have been accepted plus the discards others picked up, and a knock is dark exactly when claimed and nothing was owned at the turn's start |
| Attribution.LayableIffLayOffAccepted | server/internal/game/engine.go:408-412 | a discard is charged exactly when laying that card off instead would have been accepted |
| Attribution.OnlyHeadUndiscarded | server/internal/game/engine.go:44-48 | only the head card, while unmelded, lies in the pile without a discarder |
| Attribution.HeadBonusByPickUpOnly | server/internal/game/engine.go:267-277 | only picking up the bottom card of the pile decides the head bonus, once |
| HandSizes.HandLengths | server/internal/game/engine.go:82-425 | by how much each accepted action changes the hand of its player, a pick-up by the cards above the target less the supporting cards; no other hand changes |
| HandSizes.HandGrowsIff | server/internal/game/engine.go:201-228 | a hand grows exactly by a draw from a deck that is not empty or a pick-up with more cards above its target than supporting cards |
| HandSizes.HandsStaySmall | server/internal/game/autoknock.go:10 | in a run without such pick-ups no hand is longer than it was dealt, but for one card in its turn, so none has more than twelve |
| Cases.HandOutgrowsBound | server/internal/game/engine.go:222-229 | for any number of seats there is a deal from which, after any number of times round the table, the leader can pick up every card discarded, the hand growing by all but those it lays |
| Cases.HandOf37 | server/internal/game/autoknock.go:10 | two players can come to a hand of 37 cards |
| HandSizes.OthersKeepTheirs | server/internal/game/engine.go:82-425 | over any run, a seat that owns no meld, or owned none when its turn began, leaves the others at least as many cards as they were dealt |
| HandSizes.DarkKnockerIsFresh | server/internal/game/engine.go:345-346 | over any run a dark knocker owned no meld when the turn began |
| Scoring.MeldPoints | server/internal/game/scoring.go:18-25 | the sum of the cards' values with the Ace high where it is |
| Scoring.ScoreRound | server/internal/game/scoring.go:33-82 | every seat's breakdown: owned melds, bonuses, hand and dump penalties, total |
| RoundTotals.SeatScore | server/internal/game/scoring.go:33-82 | over any run every row is exact: the owned melds' cards and nine per Ace-high run, 50 for the head, 50 and 50, 100 or 200 for the knock by dark and one-suit board, less the hand and 50 per charge |
| RoundTotals.LowIs | server/internal/game/card.go:113-128 | the values of the cards with the Ace low |
| PointsTheorems.MeldWorth | server/internal/game/scoring.go:18-25 | a valid meld is worth its cards with the Ace low, plus nine if it is an Ace-high run, which has one Ace |
| PointsTheorems.LayOffPoints | server/internal/game/scoring.go:18-25 | what a lay-off adds to a meld's points |
| PointsTheorems.LayOffLowersPoints | server/internal/game/meld.go:61-63 | a lay-off lowers a meld's points exactly when it completes the suit of an Ace-high run with less than nine points |
| PointsTheorems.TwoOfDiamondsLowersRun | server/internal/game/meld.go:61-63 | the Two of diamonds onto Three to Ace of diamonds costs seven points |
| PointsTheorems.PointsAreConserved | server/internal/game/scoring.go:33-82 | meld points less hand penalties plus the piles and the knocked card are 428 and nine for each of at most four Ace-high runs |
| RoundTotals.TotalsAddUp | server/internal/game/scoring.go:33-82 | all totals together are 428 and nine per Ace-high run, less the piles, the knocked card, twice the hands and 50 per charge, with the bonuses |
| PointsTheorems.KnockIsRecorded | server/internal/game/engine.go:332-351 | over any run, once someone has knocked the suit flag tells whether they own a meld and all of theirs are of the knock card's suit |
| PointsTheorems.SuitKnockBound | server/internal/game/scoring.go:50-59 | a knocker whose board is of one suit scores at most 142 on melds |
| PointsTheorems.DarkMeldsBound | server/internal/game/engine.go:346-347 | a dark knocker scores at most 425 on melds, for the others still hold the cards that cannot be among them |
| PointsTheorems.RoundTotalBound | server/internal/game/scoring.go:50-80 | no seat's round total exceeds 625: at most 514 without knocking, 613 with a knock, 625 with a dark one, 342 and 442 with a board of one suit |
| Combos.NextIsListed | server/internal/game/suggest.go:101-112 | the successor of a listed combination is the next one listed, and the last has none |
| Combos.ListedAreCombos | server/internal/bot/bot.go:209-228 | only ascending index tuples in range are listed |
| Combos.CombosAreListed | server/internal/bot/bot.go:209-228 | every ascending index tuple in range is listed |
| Combos.ListIsOrdered | server/internal/bot/bot.go:209-228 | the list is in strict lexicographic order, so nothing repeats |
| Combos.Advance | server/internal/game/suggest.go:101-112 | the in-place step leaves the successor, or reports that there is none |
| Combos.FirstCombo | server/internal/game/suggest.go:89-113 | the loop visits the list from the start up to the first combination that stops it |
| Combos.Combinations | server/internal/bot/bot.go:209-228 | the recursion visits the same list below its prefix, up to the first that stops it |
| Bot.EnumeratorsAgree | server/internal/game/suggest.go:89-113 | loop and recursion visit the same combinations in the same order and stop at the same one, missing none |
| Bot.BestMeld | server/internal/bot/bot.go:130-166 | the first listed of the largest melds of three to five cards under the bot's rules that leave a card, or none when there is none |
| Bot.BestMeldAccepted | server/internal/bot/bot.go:130-166 | the best meld is accepted exactly when the room takes melds of three or the hand has one of four cards that leaves a card |
| Bot.BotPlayIsLegalIffSafe | server/internal/bot/bot.go:108-125 | whatever the bot plays on its turn is accepted exactly in the rounds that are safe for it |
| Bot.BotHasPlay | server/internal/bot/bot.go:108-125 | in a running round the bot has something to play unless its hand is empty |
| Cases.BotPlaysIllegally | server/internal/bot/bot.go:39-42 | in a room whose melds need four cards there is a deal on whose first turn the bot plays an illegal meld |
| Hints.FirstNewMeld | server/internal/game/suggest.go:83-114 | the first combination of the minimum length that is a meld |
| Hints.FirstMeldExact | server/internal/game/suggest.go:83-114 | probing the minimum length only finds a meld exactly when cards of the hand of any number form one |
| Hints.HighestValueCard | server/internal/game/suggest.go:118-130 | the first of the cards worth most |
| Hints.SuggestMove | server/internal/game/suggest.go:27-78 | knock, else meld, else single lay-off, else discard, each the first found |
| HintOrder.HintPriorities | server/internal/game/suggest.go:24-78 | a seat is hinted to knock exactly when it could go out and has not just one card, else to meld exactly when some meld would be accepted, else to lay off exactly when some lay-off would, else to discard |
| HintOrder.HintNamesFirst | server/internal/game/suggest.go:37-77 | the hint names the first card that can be kept back, the lexicographically first meld, the first card of the first meld that takes one, or the first of the dearest cards |
| HintOrder.DrawHintIff | server/internal/game/suggest.go:27-33 | to draw is hinted exactly in the draw phase and without a seat |
| HintProof.HintIsAccepted | server/internal/game/suggest.go:27-78 | in the meld phase with cards in hand the suggested action is accepted |
| HintProof.DiscardHintIffNothingToLay | server/internal/game/suggest.go:46-77 | a discard is suggested exactly when no meld of any size and no lay-off of any batch would be accepted |
| Reachable.HintsExact | server/internal/game/suggest.go:27-78 | both hold in every reachable state |
| RoomLayer.Room.JoinWith | server/internal/room/hub.go:364-383 | who is seated, or the error, in the order of the checks |
| RoomLayer.Room.Attach | server/internal/room/hub.go:426-444 | binds a connection, taking a seat only before a round; refuses exactly the guests left without a seat |
| RoomLayer.Room.MarkReady | server/internal/room/hub.go:860-884 | clears a settled match, marks the seat, and says whether to start |
| RoomLayer.Room.StartRound | server/internal/room/hub.go:892-922 | deals one round unless one is running |
| RoomLayer.Room.HandleGameAction | server/internal/room/hub.go:946-987 | applies the guest's action; the handler that ends the round is the one to finish it |
| RoomLayer.Leader | server/internal/room/hub.go:1050-1061 | whether the target is reached, and the first seat with the highest score |
| RoomLayer.Room.FinishRound | server/internal/room/hub.go:1027-1074 | adds every seat's total, frees the table, clears ready, sets finished |
| RoomModel.EventKeepsRoom | server/internal/room/hub.go:364-1074 | every lock section keeps the room in order and indexes in range |
| RoomModel.RoundsFinishOnce | server/internal/room/hub.go:892-1074 | under every interleaving players match seats while a round runs, one handler is on its way to finish exactly when a round is over, every dealt round is scored once, and scores are the sums of the rounds scored |
| RoomEffects.EventSeats | server/internal/room/hub.go:364-444 | every lock section seats whom it should and does to every seat what it should, guest by guest |
| RoomEffects.JoinErrorIff | server/internal/room/hub.go:364-383 | each answer to a joining guest is given exactly when its condition holds |
| RoomEffects.WrongPasswordNeverSeats | server/internal/room/hub.go:373-375 | under every interleaving a guest who only joins, and with wrong passwords, never has a seat in a protected room |
| RoomEffects.StartsIff | server/internal/room/hub.go:892-922 | a round is dealt exactly when none is on and two guests sit, to them in order, under the room's rules, from the shuffled deck |
| RoomEffects.OnlyTheGuestAtTurnMoves | server/internal/room/hub.go:946-987 | only the guest at turn can change the round |
| RoomEffects.RoundNumbers | server/internal/room/hub.go:916-919 | the round number counts the rounds dealt and starts over with the scores |
| RoomEffects.MatchFinishesAtTarget | server/internal/room/hub.go:1050-1073 | under every interleaving the match is finished exactly when, after a round since the scores were cleared, one of its players had the target score |
| RoomModel.HangingRoomStays | server/internal/room/hub.go:892-1074 | under every further interleaving a room with a stuck round keeps that round, unfinished and unscored |
| Cases.RoomCanHang | server/internal/room/hub.go:892-1074 | any room and any two guests can come to that |
| RoomLayer.Room.ViewFor | server/internal/room/view.go:60-122 | the view sent to a seat or a spectator |
| Views.ButtonExact | server/internal/room/view.go:118-120 | the auto-knock button is lit exactly when the viewer's auto-knock would be accepted: in its meld phase, when it could go out by hand and has not just one card |
| Views.ViewIsTrue | server/internal/room/view.go:60-122 | what a view says of seats, scores, phase, turn, piles and melds is so, and the only hand in it is the viewer's |
| Views.ViewsTell | server/internal/room/view.go:60-122 | equal views mean the same hand of the viewer, pile, melds, hand sizes and draw count |
| RoomLayer.ButtonFollowsView | server/internal/room/view.go:118-120 | views that agree on everything but the auto-knock button agree on the button |
| RoomLayer.ViewHidesTheRest | server/internal/room/view.go:60-122 | two rooms that agree on seats, seated scores, what is public of the round and the viewer's hand send equal views, the auto-knock button included, whatever else differs |
| Settlement.Wallets.SettleMatch | server/internal/db/db.go:119-165 | the settled wallets, deltas and balances, or nothing changed when a guest is unknown |
| Settlement.SettlementConserves | server/internal/db/db.go:128-163 | each loser pays what it must and can, the winner gets exactly that, deltas add up to nothing, others are untouched and no balance turns negative |
| Settlement.RoomLosersAreDistinct | server/internal/room/hub.go:1110-1119 | a room's losers are its other guests, distinct and without the winner |

## Left out

- Engine.GameState.ApplyAction: the events it returns are not part of the model; the room, its only caller, drops them (`server/internal/room/hub.go:962`).
- Engine.GameState.DrawDeckCard: returns no event, for that reason.
- Engine.GameState.PickUp: returns no events, and assumes record and penalties as long as a dealt round has them.
- Engine.GameState.PickUpOnto: returns no events, and assumes record and penalties as long as a dealt round has them.
- Engine.GameState.PickUpMeld: returns no events, and assumes record and penalties as long as a dealt round has them.
- Engine.GameState.ApplyMeld: returns no event.
- Engine.GameState.ApplyLayOff: returns no event.
- Engine.GameState.ApplyKnock: returns no events; the original's cards can be the zero value, here a card is always one of the 52, as the message decoder guarantees.
- Engine.GameState.ApplyAutoKnock: returns no events; the moves it stands for are `Runs.PlanActions`.
- Engine.GameState.ApplyDiscard: returns no events, and assumes penalties as long as a dealt round has them.
- Engine.GameState.TakePile: `ensureDumpPenaltiesLen` and the length guards serve snapshots from before those fields existed and are not modelled.
- Engine.Start: asks for enough cards to deal, without which the original indexes out of range; it returns no event.
- Solver.PartitionForKnock: mask bits are taken by halving instead of shifting; a hand has at most 52 cards, so the original's masks fit its integers.
- Cards.HandSize and Cards.HandCardPenalty are fixed; the rule set's function fields are only ever set to them.
- Hints.SuggestMove: the reason, a text for the player, is not part of the model.
- PointsTheorems.RoundTotalBound: the bounds are not claimed to be reached.
- RoomLayer.Room.StartRound: match id and countdown fields are not part of the model.
- RoomLayer.Room.HandleGameAction: JSON decoding, point and penalty notices, snapshots and broadcasts after the lock are not part of this model.
- RoomLayer.Room.ViewFor: countdown and turn deadlines, coins, avatars, room id and bet are shown as stored and are not modelled.
- RoomLayer.Room.FinishRound: the stored score rows, the result message and what follows the lock (saving, missions, referral, match result) are not modelled except the settlement.
- RoomEffects.WrongPasswordNeverSeats: attaching a connection takes a free seat without asking for a password (`server/internal/room/hub.go:426-434`); what is checked before a connection is attached is not part of this model.
- Room timers, countdown lengths and auto-play: a timer is an arbitrary event, and nothing is claimed about liveness, in particular not that automatic play ends a turn.
- The bot's choice among its discards, its scheduling and its reading of messages; the removal of whole rooms.
- Card parsing and printing, the lay-off `End` field, spectators beyond their view, chat, reports, friends, shop, tournaments, missions, bonuses, storage and all clients.
- The quality of the seeded generator: shuffles are over arbitrary draws, and `seed` is only stored.
