# A verified model of the labour-deal ledger

Every participant keeps a personal chain of signed blocks, branched along a tree of keys. Deals
are offers of labour paid with named hours of somebody's paper; readers merge branches pairwise
and compute from the blocks alone what happened. This project models the hard part of that
computation in Dafny and proves what it is for. Each module follows one component of the program:

- `Settlement`, `DealsTable`, `Happened`, `SpendRules`, `Conservation`, `PaperViews`, `TwoDeals`: the
  seller's answer, one bill's thread of spends, the mutually recursive verdicts on deals, moves and
  bills, the rules they obey in closed form, and the conservation of paper across the whole table.
- `WalkSteps`, `LazyWalk`, `WalkOrder`, `WalkTruth`, `WalkConservation`: the memoised walk that
  computes those verdicts, with its refusals of questions met in progress; when it refuses nothing,
  and what its answers are worth when it does. `WalkTraces`, `WrongPurse`, `HarmlessLoop`: two
  tables it is followed over step by step.
- `Witnesses`, `Lapse`: by when a position of a branch provably existed; when an unanswered offer
  can no longer be answered by any block to come.
- `Lots`, `LotThread`, `LotCheck`, `LotConservation`: the sub-thread of one lot of goods.
- `Circulation`, `Rings`, `Overlaps`, `Credit`: cycle cancelling, rings of help, hours claimed
  twice, the credit history.
- `LinearSolver`, `LeastSquares`: the in-place Gauss-Jordan solver and the weighted least squares
  it serves.
- `Merkle`, `ParticipantCache`, `SnapshotExchange`: Merkle trees, the cache of merges and its
  completion from an untrusted warehouse.
- `MergeSnapshot`, `Blocks`, `MergeSession`, `MergeDialogue`, `DialoguePump`, `MergeAgreement`:
  the two-party merge over a relay that reorders, repeats and drops.
- `KeyTree`, `KeyPaths`, `Revocations`, `BranchKeys`, `RevocationFold`, `Validator`,
  `BranchJudges`: key lines, revocations and the judges of a branch.
- `WireCbor`, `RelayEnvelope`, `CborItems`, `TransferCodec`, `TransferRoundTrip`: deterministic
  CBOR (section 4.2.1 of RFC 8949), relay envelopes and transfers.

`Sums` holds the sums of reals the others need, `Options` the value that may be absent. `dafny verify dfyconfig.toml` checks everything.

## How things are modelled

- Hours and quantities are reals, with the tolerances of the program as named constants: 1e-9 for
  a bill and for a live flow, 1e-6 for a lot and for an exact payment. Bounds carry them
  explicitly; nothing is said of floating-point rounding.
- A hash is the thing it hashes: injective, with leaves, inner nodes, tree nodes and blocks apart.
  A signature is known by the keys under which it verifies; a co-signature names its signer and
  what is signed.
- The rules that decide most are stated twice: as the functions the methods are proved against, and
  read out in full — terms, dates, signers and sums written down, without those functions — in
  `SpendRules`, `LotThread`, `BranchJudges`, `KeyPaths.CertifiesExactly`, `Credit.Says`,
  `TransferRoundTrip.DealExists`, `MergeAgreement.FoundInOrder`. The two are proved to agree.
- Storage is maps, with one block at each address. Clocks, keys, the transport and the warehouse's
  answers are inputs or nondeterministic.
- Exceptions are results: an absent value or a false flag.
- The tables and lots the main results speak of exist: `TwoDeals.BothHappen` gives a table on which
  paper is passed on, `LotConservation.RestockedAllCount` a lot with an honest return.
- What one program loop does in place is a method over the same state, proved against a function
  or a property of its inputs; objects whose methods change fields are classes.

## What holds, exactly

Some promises hold only under a condition. Each of these is stated with an input that shows the
failing case, and as an equivalence where there is one; where the condition is only sufficient, an
input shows that too.

- `Conservation.TruthConserves`, `WrongPurse.SpentTwice`, `WalkTruth.JudgementIsTrue`: on every
  table whose references name earlier blocks the rules have a reading, and by it paper is
  conserved, out of however many branches a bill is spent. The walk of the program does not always
  find that reading. It settles the spends before the one it judges, even when that one is out of
  the wrong purse and lost anyway, so a spend from another branch can make a question wait for
  itself; the walk then remembers "no" for a question that comes out "yes", and lets ten hours be
  passed on out of five. What holds: the walk gives the true reading whenever every question it
  refused was to be answered "no" (`WalkTruth.JudgementIsTrue`, on any table), and it refuses
  nothing when some order of the deals and moves puts each after the sources of its bills, the
  purchase it stands on and the spends before its own on each bill's list (`WalkTruth.Ranked`,
  `WalkTruth.RefusesNothing`) — as the ages of the blocks do when each bill is spent in the order
  its spends came to exist, and so when it is spent from one branch (`WalkOrder.AgesRank`,
  `Happened.OneBranchIsInOrder`). Such an order is enough but not needed: `HarmlessLoop.ReadRight`
  has a table without one that is read right all the same.
- `Circulation.Circulate`: the circulation stays within the flow exactly when nobody pays himself.
  For a payment to oneself the search closes the edge with itself and the program takes the amount
  off twice, so the residual goes below zero there.
- `Lapse.SeenIsFinal`, `Lapse.StrayReplyMisleads`: the aggregator looks replies up by the hash of
  the deal alone. A reply in the seller's purse that names the hash under another chain makes an
  offer look lapsed that the seller can still accept; with replies naming the deal in full, seen
  and final are one.
- `LotConservation.ResoldThroughOne`, `LotConservation.RefusedLinkStillFrees`: the check of
  numbered units frees what a link returns before it judges the link's own units, so a refused
  link still gives units back. A unit sold again was given back by exactly one link, a sound one;
  that one counts exactly when each of its own units is the lot's and out with nobody but the
  links it gives back. When no sound link is refused it is one that counts.
- `RevocationFold.HearingAllIsEffective`, `RevocationFold.CompromisedAuthorIsHeard`: the aggregator
  hears every certificate that verifies, while the storage-wide search discounts words written
  after their author was itself compromised. Having heard all the words on a branch, the two agree
  exactly when there is none or, of the highest author who spoke, the last word counts and so does
  one with his earliest compromise.
- `MergeAgreement.InOrderFinishesExactly`: the last step of a merge checks the partner's signature
  by the key its leaf node was created with, so an undisturbed merge of a branch whose key was
  rotated never finishes.
- `Validator.BuiltPathCertifies`: a key-rotation block whose payload is too short passes as a block
  of the branch, and a path built with it is refused.
- `TransferRoundTrip.AdmittedReadsBack`: a transfer to node 0xFFFFFFFF is written but not read.
- `LinearSolver.Eliminate`: a division by zero happens exactly for a singular matrix, and
  `LeastSquares.AnswerExactlyWithSignal` says for which observations that is.

## Model

| member | source | states |
|---|---|---|
| Settlement.AnswerOf | modules/records/src/settlement.cpp:7-28 | only the purse being paid answers, its first word in branch order is the one that counts, and a word past the term answers nothing |
| Settlement.AnswersExactly | modules/records/src/settlement.cpp:7-28 | the reply that answers is the earliest of that purse for that deal, and both its own date and the date of its place in the branch are within the term |
| Settlement.ComputeBillCredit | modules/records/src/settlement.cpp:79-84 | a block credits its receiver with the sum of the portions of that issuer's paper |
| Settlement.BillRun.Judge | modules/records/src/settlement.cpp:96-124 | a spend is backed when the thread is whole so far, it is not frozen, lies in the purse, after the arrival, names the spend before it and fits what remains; the first fault breaks the thread for good |
| Settlement.BillRun.Settle | modules/records/src/settlement.cpp:126-139 | a backed spend consumes its hours unless it moves nothing, was refused, or lapsed by the time of the next spend |
| Settlement.CheckBill | modules/records/src/settlement.cpp:141-158 | a bill is its spends sorted by position, each block once, judged and settled one by one |
| Settlement.SortedIsWalkedAsGiven | modules/records/src/settlement.cpp:141-150 | spends already in branch order and distinct are walked as given |
| Settlement.WalkedIsSorted | modules/records/src/settlement.cpp:141-150 | in whatever order spends are handed in, all of them are walked in branch order, none twice in a row |
| Settlement.BillMeaning | modules/records/src/settlement.cpp:96-158 | the backed spends are the longest sound prefix, and the bill has consumed exactly what that prefix holds |
| Settlement.BackedExactlyWhenSound | modules/records/src/settlement.cpp:96-158 | a spend is backed exactly when it and every spend before it are sound, and is unbacked exactly otherwise |
| Settlement.FirstFaultIsTold | modules/records/src/settlement.cpp:96-124 | the fault a broken thread tells is the first fault of the first spend that does not fit, in the order the judge tests them |
| Settlement.NeverOverdrawn | modules/records/src/settlement.cpp:113-139 | a bill never gives out more than was credited, beyond the 1e-9 of one comparison |
| Settlement.PrefixVerdictsStand | modules/records/src/settlement.cpp:141-158 | a reader who has only a prefix of the spends gives them the verdicts they have on the whole |
| DealsTable.SpendsOfIsList | modules/aggregator/src/recognition.cpp:354-373 | each bill has one list of all its spends, each once, in branch order |
| DealsTable.RunIsBatchPrefix | modules/aggregator/src/recognition.cpp:476-525 | walking a bill spend by spend, with the ends known only as they are reached, is walking it as the batch does knowing all ends |
| DealsTable.FinalSpendsInOrder | modules/aggregator/src/recognition.cpp:354-373 | the finally known spends of a bill are in the order and form in which the batch walks them |
| DealsTable.UnfitHoldsNothing | modules/aggregator/src/recognition.cpp:431-438 | a carrier with a portion its bill does not cover is not backed and holds nothing |
| DealsTable.FitDecidesPortion | modules/aggregator/src/recognition.cpp:526-553 | a portion is covered exactly when its own place on its bill's list fits |
| SpendRules.FitExactly | modules/aggregator/src/recognition.cpp:392-525 | in every reading a spend is covered exactly when it and each before it on its bill leave the purse the paper came into, after its acceptance, name the spend before, touch no frozen deposit, and take no more than was brought less what earlier spends keep |
| SpendRules.ReadingsObey | modules/aggregator/src/recognition.cpp:392-562 | in every reading a deal happened exactly when it completes something, was accepted and pays; what does not pay is unbacked — each said of the sets themselves, without runs of bills |
| SpendRules.DepositWaits | modules/aggregator/src/recognition.cpp:454-471 | a deposit spent up to its term, not by buying back nor after a buyback from the same bill happened, is not backed and its deal does not happen |
| SpendRules.DepositWaitsInReading | modules/records/src/settlement.cpp:72-77 | and so in every reading that obeys the rules of the table |
| SpendRules.DepositIsFree | modules/aggregator/src/recognition.cpp:454-471 | past its term, or bought back by this deal or an earlier one that happened, a spend of it is covered exactly by the other rules of the thread |
| SpendRules.SpendTakes | modules/records/src/settlement.cpp:126-139 | a spend takes its hours exactly when it is covered and its carrier stands, and was not refused nor left unanswered past its term by the holder's next spend |
| SpendRules.RefusedGivesBack | modules/records/src/settlement.cpp:129-138 | a refused offer gives its hours back to the bill |
| SpendRules.BillEnds | modules/aggregator/src/recognition.cpp:668-683 | a bill ends with what its source brought, less what its first covered spends keep; those are backed and the rest are not |
| Happened.TruthIsCoherent | modules/aggregator/src/recognition.cpp:374-640 | when references name earlier blocks, from whatever branches the bills are spent, the mutual recursion of addressed, effective, backed, holds, credit and fit ends, and its answers obey every rule of the table |
| Happened.RunOfPurse | modules/records/src/settlement.cpp:96-124 | from the first spend out of another purse on, the thread of a bill is broken; up to it the run is the recursion's |
| Happened.OneBranchIsInOrder | modules/aggregator/src/recognition.cpp:363-373 | a bill spent from one branch is spent in the order its spends came to exist |
| TwoDeals.BothHappen | modules/aggregator/src/recognition.cpp:374-562 | paper born in one deal and passed on in the next: both happen |
| TwoDeals.DepositIsNotPassedOn | modules/aggregator/src/recognition.cpp:454-471 | the same two deals with the first payment a deposit until later: the second does not happen |
| LazyWalk.GatherSpends | modules/aggregator/src/recognition.cpp:354-373 | the scan gathers exactly each bill's list of spends |
| WalkSteps.Ask | modules/aggregator/src/recognition.cpp:431-562 | on every table a question ends, leaves every answer already given as it was and every bill being opened or walked untouched, and leaves nothing new in progress |
| LazyWalk.Walk.Recall | modules/aggregator/src/recognition.cpp:555-562 | a remembered answer is given again; a question in progress is refused |
| LazyWalk.Walk.AskEffective | modules/aggregator/src/recognition.cpp:555-562 | addressed, then answered, then backed, each asked only if the one before was; remembered in place as the specification of the walk says |
| LazyWalk.Walk.AskAddressed | modules/aggregator/src/recognition.cpp:570-658 | the purchase a deal stands on is asked about first, then its own terms count |
| LazyWalk.Walk.AskHolds | modules/aggregator/src/recognition.cpp:431-438 | a deal is asked whether it is addressed before its paper is; a move only the latter |
| LazyWalk.Walk.AskBacked | modules/aggregator/src/recognition.cpp:526-553 | the portions of somebody else's paper are asked about in order until one is not covered |
| LazyWalk.Walk.AskCredit | modules/aggregator/src/recognition.cpp:392-428 | a bill opens with what its source brought this holder, when the source stands |
| LazyWalk.Walk.IsFit | modules/aggregator/src/recognition.cpp:500-525 | a bill is opened once and walked only as far as the spend asked about; while its credit is being decided, or one of its spends settled, it is refused |
| LazyWalk.Walk.Settle | modules/aggregator/src/recognition.cpp:490-499 | a spend that fits is settled by whether its carrier holds, known by the next spend's date; one that does not is passed over |
| LazyWalk.Walk.IsFrozen | modules/aggregator/src/recognition.cpp:454-471 | a deposit is frozen until its term unless bought back by this spend or by an earlier one that is known to hold |
| LazyWalk.Walk.FinishBill | modules/aggregator/src/recognition.cpp:668-683 | at the end each bill stands as its whole run leaves it |
| LazyWalk.ComputeDeals | modules/aggregator/src/recognition.cpp:374-683 | on every table it returns what the walk finds; when the carriers can be ranked and references name earlier blocks, that is the recursive reading, it obeys the rules in closed form — who completes something, is accepted and pays, with terms, dates and deposits written out — and every bill ends as they say and as the batch computes it |
| WalkOrder.AskIsFree | modules/aggregator/src/recognition.cpp:431-562 | when each carrier ranks after all its verdict reads, a question about something earlier than all in progress refuses nothing |
| WalkOrder.AgesRank | modules/aggregator/src/recognition.cpp:374-378 | ages rank the carriers when references name earlier blocks and each bill is spent in order |
| WalkTruth.AskTrue | modules/aggregator/src/recognition.cpp:431-562 | on any table and under any reading that obeys its rules, if all that was refused was to be answered "no", the answer is the reading's and so is all that is remembered |
| WalkTruth.JudgementIsTrue | modules/aggregator/src/recognition.cpp:655-667 | then the deals, the unbacked paper and the moves the walk finds are that reading's |
| WalkTruth.JudgementObeys | modules/aggregator/src/recognition.cpp:392-562 | and they obey the rules in closed form, the moves that stand being those that pay |
| WalkTruth.RankedObey | modules/aggregator/src/recognition.cpp:392-562 | as on every table that can be ranked and whose references name earlier blocks, each bill ending as they say |
| WalkTruth.RefusesNothing | modules/aggregator/src/recognition.cpp:485-525 | the branches that refuse a loop are never met when the carriers can be ranked |
| WalkTruth.OneReading | modules/aggregator/src/recognition.cpp:374-562 | the rules of such a table have one reading |
| WalkTruth.LazyIsBatch | modules/aggregator/src/recognition.cpp:431-562 | every bill of the recursive reading is the one the batch computes from the bill's spends as they ended |
| HarmlessLoop.ReadRight | modules/aggregator/src/recognition.cpp:485-525 | a table whose references all name earlier blocks and that cannot be ranked, on which the walk refuses a question and is right |
| WrongPurse.SpentTwice | modules/aggregator/src/recognition.cpp:431-562 | a table whose references all name earlier blocks, on which the walk lets ten hours be passed on out of five |
| Conservation.PaperIsConserved | modules/aggregator/src/recognition.cpp:392-562 | for every holder and every other issuer, in any reading that obeys the rules of the table, outgoing hours of that paper never exceed incoming ones, beyond the tolerance of one comparison a bill |
| Conservation.TruthConserves | modules/aggregator/src/recognition.cpp:392-562 | and so in the recursive reading of every table whose references name earlier blocks |
| WalkConservation.HarmlessWalkConserves | modules/aggregator/src/recognition.cpp:392-562 | the deals the walk takes for happened conserve paper on any table on which all it refused was to be answered "no" |
| WalkConservation.RankedWalkConserves | modules/aggregator/src/recognition.cpp:392-562 | and so on every table whose references name earlier blocks and whose carriers can be ranked |
| WalkConservation.OneBranchWalkConserves | modules/aggregator/src/recognition.cpp:392-562 | in particular when each bill is spent from one branch |
| Conservation.BillIsCovered | modules/records/src/settlement.cpp:96-139 | what the deals and moves that stand pay from one bill is within its credit |
| Conservation.MovesCancel | modules/aggregator/src/recognition.cpp:445-471 | moves between a holder's own branches bring him exactly what they take from him |
| PaperViews.Footprint | modules/aggregator/src/footprint_view.cpp:96-125 | the footprint's paper table holds, for every issuer and holder, the balance of the deals that moved hours |
| PaperViews.BalanceIsFlow | modules/aggregator/src/footprint_view.cpp:107-125 | a balance of somebody else's paper is what came less what was passed on |
| PaperViews.BalancesNeverNegative | modules/aggregator/src/footprint_view.cpp:107-125 | no balance goes below zero, beyond the tolerance; one's own paper is never held |
| PaperViews.Economy | modules/aggregator/src/economy_view.cpp:75-97 | the totals issued and redeemed are those of the deals that moved hours |
| PaperViews.CirculationIsIssuedLessRedeemed | modules/aggregator/src/economy_view.cpp:79-97 | over all holders an issuer's paper sums to what he issued less what came home |
| Circulation.FindCycle | modules/aggregator/src/rates_view.cpp:49-75 | the backtracking search finds a way back of exactly the length asked for, or there is none; the visited set and the path are restored |
| Circulation.PushAround | modules/aggregator/src/rates_view.cpp:96-98 | pushing along a closed walk keeps residual plus circulation and every node's balance |
| Circulation.CancelLength | modules/aggregator/src/rates_view.cpp:90-100 | after the pass of one length no live cycle of that length is left and none shorter has come back |
| Circulation.Circulate | modules/aggregator/src/rates_view.cpp:80-105 | the circulation is what greedy cancelling pushes around closed walks of at most the given length, shorter ones first, each by the least that is left on it; it is non-negative, balanced at every node, leaves no short simple cycle with more than a billionth on every payment, and stays within the flow exactly when nobody pays himself |
| LinearSolver.ChoosePivot | docs/pilot/axis-prices.py:60 | the pivot row has the largest absolute value in its column from the diagonal down |
| LinearSolver.EliminateColumn | docs/pilot/axis-prices.py:59-67 | one column is cleared but for its diagonal, earlier columns stay cleared, and the solutions stay the same |
| LinearSolver.NoPivotIsSingular | docs/pilot/axis-prices.py:60-65 | a column without a pivot means the matrix is singular |
| LinearSolver.Eliminate | docs/pilot/axis-prices.py:58-68 | in-place elimination with row swaps divides by zero exactly when the matrix is singular; otherwise it returns the one solution |
| LeastSquares.Accumulate | docs/pilot/axis-prices.py:45-53 | the normal matrix and right-hand side are the weighted sums over the observations |
| LeastSquares.SolveWls | docs/pilot/axis-prices.py:43-68 | the answer is the one solution of the ridged normal equations, and there is none exactly when their matrix is singular; with weights not negative no other prices have a smaller weighted squared error with the ridge, the given part of the heaviest feature's weight |
| LeastSquares.SolutionMinimises | docs/pilot/axis-prices.py:43-68 | what is returned minimises the weighted squared error plus the ridge's penalty |
| LeastSquares.BestPrices | docs/pilot/axis-prices.py:43-68 | what solves the ridged normal equations has the least sum of weighted squares plus penalty of all, both written as sums over the observations |
| LeastSquares.RidgeIsOfHeaviest | docs/pilot/axis-prices.py:54-56 | the ridge is the given part of the largest weighted sum of a feature's squares |
| LeastSquares.AnswerExactlyWithSignal | docs/pilot/axis-prices.py:54-68 | with weights not negative and a positive ridge factor there is an answer exactly when some feature of some weighted observation is not zero |
| Merkle.NextLevel | modules/blockchain/src/merkle.cpp:23-31 | a level up pairs neighbours and promotes a lone odd tail |
| Merkle.Root | modules/blockchain/src/merkle.cpp:44-50 | the root is the last level of repeated pairing, zero for no leaves |
| Merkle.RootBinds | modules/blockchain/src/merkle.cpp:14-50 | equal roots force equal lists of leaves, length and order included |
| Merkle.MakeProof | modules/blockchain/src/merkle.cpp:56-80 | a proof exists for exactly the indices in range and lists the siblings bottom up |
| Merkle.ApplyProof | modules/blockchain/src/merkle.cpp:82-91 | a proof is applied step by step, as far as both its lists go |
| Merkle.Verify | modules/blockchain/src/merkle.cpp:93-98 | a proof of unequal lists is refused; else it must lead to the root |
| Merkle.VerifiesExactlyMadeProofs | modules/blockchain/src/merkle.cpp:56-98 | a leaf-tagged hash verifies against a list's root with exactly the proofs made for the places where it stands |
| ParticipantCache.Cache.PutComposition | modules/sync/src/participant_cache.cpp:149-162 | an entry always agrees with its key, and the order of the two roots does not matter |
| ParticipantCache.MerklePath | modules/sync/src/participant_cache.cpp:178-220 | whatever the table holds the search ends and finds a leaf exactly when it lies under the root; in a table keyed by its children the proof leads from the leaf to the root |
| ParticipantCache.Cache.BuildProof | modules/sync/src/participant_cache.cpp:222-232 | a proof is assembled exactly when the record is cached and the leaf lies under the root, and it verifies |
| ParticipantCache.Cache.RecordMerge | modules/sync/src/participant_cache.cpp:252-268 | a finished merge stores the leaves its tips reveal and the union of the roots |
| ParticipantCache.MergeKeepsMembers | modules/sync/src/participant_cache.cpp:252-268 | every member of either snapshot lies under the union a merge records |
| SnapshotExchange.CompleteCache | modules/sync/src/snapshot_exchange.cpp:42-87 | whatever the warehouse answers the walk ends, the cache keeps its entries keyed right and gains exactly the rightly answered compositions and leaves among the digests it could reach |
| SnapshotExchange.CompletedReachesMet | modules/sync/src/snapshot_exchange.cpp:42-87 | afterwards exactly the digests reached through the cache or right answers lie under the root in the cache |
| SnapshotExchange.CompletedProvesEveryMember | modules/sync/src/snapshot_exchange.cpp:42-87 | from a complete canonical warehouse every member of the root gets its record and a path |
| MergeSnapshot.MergeSketch | modules/blockchain/src/hll.cpp:40-43 | sketches merge register by register to the larger |
| MergeSnapshot.UnionCommutes | modules/blockchain/src/merge_snapshot.cpp:13-22 | both sides of a merge commit the same union |
| MergeSession.Session.CreatePending | modules/blockchain/src/merge_session.cpp:117-185 | the draft follows the own tip, takes the partner's and commits the union; it is written before the grown snapshot: a refusal or a failed first write stores nothing, a failed second one leaves the draft and gives none |
| MergeSession.PendingSays | modules/blockchain/src/merge_session.cpp:117-185 | a draft is given exactly when both branches have a tip, the own one may be written and both writes succeed; it follows the own tip, takes the partner's and commits the union, field by field |
| MergeSession.Session.Finalize | modules/blockchain/src/merge_session.cpp:196-238 | a merge is final exactly with the partner's signature over the draft; the seal and the partner's block are kept |
| MergeSession.FinalizedSays | modules/blockchain/src/merge_session.cpp:196-238 | one seal is added, of the partner's key over the draft at its time, every seal can be checked, and the partner's block is known from then on |
| MergeDialogue.MergeDialogue.Start | modules/sync/src/merge_dialogue.cpp:125-138 | an offer of the own tip and snapshot, once; anything else fails the dialogue |
| MergeDialogue.MergeDialogue.OnMessage | modules/sync/src/merge_dialogue.cpp:140-218 | every message in every state has the one outcome of the state machine, storage included |
| DialoguePump.Pump.Ship | modules/sync/src/dialogue_channel.cpp:83-93 | messages take consecutive numbers and a refusal of the transport leaves the rest unsent |
| DialoguePump.Pump.Feed | modules/sync/src/dialogue_channel.cpp:101-115 | foreign and repeated envelopes change nothing; else everything due is handed over in order until something is missing, the dialogue is over or the transport refuses |
| DialoguePump.ReceivedComes | modules/sync/src/dialogue_channel.cpp:101-106 | an envelope of the peer in this session comes once with what it brought; another's, or one that came before, changes nothing |
| DialoguePump.NoneIsLost | modules/sync/src/dialogue_channel.cpp:107-115 | what came stays waiting or was handed over, so once all numbers below one came and none is due, all were handed over |
| MergeAgreement.MessageKeepsSide | modules/sync/src/merge_dialogue.cpp:140-218 | whatever one side is handed, in any state: it co-signs only what it read and found in order, and is done only with the partner's signature over its own draft |
| MergeAgreement.RunsKeepInv | modules/sync/src/dialogue_channel.cpp:83-115 | in every reachable state what was handed over is the beginning of what the peer sent, each message once |
| MergeAgreement.EveryRunAgrees | modules/sync/src/merge_dialogue.cpp:125-218 | over a relay that reorders, repeats, delays and drops, while storages change as they like: a side that is done has a partner who read that very draft, both drafts commit one union at agreeing times, and each takes the other's tip as the deals table's pair test asks |
| MergeAgreement.AgreedArePaired | modules/aggregator/src/recognition.cpp:176-206 | two drafts that agree are taken for halves of one merge, both ways |
| MergeAgreement.DoneWasReadDespiteForgery | modules/blockchain/src/merge_session.cpp:71-96 | over every run of a relay that invents messages but cannot sign for the partner, a side done by the partner's key has a draft the partner read and found in order |
| MergeAgreement.InOrderFinishesExactly | modules/sync/src/merge_dialogue.cpp:125-218 | an undisturbed run finishes on both sides exactly when both branches are ready, the storages keep what they are given, each trusts the other's tip and the clocks agree; a rotated key is not ready |
| Lapse.BranchTime | modules/aggregator/src/recognition.cpp:133-141 | every position of a branch carries the latest date claimed up to it |
| Witnesses.WitnessTimes | modules/aggregator/src/recognition.cpp:208-212 | sorted by position, every fix carries the earliest time of its own and all further ones |
| Witnesses.WitnessedAt | modules/aggregator/include/aggregator/recognition.h:221-228 | the earliest merge that fixes a position, none exactly when every fix lies before it |
| Lapse.LapseLevel | modules/aggregator/src/recognition.cpp:292-331 | a lapse is seen or better exactly when the point looked at is on the table with the whole purse before it, and witnessed exactly when a merge fixes that point too |
| Lapse.JudgedAsThePurse | modules/records/src/settlement.cpp:7-28 | the judge of replies finds an answer exactly when the purse holds one |
| Lapse.LapseIsFinalExactly | modules/aggregator/src/recognition.cpp:292-331 | no later block can answer an unanswered offer exactly when there is a point of no return: a whole prefix ending in a reply to it or a date past its term |
| Lapse.FinalIsSeen | modules/aggregator/src/recognition.cpp:292-331 | what has lapsed for good is seen to have lapsed |
| Lapse.SeenIsFinal | modules/aggregator/src/recognition.cpp:292-331 | while replies name the deal in full, seen and final are one |
| Lapse.StrayReplyMisleads | modules/aggregator/src/recognition.cpp:302-306 | a reply naming the hash under another chain makes an offer look lapsed that can still be accepted |
| LotCheck.Judge | modules/records/src/goods_thread.cpp:114-145 | a link is sound when it is alone at its number, within the lot, returns honestly and goes on from its previous one |
| LotCheck.Walk | modules/records/src/goods_thread.cpp:147-170 | walking the sound links in order, those that count are the ones taking only units nobody holds |
| LotCheck.CheckLot | modules/records/src/goods_thread.cpp:94-184 | the digest tells exactly the links that count and those that do not, the forked numbers, the gaps, what the newest link that counts says is used, and which units are held; of a row of links under their own numbers nothing is invalid or missing exactly when each is written well, and then what is used is what the last one says |
| LotThread.CountsExactlyWhenWell | modules/records/src/goods_thread.cpp:94-184 | a row of links counts from end to end, with none missing, exactly when each goes on from the one before, returns different earlier releases that had expired, were taken by nobody and were not returned before, and names free units |
| LotThread.OneMoreCounts | modules/records/src/goods_thread.cpp:94-184 | where every link counts, one more that is so written counts too and takes none of the others' place |
| LotCheck.RowDigest | modules/records/src/goods_thread.cpp:174-184 | of such a row nothing is invalid or missing exactly then, and what is used is what the last link says |
| Lots.HoldersAreStillOut | modules/records/src/goods_thread.cpp:159-171 | a unit is held by a link exactly when that link counts, named it, and no sound link gave it back |
| Lots.SoldAgainOnlyIfGivenBack | modules/records/src/goods_thread.cpp:114-170 | of two links that count and name one unit, the earlier was a release that had expired, untaken, and was given back once by a sound link in between |
| LotConservation.GoodsAreConserved | modules/records/src/goods_thread.cpp:114-184 | with no link refused and none missing, what is used is what was taken and not given back, within 1e-6 a link, and within the lot |
| LotConservation.UsedIsHeld | modules/records/src/goods_thread.cpp:159-179 | in a numbered lot the units held are then as many as it counts as used |
| LotConservation.RestockedAllCount | modules/records/src/goods_thread.cpp:114-184 | an expired release given back by the next link: every link counts |
| LotConservation.CountsIfOwnUnitsFree | modules/records/src/goods_thread.cpp:147-170 | a sound link counts exactly when each unit it names is the lot's and out with no link but one it gives back |
| LotConservation.ResoldThroughOne | modules/records/src/goods_thread.cpp:114-170 | of two links that count and name one unit, the earlier is given back by exactly one link, sound and in between, which counts exactly when its own units are free |
| LotConservation.ResoldThroughCounting | modules/records/src/goods_thread.cpp:114-170 | when no sound link is refused for its units, it is one that counts |
| LotConservation.RefusedLinkStillFrees | modules/records/src/goods_thread.cpp:160-170 | a link refused for its units frees what it returns all the same: a unit is sold again though no link that counts gave it back |
| KeyTree.IsAncestor | modules/blockchain/include/blockchain/types.h:99-104 | climbing by heap arithmetic decides strict ancestry |
| KeyTree.DepthIsLogarithm | modules/blockchain/include/blockchain/types.h:81-85 | the depth is the whole part of the binary logarithm of the index plus one |
| KeyTree.OneAncestorADepth | modules/blockchain/include/blockchain/types.h:99-104 | a node has one ancestor at each depth |
| KeyTree.AboveIsInRange | modules/blockchain/include/blockchain/types.h:99-104 | a node is above another exactly when, some number of steps down, the other lies in the row of nodes below it |
| KeyPaths.VerifyNodePath | modules/blockchain/src/key_path.cpp:10-44 | a node path passes exactly when it starts at a self-signed root and each node is signed by its parent's key |
| KeyPaths.VerifyKeyPath | modules/blockchain/src/key_path.cpp:84-109 | a key path passes exactly when its key changes are of that branch, in order, each signed by the key before it |
| KeyPaths.CertifiesExactly | modules/blockchain/src/key_path.cpp:10-109 | a certificate read out node by node and change by change: hashes, positions, order and whose key signed each |
| KeyPaths.FindSignerKey | modules/blockchain/src/key_path.cpp:111-118 | the signer key is the node's key carried through the key changes |
| KeyPaths.CertifiedGoesOn | modules/blockchain/src/key_path.cpp:84-109 | a certified path stays certified under the next key change signed by its signer key |
| KeyPaths.LineExtends | modules/aggregator/src/branch_keys.cpp:24-33 | a longer row of key changes has a longer line of keys and the same beginning |
| BranchKeys.VerifyCertificate | modules/blockchain/src/revocation.cpp:26-56 | a certificate holds exactly when a strict ancestor's node key signed a word on a valid node that is not the root |
| BranchKeys.HoldsExactly | modules/blockchain/src/revocation.cpp:26-56 | a revocation certificate read out: nodes down from a self-signed root, the author's key under the word, a node below the author's and not the root |
| BranchKeys.BranchKeys.LearnPath | modules/aggregator/src/branch_keys.cpp:47-69 | every stored path is certified with exactly its own line; a path replaces a known one only by carrying it further |
| BranchKeys.BranchKeys.LearnRotation | modules/aggregator/src/branch_keys.cpp:71-92 | a key change is taken only when the line's last key signed it: after a compromise the replacement's line, else the branch's own; known lines only grow |
| BranchKeys.RotationsSay | modules/aggregator/src/branch_keys.cpp:70-92 | only the branch's own entry changes: past the compromise only the replacement's line, else only the own line by a later block, each only when its last key signed |
| BranchKeys.BranchKeys.LearnRevocation | modules/aggregator/src/branch_keys.cpp:94-120 | a certificate that holds is heard by rank, compromise and place; its line starts at the replacement |
| BranchKeys.BranchKeys.Check | modules/aggregator/src/branch_keys.cpp:122-133 | a block past the compromise is taken exactly when a key of the replacement's line signed it, any other exactly when a key of the branch's own line or of that one did; a frozen branch signs nothing after its compromise |
| Revocations.CollectRevocations | modules/blockchain/src/validator.cpp:187-238 | exactly the words that count on a node, root-most author first; the two searches call each other and end |
| Revocations.EffectiveRevocation | modules/blockchain/src/validator.cpp:285-303 | the highest author decides, with its earliest compromise and its last replacement |
| Revocations.DecisionExists | modules/blockchain/src/validator.cpp:285-303 | there is a decision exactly when some word counts |
| Revocations.CountsExactly | modules/blockchain/src/validator.cpp:187-238 | a word counts when its author was not yet compromised by its date, and later exactly when the key that replaced the author's signed it |
| Revocations.LateWordDecides | modules/blockchain/src/validator.cpp:205-303 | the only word on a node, written late and signed by its author's replacement, decides it; signed otherwise it leaves the node as it was |
| RevocationFold.FoldDecides | modules/aggregator/src/branch_keys.cpp:94-120 | hearing words in any order and any number of times comes to the highest author's earliest compromise and last word |
| RevocationFold.HearingAllIsEffective | modules/aggregator/src/branch_keys.cpp:94-120 | hearing all the words on a branch gives what the storage-wide search gives exactly when there is none, or the highest author's last word and one with his earliest compromise count |
| RevocationFold.AllCountIsEffective | modules/blockchain/src/validator.cpp:188-238 | in particular when no word is discounted for its author's own compromise |
| RevocationFold.CompromisedAuthorIsHeard | modules/blockchain/src/validator.cpp:208-222 | a signed word with a certificate that holds, written after its author's compromise, is heard by the aggregator though the search discounts it |
| RevocationFold.HearBoth | modules/aggregator/src/branch_keys.cpp:94-120 | told both certificates, the aggregator holds the branch frozen that the search finds untouched |
| Validator.ValidateBranch | modules/blockchain/src/validator.cpp:62-101 | a branch is accepted exactly when it hangs together in hashes and time and each block is signed by the line, switching at most once to the replacement |
| Validator.BranchRevocationStatus | modules/blockchain/src/validator.cpp:103-170 | the status of every block, and the next key, as the lenient walk finds them |
| Validator.AcceptedExactlyWhenTidy | modules/blockchain/src/validator.cpp:62-170 | a branch is accepted exactly when it is chained and its status succeeds with no block of the old key after the replacement; an active or switched branch goes on with the same key |
| BranchJudges.AcceptedExactly | modules/blockchain/src/validator.cpp:62-101 | a branch is accepted exactly when hashes and times run on and at one block at most the signing passes from its own line of keys to the replacement's, for good |
| BranchJudges.StatusExactly | modules/blockchain/src/validator.cpp:103-170 | the status is exactly: active under the last key of the own line, frozen without a next key, or replaced under the replacement's line; blocks of the own line marked by their date against the compromise, later ones by whose key signed them |
| Validator.EffectiveWorkingKey | modules/blockchain/src/blockchain.cpp:193-207 | the plain fold over key changes |
| Validator.BuildPath | modules/blockchain/src/key_path.cpp:65-82 | the path built is the stored nodes to the root and the stored key changes in order |
| Validator.OneKeyWithoutRevocation | modules/blockchain/src/key_path.cpp:65-118 | an accepted branch nobody revoked has one key: by the strict judge, its status, the plain fold and its built path |
| Validator.BuiltPathCertifies | modules/blockchain/src/key_path.cpp:65-109 | the built path is certified exactly when its nodes link up to the chain and no key change is without a key |
| Rings.Search.Walk | modules/aggregator/src/match_view.cpp:196-217 | the walk adds exactly the rings that begin with its path, and leaves the path as it was |
| Rings.FindRings | modules/aggregator/src/match_view.cpp:190-226 | the rings listed are exactly the simple cycles of two to six, each once, from the smallest member, the tightest first |
| Rings.SmallestFirst | modules/aggregator/src/match_view.cpp:203-208 | every simple cycle of the right length is told as a ring in exactly one of its turns |
| Overlaps.Sweep | modules/records/src/goods_thread.cpp:56-75 | one pass that keeps the furthest reaching work marks exactly the works that cross another; every pair listed crosses |
| Overlaps.FindOverlaps | modules/records/src/goods_thread.cpp:17-75 | a work overlaps exactly when it and some other work claim crossing hours, each block counted once |
| Overlaps.CrossInOneSecond | modules/records/src/goods_thread.cpp:14-17 | two works cross exactly when both claim some second |
| Overlaps.FurthestTells | modules/records/src/goods_thread.cpp:56-75 | what crosses an earlier work crosses the furthest reaching one, and those two cross already |
| Credit.CreditHistory | modules/records/src/credit.cpp:9-94 | the history of all links seen, by number, each block once: issued, redeemed and reversed are sums over their kinds, the highest debt and the largest fall are those of the debt in force, and the flags follow |
| Credit.HistorySays | modules/records/src/credit.cpp:24-93 | for every row of links, forks and gaps included: issued sums self-issues no reversal names, redeemed the redemptions; the debt in force after a link is what it declares less what was never born; the largest debt, the largest fall from an earlier one, the dates, forks and flags follow |
| Credit.RefusedOfferLeavesNoTrace | modules/records/src/credit.cpp:26-93 | in a thread without forks or gaps a self-issue and its later reversal leave everything but the count of reversals as it was without them |
| WireCbor.Writer.PutHead | modules/sync/src/wire_cbor.h:16-28 | a head is written in its shortest form |
| WireCbor.Reader.ReadHead | modules/sync/src/wire_cbor.h:46-63 | a head is read exactly when it is of the type asked for and in its shortest form |
| WireCbor.HeadReadsBack | modules/sync/src/wire_cbor.h:16-63 | a head written is read back, whatever follows |
| WireCbor.HeadHasOneForm | modules/sync/src/wire_cbor.h:46-63 | a head read is the one that would be written: there is no second form |
| WireCbor.BstrHasOneForm | modules/sync/src/wire_cbor.h:30-71 | the same for byte strings |
| RelayEnvelope.Encode | modules/sync/src/dialogue_channel.cpp:33-42 | an envelope's bytes are its fields in order |
| RelayEnvelope.Layout | modules/sync/src/dialogue_channel.cpp:33-42 | the bytes of an envelope: an array of five, version one, a session of sixteen bytes, the number, a sender of thirty-two, the blob |
| RelayEnvelope.Decode | modules/sync/src/dialogue_channel.cpp:44-62 | what decodes, and to what |
| RelayEnvelope.DecodesExactlyEncodings | modules/sync/src/dialogue_channel.cpp:33-62 | decoding and encoding relay envelopes are inverse in both directions, so each has one encoding (section 4.2.1 of RFC 8949) |
| CborItems.ItemReadsBack | modules/records/src/codec.cpp:22-75 | an item written is read back, whatever follows |
| CborItems.ItemHeads | modules/records/src/codec.cpp:22-75 | the first bytes of small items, identifiers, doubles and null |
| CborItems.ItemsReadBack | modules/records/src/codec.cpp:22-75 | a row of items reads back with no byte left |
| TransferRoundTrip.CheckTransfer | modules/records/src/codec.cpp:369-454 | what a transfer must be to exist: portions, bills, reason, term, exact payment, return; an admitted deal's hours summed are positive and within 1e-6 of labour plus carried |
| TransferRoundTrip.DealExists | modules/records/src/codec.cpp:408-453 | a record with an acceptance exists exactly when its portions are fit, its term and return are ahead, its reason is the seller's work broken down or his release for what is carried, and the sum of its portions is positive and within 1e-6 of labour plus carried |
| TransferRoundTrip.MoveExists | modules/records/src/codec.cpp:369-407 | one without an acceptance exists exactly when it moves others' paper between own branches, without a term |
| TransferRoundTrip.OnePrice | modules/records/src/codec.cpp:434-440 | of two deals alike but for one portion, differing by more than 2e-6, at most one exists |
| TransferRoundTrip.AcceptanceReadsBack | modules/records/src/codec.cpp:330-357 | an acceptance reads back for every combination of its optional fields |
| TransferRoundTrip.TransferReadsBack | modules/records/src/codec.cpp:619-650 | a transfer's items read back for every combination of its optional fields, none left over, exactly when its node is at most 0xFFFFFFFE |
| TransferRoundTrip.AdmittedReadsBack | modules/records/src/codec.cpp:1296-1366 | every transfer the check admits decodes from its bytes to itself, exactly when its node is one the reader takes |

## Left out

- LazyWalk.ComputeDeals: does not look ahead over all deals at resales of a purchase with an addressed return (modules/aggregator/src/recognition.cpp:613-621), the one question that is not about an earlier block.
- LazyWalk.Walk.AskAddressed: takes the acceptance rules of the deal itself as one flag of the carrier, and does not look ahead at later returns.
- WalkTruth.RefusesNothing: its condition is sufficient for the walk to be right, not necessary, as `HarmlessLoop.ReadRight` shows; which unranked tables are read right is not characterised further than by what was refused.
- Conservation.PaperIsConserved: allows the 1e-9 that judging one spend allows, once for each bill the holder spends from.
- Lapse.LapseLevel: takes the merges that fix the purse as given; which merges on the table do (modules/aggregator/src/recognition.cpp:172-206) is not computed, though the pair test itself is `MergeAgreement.Halves`.
- Rings.FindRings: leaves open the order of rings of one length.
- TransferRoundTrip.AdmittedReadsBack: speaks only of bytes that were written, as the reader of records also takes longer heads and trailing bytes; the writer's buffer and the reader's cursor are values here, and which number the 64 bits of a double stand for is a parameter.
- Acceptance rules of a deal by itself (customer, portion terms, resale and buyback prices, buyout): one flag of the carrier; the seller's answer, with the buybacks agreed to beforehand, is an input of the table. Both are decided without asking about another deal.
- Texts of faults, and the marks of why paper is unbacked: labels that decide nothing.
- Where paper was born, and blocks from the future: computed beside the verdicts, which do not read them.
- Weighting and smoothing of daily prices around the circulation, prediction and cross-validation around the solver: they apply the results.
- The checks of a partner's node path and of known revocations during a merge: one predicate of the storage, which may change between any two steps.
- The partner's nodes imported after a merge, and the best-effort filling of the cache at its end: the latter is `ParticipantCache.Cache.RecordMerge`.
- Byte forms of dialogue messages: a message is a value, and anything that does not decode strictly is one garbage message.
- The rule that a revoked key must be one of the revoked branch's own (`validate_revocation`): a check before writing.
- Locking, loading from storage and write-through persistence: LMDB tables are maps.
- Acceptance pricing, carry threads, buyback prices and holdings: arithmetic over the same records.
- Codecs of the other records and of blocks: the reader refuses a `Tool` with a lot and a `WorkRecord` with six or more optional fields, so no full round trip holds there.
- Profiles, catalogs, rent, discovery, clouds, distances, HTTP, JSON and key generation: plumbing and views.
