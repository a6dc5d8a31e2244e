# Sentinel: a verified model

This project models the parts of the Sentinel moderation platform whose correctness depends on more
than one function, and proves what they are for. `dafny verify dfyconfig.toml` (Dafny 4.11) checks the
whole project.

The model follows the program's own form. Text rewriting is pure functions; the job store, broker,
event processor, submission service, consume loop, review repositories and service, rate limiter, phrase
trie and vector store are classes whose methods change fields in place, each proved equal to a step
function on values. The laws are then proved about those step functions over every run. What a single call
leaves behind is stated a second time, field by field and without the step functions, for processing,
submission, the consume loop, the limiter, the review operations and the evaluation figures.

| files | component |
|---|---|
| `wrappers.dfy`, `sequences.dfy`, `sorting.dfy` | optional values and results; lists without repetition, as the key order of a dictionary; the stable sort |
| `characters.dfy`, `normalization.dfy`, `attacks.dfy` | the normalisation pipeline and the evaluation attacks |
| `attacklaws.dfy`, `flooding.dfy`, `canonical.dfy`, `effects.dfy` | which attacks normalisation cancels, what normal text looks like, and what normalisation and each attack do to a text |
| `pipeline.dfy`, `outcomes.dfy`, `components.dfy` | the job pipeline as atomic steps, what a call leaves behind field by field, and the running components tied to both |
| `noloss.dfy`, `soleworker.dfy`, `draining.dfy` | no event is lost, stored states tell the truth, backlogs drain |
| `provenance.dfy` | every result comes from a verdict, and every event and dead letter from a submission |
| `accounts.dfy`, `continuations.dfy`, `finality.dfy`, `publishes.dfy`, `races.dfy` | exactly which crashes strand a job, when success is final and when publishes are over, and runs that show the failures |
| `review.dfy`, `ledger.dfy`, `reviewlaws.dfy`, `reviewoutcomes.dfy`, `listing.dfy`, `reviewservice.dfy` | human review: transitions, hash-chained ledger, whole runs, what each operation leaves behind, ordered listings, running service |
| `limiter.dfy`, `limiterlaws.dfy` | the token-bucket limiter and its runs |
| `trie.dfy` | the phrase trie on the heap |
| `jpeg.dfy` | the JPEG marker walk (ITU-T T.81, sections B.1.1.2, B.1.1.4 and B.2.2) |
| `threat.dfy`, `replay.dfy` | campaign counting over a truncated similarity search, and what a replay changes |
| `metrics.dfy`, `evaluation.dfy`, `robustness.dfy` | evaluation metrics, the max ensemble, and what the attack laws mean for a report |

How the larger parts are set up:

- **Job pipeline.** `ProcessStep`, `SubmitStep` and `WorkerNext` are single calls that the store or the
  broker sees. A publish is acknowledged, lost, or delayed: the call fails and the record may arrive at any later time.
  The store is Redis, whose save asks for the key and whose keys expire, or the one in memory. Offsets are positions in one
  log, so they grow along a partition with gaps. `NoLoss` lets any number of workers and clients interleave these
  steps, crash anywhere, be rebalanced while idle, commit stale offsets, and lose Redis keys at any time.
  `SoleWorker` has one worker, submissions as one step and no expiry; crashes and redelivery stay.
  The methods `Process` and `Submit` list, as a ghost result, the worlds between which a crash can fall, and these are the protocol's.
- **Text.** Characters are ASCII and the seven zero-width code points that the program strips; there NFKC is the identity and
  case folding is lowercasing.
- **Review.** The digest is an arbitrary function, injective where a lemma says so. Case ids are injective in
  (request id, policy version) and not empty. A ledger line is blank, a whole record, or unreadable.
- **Limiter.** Time and tokens are reals; the three limits are positive, as the configuration reader requires.
- **Threat search.** Cosine similarity and the point id are arbitrary functions, the latter injective. Points keep their
  insertion order and equal scores keep that order, as in the adapter in memory; what holds for any order of equal scores
  is proved for any (`AnyRankingAssesses`, `OwnSurvivesAnyOrder`).

Results that differ from what one might expect:

- Normalisation does not always cancel character flooding: "book" becomes "booook", which collapses to "bok" while "book" stays.
  `FloodingCancelledExactly` gives the exact condition and how many characters are lost.
- With a search limit of six or more, replaying a request never changes its risk, its maximum similarity or its
  coordinated flag, but it can change its `match_count`. `ReplayCountExactly` tells when from the index before the call:
  the count stays if and only if fewer other requests than the limit are close, or the earlier point and the new one both
  take a result or both take none, where a point takes one if fewer than the limit rank ahead of it. `ReplayCountChanges`
  is a history of calls in which it changes. A request that is new, where the limit is filled by others that score as
  high, keeps its count (`FirstReplayKeepsCount`).
- Six is the least search limit for which risks are right: below it, `SmallerLimitFails` gives a history of calls.
- The architecture document says that repeating an id and content never publishes again
  (`docs/distributed-architecture.md`). The code publishes again when the last publish failed; the model
  follows the code (`SubmitOutcome`, and `FailedPublishRepeats` for a run with two events of one job).
- A crash between creating a job and publishing its event leaves an accepted job that no resubmission revives while its
  record stands (`CrashStrandsJob`). All along a run every stored job has an event, says that its publish failed, or has
  a submission that still has to publish it or say so, if and only if no client crashes that is the only one to owe a
  stored job (`StrandsExactly`).
- Succeeded is not always final, even with one submission: its publish times out, the record arrives and is processed,
  and the client then saves that the publish failed (`LateFailureUndoesSuccess`). A submission that read a failed record
  can put a succeeded job back to accepted (`StaleSaveUndoesSuccess`). `SuccessFinalExactly` gives the condition, for any
  number of workers and clients: a success stays one until its key expires if and only if no submission holds a copy of
  the record that it can still write, and no worker an update of it that is not a success. `SoleWorker.SuccessIsFinal` is
  the law where no worker acts during a submission.
- More than one input publish of a job can be acknowledged (`TwoAcknowledgedPublishes`). `PublishesOverExactly` tells when
  none can follow: the record does not say that a publish failed, and no submission is about to publish or to say that.

## Model

| member | source | states |
|---|---|---|
| AttackLaws.ScanIsReference | src/sentinel/core/normalization.py:7-10 | the greedy left-to-right removal of punctuation blocks drops exactly the marks whose whole block lies between two letters |
| AttackLaws.UppercaseCancelled | src/sentinel/evaluation/attacks.py:11-12 | uppercasing a text does not change its normal form |
| AttackLaws.ZeroWidthCancelled | src/sentinel/evaluation/attacks.py:15-17 | zero-width separators between letters do not change the normal form |
| AttackLaws.LeetspeakCancelled | src/sentinel/evaluation/attacks.py:20-21 | leetspeak does not change the normal form, because the translation table undoes it |
| AttackLaws.PunctuationCancelled | src/sentinel/evaluation/attacks.py:24-26 | dots injected between letters do not change the normal form, whatever marks the text already has |
| Flooding.FloodWordMarks | src/sentinel/evaluation/attacks.py:32-37 | flooding a word triples its first inner vowel and nothing else |
| Flooding.MarkFloodedCorrect | src/sentinel/evaluation/attacks.py:29-39 | flooding is tripling the marked characters of the clean text, and all marked characters are vowels |
| Flooding.JoinedCellsCorrect | src/sentinel/core/normalization.py:29-32 | the case, zero-width, leetspeak and punctuation stages commute with flooding |
| Flooding.CollapseFlooded | src/sentinel/core/normalization.py:33-33 | collapsing runs loses exactly one character for each pair that contains a flooded vowel, and agrees when there is none |
| Flooding.FloodingCancelledExactly | src/sentinel/core/normalization.py:27-34 | flooding leaves the normal form unchanged if and only if no flooded vowel lies in a run of exactly two after the first four stages; otherwise the forms differ by exactly the number of such pairs |
| Flooding.FloodingNotCancelled | src/sentinel/evaluation/attacks.py:29-39 | "book" is a text whose normal form flooding changes |
| CanonicalForm.NormalizeIsCanonical | src/sentinel/core/normalization.py:27-34 | normal text has no zero-width or upper-case character and none of 0, 1, 3, 4, 5, 7, @ and $, no punctuation block between letters, no run of three, only single inner blanks and no outer whitespace |
| CanonicalForm.FixedExactlyWhenCanonical | src/sentinel/core/normalization.py:27-34 | the texts that normalisation leaves alone are exactly those of that shape |
| CanonicalForm.NormalizeIdempotent | src/sentinel/core/normalization.py:27-34 | normalising twice is normalising once |
| TextEffects.SignReadsAsLetter | src/sentinel/core/normalization.py:11-22 | each of the eight signs may be replaced by its letter, anywhere in any text, without changing the normal form |
| TextEffects.CapitalReadsAsSmall | src/sentinel/core/normalization.py:29-29 | so may each capital by its small letter |
| TextEffects.ZeroWidthUnnoticed | src/sentinel/core/normalization.py:4-4 | each of the seven zero-width characters may be inserted anywhere without changing the normal form |
| TextEffects.WordsKept | src/sentinel/core/normalization.py:32-34 | after the table, normalisation drops no letter, digit or blank but by shortening repetitions, and keeps their order |
| TextEffects.ReadOne | src/sentinel/core/normalization.py:29-31 | before blocks and runs, each character is read as its small letter or the letter of its sign, a zero-width one as nothing, and any other as itself |
| TextEffects.ZeroWidthByCode | src/sentinel/core/normalization.py:4-4 | the zero-width characters are the seven with these codes |
| TextEffects.ClassesByCode | src/sentinel/core/normalization.py:5-10 | letters, digits, whitespace, marks and vowels are those with the listed codes |
| TextEffects.UppercaseEffect | src/sentinel/evaluation/attacks.py:11-12 | every small letter becomes its capital and nothing else changes |
| TextEffects.LeetspeakEffect | src/sentinel/evaluation/attacks.py:20-21 | every small a, e, i, o and s becomes 4, 3, 1, 0 and 5, and nothing else changes |
| TextEffects.InsertionEffect | src/sentinel/evaluation/attacks.py:15-26 | exactly one separator stands between any two adjacent letters, and every character is still there, moved by the separators before it |
| TextEffects.InsertingAttacks | src/sentinel/evaluation/attacks.py:15-26 | the two inserting attacks insert a zero-width space and a dot |
| Normalization.PunctLength | src/sentinel/core/normalization.py:7-10 | the length of the block of non-word marks at the front: all of it is marks and the next character is not |
| Normalization.RunLength | src/sentinel/core/normalization.py:6-6 | the length of the run of equal characters at the front, maximal |
| Normalization.SpaceLength | src/sentinel/core/normalization.py:5-5 | the length of the whitespace at the front, maximal |
| Attacks.WordLength | src/sentinel/evaluation/attacks.py:39-39 | the length of the word of letters at the front, maximal |
| Attacks.FirstVowel | src/sentinel/evaluation/attacks.py:34-36 | the first vowel strictly inside a word, if there is one |
| ShippedRobustness.ShippedTable | src/sentinel/evaluation/attacks.py:42-49 | the attack of each of the six names |
| ShippedRobustness.ShippedCancels | src/sentinel/evaluation/attacks.py:42-49 | the first five entries of the attack table cannot be seen after normalisation |
| ShippedRobustness.SliceIsColumn | src/sentinel/evaluation/metrics.py:103-119 | the slice of an attack in a full evaluation holds exactly its scored cases, in order |
| ShippedRobustness.OnlyFloodingDiffers | src/sentinel/evaluation/metrics.py:97-120 | for every model the uppercase, zero-width, leetspeak and punctuation slices equal the clean slice in every metric |
| ShippedRobustness.NoFloodedPairsNoDrop | src/sentinel/evaluation/metrics.py:82-89 | where no case has a flooded pair, the report's recall drop is zero and its worst recall is the clean one |
| PipelineComponents.OpeningTrace | src/sentinel/distributed/processor.py:38-75 | a call on a stored job that has not succeeded first saves the processing record, and only that, before the verdict decides how it goes on |
| PipelineComponents.ClosingTrace | src/sentinel/distributed/processor.py:71-125 | an output is published first, its state saved only if the publish was acknowledged, and the call raises exactly if it was not |
| JobPipeline.NextIn | src/sentinel/worker.py:85-85 | delivery is in order: the next message of a partition with none of the same partition skipped |
| JobPipeline.CallIsSteps | src/sentinel/distributed/processor.py:38-143 | an undisturbed call is a sequence of the worker's atomic steps |
| JobPipeline.TurnIsSteps | src/sentinel/worker.py:84-113 | a turn of the loop is a poll, steps of the call and a commit, in that order |
| NoLoss.ProcessKeeps | src/sentinel/distributed/processor.py:38-143 | every step of processing, with any publish outcome, keeps the invariant and only lets the topics grow |
| NoLoss.PublishHandles | src/sentinel/distributed/processor.py:71-75 | an acknowledged result, retry or dead letter makes its source message handled |
| NoLoss.CommitKeeps | src/sentinel/worker.py:113-113 | a commit covers handled messages only, even by a worker whose partition moved on |
| NoLoss.PollKeeps | src/sentinel/worker.py:85-91 | what a consumer has passed is handled, but for the message in its hands |
| NoLoss.SubmitKeeps | src/sentinel/distributed/service.py:29-101 | each step of concurrent submissions, stale writes included, keeps the invariant |
| NoLoss.NextKeeps | src/sentinel/worker.py:84-113 | the invariant survives every action of every worker and client, crashes, expiry and unreadable messages |
| NoLoss.NothingLost | src/sentinel/distributed/processor.py:38-143 | in every reachable state a job with an event in the log has an uncommitted event, a result record or a dead letter |
| NoLoss.GarbageReported | src/sentinel/worker.py:92-110 | an unreadable message that was passed over has a dead letter naming its partition and offset |
| NoLoss.SuccessBacked | src/sentinel/distributed/processor.py:71-83 | a job stored as succeeded has a result record, under any interleaving |
| NoLoss.RetriesBounded | src/sentinel/distributed/processor.py:99-124 | under any interleaving no event goes beyond the attempt limit, and a job is called exhausted only at its last attempt |
| Provenance.ResultsAreVerdicts | src/sentinel/distributed/processor.py:61-75 | in every run, every published response is what the engine answered in a worker's step on an event of that job |
| Provenance.StoredAreVerdicts | src/sentinel/distributed/processor.py:76-83 | so is every stored result |
| Provenance.EventsAreSubmitted | src/sentinel/distributed/service.py:30-33 | in every run, every event in the log, retries included, carries the text of a submission and its id, the caller's or the new one, and that id names the job |
| Provenance.LettersAreSubmitted | src/sentinel/distributed/processor.py:132-143 | every dead letter of a job carries the id of a submission, and that id names the job |
| NoLoss.CrashStrandsJob | src/sentinel/distributed/service.py:46-75 | a concrete run: a crash between create and publish leaves an accepted job in no topic; submitting again publishes nothing while the record stands, and publishes once it has expired |
| SubmissionAccounts.CrashStrands | src/sentinel/distributed/service.py:46-101 | where every stored job has an event, says that its publish failed, or has a submission that still has to publish it or say so, a crash leaves one without if and only if its client alone owed it |
| SubmissionAccounts.StrandsExactly | src/sentinel/distributed/service.py:46-101 | all along a run, whatever workers, expiry and submissions do, every stored job is so accounted for if and only if no client crashes that alone owes a stored job |
| SubmissionAccounts.OnlyCrashesStrand | src/sentinel/distributed/service.py:46-101 | so in a run without a crashed client every stored job is accounted for |
| RecordFinality.SuccessFinalExactly | src/sentinel/distributed/service.py:52-101 | a succeeded job stays succeeded in every continuation without expiry, with any number of workers and clients, if and only if no submission is about to publish or save a copy of its record and no worker holds an update of it that is not a success |
| RecordFinality.RecordFinalExactly | src/sentinel/distributed/processor.py:46-125 | it keeps its very record, result included, if and only if besides no worker is about to save a different success |
| PublishFinality.PublishesOverExactly | src/sentinel/distributed/service.py:46-101 | without expiry, a further input event of a stored job can be acknowledged if and only if its record says that a publish failed, or a submission is about to publish it or to record that |
| SubmissionRaces.TwoAcknowledgedPublishes | src/sentinel/distributed/service.py:52-57 | a concrete run: two clients read the same failed record, and both publish its job with an acknowledgement |
| SubmissionRaces.StaleSaveUndoesSuccess | src/sentinel/distributed/service.py:57-70 | a concrete run: a client that read the failed record publishes, a worker succeeds, and the client's save turns the succeeded job back to accepted, with nothing uncommitted to finish it |
| SubmissionRaces.LateFailureUndoesSuccess | src/sentinel/distributed/service.py:77-101 | a concrete run with one submission, no crash and no expiry: its publish times out but arrives, a worker succeeds, and the client's save turns the succeeded job to failed, with nothing uncommitted |
| SoleWorker.SubmitOutcome | src/sentinel/distributed/service.py:29-75 | a submission refuses another request, returns the record unchanged, or publishes once, decided by the stored record; only the last changes anything |
| SoleWorker.StepRight | src/sentinel/distributed/processor.py:38-125 | each step keeps stored states truthful, known events and single publishes |
| SoleWorker.CommittedHonest | src/sentinel/worker.py:112-113 | committing a finished message leaves every stored state truthful |
| SoleWorker.QueueRight | src/sentinel/distributed/service.py:52-101 | a submission that publishes keeps the invariant and does not disturb the worker |
| SoleWorker.StatesTellTheTruth | src/sentinel/distributed/processor.py:46-125 | in every reachable state an accepted or processing job has an uncommitted event, a succeeded job's stored result is one that was published, an exhausted job has a dead letter of an event of its attempt, with that event's request id, and a job that says a retry is scheduled has that attempt in the log |
| SoleWorker.SuccessIsFinal | src/sentinel/distributed/processor.py:46-49 | where a submission is one step and one worker runs, a succeeded job keeps its record, result included, for the rest of any run |
| SoleWorker.OneAcknowledgedPublish | src/sentinel/distributed/service.py:46-75 | where a submission is one step, at most one input publish of a job is acknowledged, however often it is submitted |
| SoleWorker.OneRequestPerJob | src/sentinel/distributed/processor.py:101-106 | all input and retry events of a job carry the same request |
| SoleWorker.OtherRequestRefused | src/sentinel/distributed/service.py:50-51 | a different request under the id of a job with an event is refused with no change of state |
| SoleWorker.ResubmissionIdempotent | src/sentinel/distributed/service.py:46-71 | after an acknowledged publish, submitting again returns the stored job and changes nothing |
| SoleWorker.StoresAgree | src/sentinel/distributed/adapters.py:36-42 | where nothing expires, every run of submissions, worker steps, crashes and redelivery goes the same way on the store that saves only a key it finds and on the one that just assigns, and every submission is answered alike |
| SoleWorker.FailedPublishRepeats | src/sentinel/distributed/service.py:52-57 | a concrete run: a publish fails and its record arrives late, the record says publish failed, and the same request puts a second event of the job into the log |
| Draining.CallDrains | src/sentinel/distributed/processor.py:94-125 | an acknowledged process call strictly lowers the total of (limit - attempt) over uncommitted events |
| Draining.CommittedPotential | src/sentinel/worker.py:113-113 | a commit takes away the weight of its message and of no other |
| Draining.EndLog | src/sentinel/distributed/processor.py:99-106 | a call appends nothing to the log but the next attempt of its event, and that only below the limit |
| Draining.WorkLeft | src/sentinel/worker.py:85-91 | while a message is uncommitted there is one to poll |
| Draining.DrainingEnds | src/sentinel/distributed/processor.py:94-125 | from any reachable state, any order of crash-free calls stops after at most limit calls per waiting message, and then every job has succeeded or failed |
| PipelineComponents.JobStore.Create | src/sentinel/distributed/adapters.py:21-28 | set if absent: whether it was, and the whole new map |
| PipelineComponents.JobStore.Save | src/sentinel/distributed/adapters.py:36-42 | Redis sets only a key it finds, so an expired key stays gone; the store in memory overwrites in any case |
| PipelineComponents.RecordingEventPublisher.Publish | src/sentinel/distributed/adapters.py:131-134 | raises without recording, or records at the end: the topics it stands for are those of a broker that loses, or acknowledges, every publish |
| PipelineComponents.Broker.Publish | src/sentinel/distributed/adapters.py:79-96 | returns normally only when acknowledged; otherwise the record is lost or may still arrive |
| PipelineComponents.Broker.Deliver | src/sentinel/distributed/adapters.py:79-96 | a record whose publish timed out arrives at its topic after the call |
| CallOutcomes.ProcessOutcome | src/sentinel/distributed/processor.py:38-125 | the call field by field: a job without a record is reported and one that succeeded skipped; else the engine's response is published and stored with the attempt, or the next attempt published, or the last one reported; stored only once acknowledged |
| PipelineComponents.ModerationEventProcessor.Process | src/sentinel/distributed/processor.py:38-87 | leaves exactly that, passes through the worlds of the protocol's steps in order, and raises exactly when a publish is not acknowledged |
| PipelineComponents.ModerationEventProcessor.Succeed | src/sentinel/distributed/processor.py:71-83 | the engine's response is published, and saved as the job's result only after the acknowledgement |
| PipelineComponents.ModerationEventProcessor.HandleFailure | src/sentinel/distributed/processor.py:94-125 | retry below the limit, else dead letter; the state is saved only after the acknowledged publish |
| PipelineComponents.ModerationEventProcessor.PublishDlq | src/sentinel/distributed/processor.py:132-143 | one dead letter with the job, its request id, the attempt and the code |
| CallOutcomes.SubmissionOutcome | src/sentinel/distributed/service.py:29-101 | the submission field by field: a new job is stored as accepted, attempt zero, under the caller's id or the new one, and an event with the request's text and that id is published; else conflict, the stored job, or the publish of a failed job again |
| CallOutcomes.NewIdsNewJobs | src/sentinel/distributed/service.py:30-33 | requests without an id, submitted under different new ids, become different jobs, each queued with its own text |
| PipelineComponents.DistributedModerationService.Submit | src/sentinel/distributed/service.py:29-75 | leaves and answers exactly that, and passes through the worlds of the submission steps, also when the record expires in between |
| PipelineComponents.DistributedModerationService.Existing | src/sentinel/distributed/service.py:46-71 | a key that was there: unavailable when its record is gone, conflict for another request, publish again after a failed publish, else the stored job |
| PipelineComponents.DistributedModerationService.Requeue | src/sentinel/distributed/service.py:52-70 | the branch of a failed publish: publish, then accepted with no error code |
| PipelineComponents.DistributedModerationService.PublishOrFail | src/sentinel/distributed/service.py:77-101 | a publish that is not acknowledged leaves the job failed with the publish code |
| PipelineComponents.DistributedModerationService.Find | src/sentinel/distributed/service.py:103-105 | the stored job, if there is one |
| CallOutcomes.TurnOutcome | src/sentinel/worker.py:85-113 | a poll with a message deals with the first one not passed and then commits its successor, or ends the consumer if that raised; a poll without one does nothing |
| PipelineComponents.ConsumeLoop.Consume | src/sentinel/worker.py:85-113 | one turn on a partition, unreadable messages included, is the protocol's turn |
| PipelineComponents.ConsumeLoop.Run | src/sentinel/worker.py:83-117 | for every finite sequence of polls, the loop is the turns one after the other until an error or the stop signal closes the consumer |
| LedgerLaws.AcceptsExactlyChains | src/sentinel/review/repository.py:70-100 | replay accepts a ledger if and only if all lines can be read and the events of each case id, however interleaved, form a chain numbered from one with right digests and links; the projection then holds exactly those events |
| LedgerLaws.StopsAtFirstFault | src/sentinel/review/repository.py:78-99 | a refused ledger is refused at the first line that cannot follow, with its line number and the right one of the three faults |
| LedgerLaws.LastHashPinsHistory | src/sentinel/review/repository.py:80-100 | two accepted ledgers with the same last hash for a case hold identical event lists for it |
| ReviewLaws.WrittenReplays | src/sentinel/review/service.py:225-253 | the record of any operation is accepted by replay and gives the same projection as the commit |
| ReviewLaws.PerformKeeps | src/sentinel/review/service.py:47-182 | every operation keeps all histories well formed and the request index exact |
| ReviewLaws.FreshCase | src/sentinel/review/service.py:55-71 | a request without a case gets an id that no case has |
| ReviewLaws.LedgerRebuilds | src/sentinel/review/repository.py:102-109 | after any run with crashes, replay of the ledger succeeds and equals the projection, or the projection once the last record is projected |
| ReviewLaws.HistoriesAreWellFormed | src/sentinel/review/service.py:98-182 | histories are prefixes of creation, claim, ruling, then appeal, claim, appeal ruling repeated; rulings are by the last claimant; claims and rulings after an appeal are by seniors; the state is the last event's |
| ReviewLaws.OneCasePerRequest | src/sentinel/review/service.py:55-57 | two cases never have the same request id |
| ReviewLaws.LedgerOnlyGrows | src/sentinel/review/repository.py:106-108 | the ledger of a longer run extends the ledger of a shorter one |
| ReviewOutcomes.EnqueueOutcome | src/sentinel/review/service.py:48-81 | a response with decision review or a cross-modal disagreement, whose request has no case, leaves a pending case with its fields and the first event of its chain; any other changes nothing |
| ReviewOutcomes.ClaimOutcome | src/sentinel/review/service.py:99-119 | who may claim what; the case gets the reviewer and state and keeps every other field, and its chain the next event |
| ReviewOutcomes.DecideOutcome | src/sentinel/review/service.py:122-156 | who may rule on what; the case gets exactly the decision and reason given and the time, and keeps every other field, and its chain the next event |
| ReviewOutcomes.AppealOutcome | src/sentinel/review/service.py:159-182 | who may appeal what; the case keeps its ruling, loses its reviewer and gets the reason, and its chain the next event |
| ReviewOutcomes.RulingsAreGiven | src/sentinel/review/service.py:122-156 | at every point of a run with crashes, the stored decision, reason and time of a case are those of the last ruling that was committed on it, and a case without one has none |
| ReviewOutcomes.LastRulingAt | src/sentinel/review/service.py:122-156 | that ruling is a happening of the run, got its line in the ledger, and no later ruling on the case did |
| ReviewOutcomes.ReviewedHasCase | src/sentinel/review/service.py:48-81 | a response that asks for review, given to a serving process, has a case for its request in the ledger for the rest of any run |
| StableSorting.SelectionSorted | src/sentinel/review/repository.py:45-46 | a stable sort of what is selected from a list holds exactly the selected items, by key and, for equal keys, in the order of the list |
| CaseListings.ListingFacts | src/sentinel/review/repository.py:43-47 | filtering and stably sorting the stored cases lists each case of the state exactly once, oldest first, equal times in insertion order |
| ReviewComponents.InMemoryReviewRepository.ListCases | src/sentinel/review/repository.py:43-47 | each case of the state exactly once, oldest first, equal times in insertion order |
| ReviewComponents.InMemoryReviewRepository.FindByRequestId | src/sentinel/review/repository.py:38-41 | the indexed case |
| ReviewComponents.InMemoryReviewRepository.Commit | src/sentinel/review/repository.py:53-57 | case, index and event list move together |
| ReviewComponents.JsonlReviewRepository.Load | src/sentinel/review/repository.py:70-100 | the loop gives the projection that replay defines, or the first fault |
| ReviewComponents.JsonlReviewRepository.LoadRecord | src/sentinel/review/repository.py:80-100 | the checks of one record, in the order integrity then sequence |
| ReviewComponents.JsonlReviewRepository.Commit | src/sentinel/review/repository.py:102-109 | one line at the end of the file, and the same record in the projection |
| ReviewComponents.ReviewService.Enqueue | src/sentinel/review/service.py:48-81 | opens a case exactly for a response that needs review and whose request has none, with the response's fields |
| ReviewComponents.ReviewService.ClaimOne | src/sentinel/review/service.py:99-119 | the claim or the first refusal that applies, and nothing else changes |
| ReviewComponents.ReviewService.DecideOne | src/sentinel/review/service.py:122-156 | stores the reviewer's decision and reason, or gives the first refusal that applies, and changes nothing else |
| ReviewComponents.ReviewService.AppealOne | src/sentinel/review/service.py:159-182 | the appeal or the first refusal that applies, and nothing else changes |
| ReviewComponents.ReviewService.NewEvent | src/sentinel/review/service.py:225-253 | the next link of the case's chain |
| ReviewComponents.ReviewService.ExportFeedback | src/sentinel/review/service.py:189-212 | auditors only; exactly one record for each resolved case with its decision fields, oldest first, equal times in insertion order, with the appeal flag of its history |
| ReviewComponents.ExportOfRun | src/sentinel/review/service.py:189-212 | in every run the export has a record for each resolved case, with the case's fields and the decision, reason and time of the last ruling on it, flagged as appealed exactly when its history holds an appeal |
| RateLimiting.TokenBucket.Draw | src/sentinel/security/middleware.py:92-99 | refill, then take a token or tell how long to wait |
| RateLimiting.ConsumeOutcome | src/sentinel/security/middleware.py:81-109 | a request from the settings: which buckets stay, which one is charged, its tokens after the refill, what is left, and the least wait |
| RateLimiting.Limiter.ConsumeToken | src/sentinel/security/middleware.py:81-99 | leaves and answers exactly that on the shared map, aliasing of buckets included |
| RateLimiting.Limiter.AddBucket | src/sentinel/security/middleware.py:87-91 | prune, fall back to the shared bucket when full, and create only what is missing |
| RateLimiting.Limiter.PruneBuckets | src/sentinel/security/middleware.py:101-109 | removes exactly the stale buckets |
| RateLimitLaws.StaleIsFull | src/sentinel/security/middleware.py:92-93 | a bucket that may be pruned behaves as a new one |
| RateLimitLaws.PruningInvisible | src/sentinel/security/middleware.py:81-109 | in a run without overflow every answer equals that of a map that never prunes |
| RateLimitLaws.SizeBound | src/sentinel/security/middleware.py:88-91 | in every run the map holds at most one bucket more than the limit |
| RateLimitLaws.RateBound | src/sentinel/security/middleware.py:92-99 | requests admitted against a bucket in an interval number at most the capacity plus the refill of the interval, across pruning and re-creation |
| RateLimitLaws.FreshBurst | src/sentinel/security/middleware.py:87-99 | a new client gets exactly the configured number of requests at once, and is told how many are left, down to none |
| RateLimitLaws.RetryAfterExact | src/sentinel/security/middleware.py:95-97 | the hint is the least whole number of seconds, between one and the window, that brings the bucket to a token |
| RateLimitLaws.RetryHintExact | src/sentinel/security/middleware.py:95-97 | after a rejection with nothing admitted since, however long ago, a request on the bucket is admitted from the hinted second on and not before; the bucket is still held, or was dropped after two windows |
| PhraseTries.PhraseTrie.constructor | src/sentinel/core/trie.py:17-20 | the trie of a phrase list holds all of its phrases, duplicates included |
| PhraseTries.PhraseTrie.Insert | src/sentinel/core/trie.py:22-26 | adds one phrase to those held and keeps every node reachable by exactly one path |
| PhraseTries.PhraseTrie.Find | src/sentinel/core/trie.py:28-37 | returns exactly the non-empty phrases that occur in the text |
| PhraseTries.PhraseTrie.FindFrom | src/sentinel/core/trie.py:31-36 | the inner walk finds exactly the phrases that start at one position |
| PhraseTries.PhraseTrie.NothingBeyond | src/sentinel/core/trie.py:34-35 | where the walk breaks off, no longer phrase can match |
| JpegHeaders.FirstSegment | src/sentinel/multimodal/image.py:62-79 | a first segment with any marker 0xC0 to 0xCF but 0xC4, 0xC8 and 0xCC gives height and width from its bytes, or is incomplete below seven; any other segment is passed over |
| JpegHeaders.JpegMetadata | src/sentinel/multimodal/image.py:52-80 | the nested loops end, stay inside the payload and give the answer of the marker walk |
| JpegHeaders.ReadSize | src/sentinel/multimodal/image.py:55-80 | the outer loop from any position is the walk of the remaining bytes |
| JpegHeaders.ReadSegment | src/sentinel/multimodal/image.py:68-79 | segment checks and the frame header, in the source's order, or where the walk goes on, always further along |
| JpegHeaders.SkipFill | src/sentinel/multimodal/image.py:60-61 | skips exactly the fill bytes |
| JpegHeaders.ParserUndoesPrinter | src/sentinel/multimodal/image.py:52-80 | any start of image, stray bytes, standalone markers and segments with any fill and bodies, then an ending: the parser gives the ending's answer, for a frame header its width and height |
| JpegHeaders.Decompose | src/sentinel/multimodal/image.py:56-79 | every payload is the print of such elements and an ending |
| JpegHeaders.AnswerExactlyWhenEncoded | src/sentinel/multimodal/image.py:52-80 | the parser gives an answer if and only if the payload encodes it |
| ThreatIntelligence.InMemoryThreatVectorStore.Search | src/sentinel/threat_intelligence/adapters.py:81-92 | the points that meet the threshold, sorted stably from insertion order with the best first, cut off at the limit |
| ThreatIntelligence.FullFacts | src/sentinel/threat_intelligence/adapters.py:87-92 | before the cut that list holds each close request once with the score of its last vector, best first, equal scores by arrival |
| ThreatIntelligence.InMemoryThreatVectorStore.Upsert | src/sentinel/threat_intelligence/adapters.py:94-95 | replaces the point of a known id in its place, or appends a new one |
| ThreatIntelligence.ThreatIntelligenceService.AssessAndIndex | src/sentinel/threat_intelligence/service.py:37-62 | the answer is that of the index that the calls so far make, and this one joins it; with a limit of six or more: risk, maximum similarity and coordinated flag are those of the true set of other requests whose last vector meets the threshold |
| ThreatIntelligence.RiskScore | src/sentinel/threat_intelligence/service.py:53-57 | the branches compute the documented table of prior distinct matches and risks |
| ThreatIntelligence.KeptCount | src/sentinel/threat_intelligence/service.py:44-48 | how many other requests survive the cut, in every case |
| ThreatIntelligence.CutOthers | src/sentinel/threat_intelligence/service.py:39-57 | cutting at six or more changes neither the risk, nor the maximum, nor the coordinated flag |
| ThreatIntelligence.TruncationInvisible | src/sentinel/threat_intelligence/service.py:37-62 | so with such a limit the answer from any coherent index is that of all other close requests |
| ThreatIntelligence.AnyRankingAssesses | src/sentinel/threat_intelligence/service.py:37-62 | the same for a vector store that orders equal scores in any way |
| CampaignReplay.SmallerLimitFails | src/sentinel/threat_intelligence/service.py:26-26 | for every limit below six, a history of calls after which a request with five or more similar others gets less than their risk |
| CampaignReplay.ReplayUnchanged | src/sentinel/threat_intelligence/service.py:44-46 | after any history of calls, with a limit of six or more, replaying a request gives the same risk, maximum and flag, and the same assessment while fewer others than the limit are similar |
| CampaignReplay.MatchCountExact | src/sentinel/threat_intelligence/service.py:37-48 | the count in every case: all similar others while these are fewer than the limit, else the limit, less one if the own earlier point ranks within it |
| CampaignReplay.OwnSurvivesAnyOrder | src/sentinel/threat_intelligence/service.py:38-44 | for any order of equal scores: the own point is kept if fewer than the limit score as high and cut if the limit score higher |
| CampaignReplay.ReplayCountExactly | src/sentinel/threat_intelligence/service.py:44-48 | after any history of calls, a replay gives the same count if and only if fewer others than the limit are similar, or the earlier point and the new one both rank within the limit or both do not |
| CampaignReplay.FirstReplayKeepsCount | src/sentinel/threat_intelligence/service.py:44-48 | a request that is new when the limit is filled by others that score as high as it does keeps its count on replay |
| CampaignReplay.ReplayCountChanges | src/sentinel/threat_intelligence/service.py:44-48 | for every positive limit, a history of calls after which a request and its replay are told the limit and one less |
| EvaluationMetrics.MetricsDescribe | src/sentinel/evaluation/metrics.py:20-41 | the four cells are the numbers of items with each label and verdict at the threshold, and accuracy, precision, recall, f1 and both error rates are the shares of these counts, zero of nothing |
| EvaluationMetrics.SliceMetrics | src/sentinel/evaluation/metrics.py:44-59 | one entry for each value of the attribute, with the counted figures of exactly its items |
| EvaluationMetrics.EvaluateScores | src/sentinel/evaluation/metrics.py:62-94 | a report if and only if there is a clean slice, with the counted figures overall, per slice and per candidate threshold, and the true minimum recall and maximum drop |
| EvaluationMetrics.WorstAndDrop | src/sentinel/evaluation/metrics.py:72-88 | least attacked recall and greatest loss, with the defaults for no attack |
| ModelEvaluation.EvaluateModel | src/sentinel/evaluation/metrics.py:97-124 | one prediction per case and attack, with the label and category of the case and the score of its normalised attacked text, and the counted report over them with the model's version and the member versions of an ensemble; or the error of a score out of range |
| ModelEvaluation.MaxScore | src/sentinel/ml/ensemble.py:24-25 | an upper bound of the members that one of them reaches |
| ModelEvaluation.ReportsMonotone | src/sentinel/evaluation/metrics.py:20-94 | scores that are at least as high give recall and false-positive rate at least as high, overall and in every slice |
| ModelEvaluation.EnsembleAtLeastAsAlert | src/sentinel/ml/ensemble.py:24-25 | so the ensemble has at least the recall of each member in every slice, overall and under the worst attack, and no lower false-positive rate |
| ModelEvaluation.SliceCellsSumToOverall | src/sentinel/evaluation/metrics.py:44-59 | the confusion cells of the slices add up to the overall ones |
| ModelEvaluation.OverallReaches | src/sentinel/evaluation/metrics.py:20-59 | a recall that every slice reaches is reached overall |
| ModelEvaluation.OverallAtLeastWorst | src/sentinel/evaluation/metrics.py:75-94 | overall recall is at least the lower of the clean and the worst-attack recall |
| ModelEvaluation.DropIsCleanMinusWorst | src/sentinel/evaluation/metrics.py:82-89 | the reported maximum drop equals clean recall minus worst-attack recall |

## Left out

- Unicode beyond ASCII and the seven zero-width code points: composition can bring new marks together there, and neither idempotence nor cancellation is claimed.
- Timestamps of stored jobs, metrics counters and logging: nothing in the pipeline reads them.
- The broker and store clients: only append with or without acknowledgement, set-if-absent, set-if-present, expiry and in-order delivery are kept.
- Errors raised by the job store: covered in `NoLoss` as crashes at any step; `SoleWorker` treats a submission as one step in which the store answers.
- Workers and other clients that act during a submission, and crashes inside one, for the laws of `SoleWorker`: `CrashStrandsJob`, `TwoAcknowledgedPublishes` and `LateFailureUndoesSuccess` end in states that break them; `NothingLost`, `StrandsExactly`, `SuccessFinalExactly` and `PublishesOverExactly` hold there.
- PipelineComponents.ConsumeLoop.Run: takes the polls as a finite list, because the source's loop need not end.
- `_consume_token`, `find`, `_insert`, `_jpeg_metadata`, `process`, `submit` and `_replay` are split into a method and helper methods; inheritance between the two review repositories is a field.
- Locks: each service call and each limiter call is one step, as the locks make it.
- JSON and date formats, partial last lines of the ledger, and edits to the case stored beside an event, which replay does not check against the event.
- Case ids are taken to be injective in request id and policy version; the text they are made from joins the two with a colon.
- Floating-point rounding: tokens, scores and rates are reals, and a NaN score does not exist.
- Cosine, SHA-256, name-based ids, random ids, clocks, the moderation engine and the models: parameters.
- HTTP routes, configuration parsing, security headers, body limits, dashboards, `backlog`, role lookup, reads of a case by role, promotion gates, engine thresholds, multimodal fusion, PNG and WebP readers and the final image limits: plumbing or a reading of one branch.
