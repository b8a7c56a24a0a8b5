# Access-broker core, verified

A model in Dafny of the stateful core of an access broker: the process that
holds credentials, performs requests for an agent that never sees them, and
records what was exchanged. Five components are modelled.

* **Recording** (`Ledger`, `LedgerInvariant`, `Consumers`, `Paging`,
  `Evolution`, `Runs`, `Isolation`, `FlowRuns`; what consumers rely on in
  `Grants`, `Quotas`, `Acceptance`, `Releases`, `Pages` and `Provenance`; the
  classes in `Recorder`, `Subscription` and `Flow`, with `RecorderState` and
  `RecorderPlan` as their proof libraries). One store of records feeds the owner
  and up to sixteen scoped subscribers under four interlocking budgets. `Ledger`
  is the state as a value with one function or predicate for each operation; the
  classes update maps, queues and counters in place and are proved to refine it;
  `Runs`, `Isolation` and `Grants` prove properties of all interleavings.
* **Redaction** (`Scanning`, `Encodings`, `Spellings`, `Redactor`,
  `Placeholders`) and **gated delivery** (`Observation`, `ObservedLogs`,
  `GatedBody`). Streaming transducers with a bounded lookahead equal a one-shot
  scan; a response body is released only behind its own accepted observation.
* **Authority** (`Engine`, `EngineInvariant`, `EngineRuns`, `Registrations`,
  `Revocations`, `Exchanges`, `Broker`, `Reload`, `Generations`, and with the
  other parts `Joint`, `JointInvariant`, `JointRuns`, `JointOutcomes`). Sessions,
  operations, login contexts and reloads as atomic steps, one per critical
  section, in every interleaving.
* **Remote protocol sessions** (`Sse`, `EventStreams`, `McpContext`, `McpRuns`,
  `McpOutcomes`, `Conversation`). An incremental event-stream decoder and a
  session state machine.
* **Login** (`JsonPointer`, `Forms`, `FormTexts`, `Login`, `LoginOutcomes`,
  `Substitution`, `Cookies`, `Paths`, `Attempts`). Substitution of credentials
  into a form or JSON body, cookie custody and the attempt limit.

How to read it: a class method's contract ties the new state to a function or
step predicate on values, and the theorems are about those functions and about
runs of those steps. Where a rule decides what an operation does (who may see an
event, which spellings are hidden, which cookie goes where, what a cancellation
stops), a theorem states its effect over whole runs, or exactly when it holds, in
the fields of the state and the terms of its standard, without the definition
that the operation uses. Locks are atomic steps. Callbacks, clocks, random
identities and answers of other components are parameters.

The engine, the conversations and the recorder are first treated apart, each
with its own runs, and then together: `Joint`, `JointInvariant` and `JointRuns`
have one state for all three, in which the recorder runs the engine's commit and
the commit hands the exchange in to its conversation. `FlowRuns` does the same
for many flows over one recorder, `Generations` for the brokers of successive
reloads.

Where the code promises less than its surroundings suggest, the exact condition
is proved:

* The attempt limits hold in all runs exactly when no clock reading is older than
  the one before it in lock order (`Attempts.LimitsExactly`). The code reads the
  clock before it takes the lock; `Attempts.StaleClockExceedsLimit` and
  `Attempts.StaleClockExceedsOverall` turn any step back into a violation.
* An event stream may be finished exactly when no line is unterminated and no
  `data` or `event` field follows the last blank line (`Sse.FinishExactly`).
  That is an event boundary exactly when no ignored field, such as `id`, follows
  it either; `Sse.IgnoredFieldFinishes` is a stream where one does.
* A redacted text contains none of the patterns that cannot touch the marker's
  own text (`Redactor.OutputHoldsNone`); a pattern inside the marker is put back
  by it (`Redactor.MarkerHolds`).
* The overlap check on login selectors is exact for valid pointers
  (`JsonPointer.OverlapDecides`) and is not without the validity check
  (`JsonPointer.StrayTildesCollide`).

`dafny verify dfyconfig.toml` checks the project.

## Model

| member | source | states |
|---|---|---|
| LedgerInvariant.RecordInv | crates/aap-observe/src/recorder.rs:241-361 | Publishing any batch that the planner fits keeps the retention invariant of the value: every queued id is stored and every stored record is in some queue, delivery ids rise strictly below `next`, and the sums over stored records stay within the global, session and queue budgets |
| LedgerInvariant.RemoveInv | crates/aap-observe/src/recorder.rs:66-91 | Dropping any set of records restores the invariant from a state in which records may be unclaimed |
| LedgerInvariant.ReleaseOwnerInv | crates/aap-observe/src/recorder.rs:37-65 | Giving up any set of owner references keeps the invariant, so unclaimed records go and claimed ones stay |
| LedgerInvariant.ReleaseSlotInv | crates/aap-observe/src/recorder.rs:37-65 | The same for the references of one subscriber |
| LedgerInvariant.MovedInv | crates/aap-observe/src/recorder.rs:155-186 | Identities consumed by a refused batch leave the invariant intact |
| Consumers.SubscribeInv | crates/aap-observe/src/subscription.rs:49-81 | Enrolling a subscriber keeps the invariant |
| Consumers.IssuedInv | crates/aap-observe/src/subscription.rs:87-163 | Raising `issued` after a read keeps the invariant |
| Consumers.ClosedInv | crates/aap-observe/src/subscription.rs:206-219 | Releasing a subscription and freeing its slot keeps the invariant |
| Recorder.Recorder.Discard | crates/aap-observe/src/recorder.rs:82-91 | Removes one record and its charges; totals again equal the sums over what is stored |
| Recorder.Recorder.Release | crates/aap-observe/src/recorder.rs:37-65 | The class in place refines the release of one consumer's references, discarding exactly the records that nobody refers to any more; counters, owner flags and claim bits stay exact |
| Recorder.Recorder.Remove | crates/aap-observe/src/recorder.rs:66-81 | The class in place refines dropping a set of records from every queue |
| Recorder.Recorder.AssignIdentities | crates/aap-observe/src/recorder.rs:155-182 | Numbers every event and every selected delivery, or reports exactly the overflow case, in which identities may have moved and nothing else |
| Recorder.Recorder.PlanLocal | crates/aap-observe/src/recorder.rs:243-290 | The nested planning loops compute, per subscriber, the shortest oldest prefix whose removal makes room, and fail exactly when a required batch does not fit somewhere |
| Recorder.Recorder.Trim | crates/aap-observe/src/recorder.rs:291-332 | The shared-budget loop finds exactly the oldest records whose removal suffices, succeeding if and only if the batch is affordable without dropping a required record |
| Recorder.Recorder.Evict | crates/aap-observe/src/recorder.rs:334-347 | Carrying out the plan reaches exactly the planned state |
| Recorder.Recorder.PublishBatch | crates/aap-observe/src/recorder.rs:348-359 | Pushing event by event reaches exactly the published state: store, all queues, all byte counters |
| Recorder.Recorder.New | crates/aap-observe/src/recorder.rs:101-123 | A recorder exists exactly for a valid epoch and limits in range, and starts empty with the invariant |
| Recorder.Recorder.Weigh | crates/aap-observe/src/recorder.rs:203-240 | The charging loop accepts exactly the well-shaped batches and projects the per-session sums |
| Recorder.Recorder.MakeRoom | crates/aap-observe/src/recorder.rs:257-276 | The eviction loop of one queue finds the shortest sufficient prefix, or refuses at the first required record or for a required batch |
| Recorder.Recorder.Orphans | crates/aap-observe/src/recorder.rs:291-307 | The records that local eviction leaves to nobody, and the projected totals without them |
| Recorder.Recorder.Push | crates/aap-observe/src/recorder.rs:342-359 | Storing one record extends exactly the owner queue and the chosen queues and charges every counter |
| Recorder.Recorder.Commit | crates/aap-observe/src/recorder.rs:155-167 | The commit runs once; a rejection restores the old state |
| Recorder.Recorder.Undo | crates/aap-observe/src/recorder.rs:155-167 | A rejected commit restores source ids and every subscriber's next id: the state is the old one |
| Recorder.Recorder.RecordBatchWith | crates/aap-observe/src/recorder.rs:133-361 | The whole in-place method refines one atomic record step, in which the commit runs at most once, after planning and before any mutation; it keeps the class invariant, by which global and per-session byte counters are the sums over stored records and the owner flag and each claim bit hold exactly for membership in that queue |
| Recorder.Recorder.ReadBounded | crates/aap-observe/src/recorder.rs:365-423 | A page is the longest prefix after the cursor within both bounds, with one gap for what is missing, and the cursor, epoch and size errors of the code |
| Recorder.Recorder.Acknowledge | crates/aap-observe/src/recorder.rs:424-440 | Releases exactly the owner references at or below a valid cursor |
| Recorder.Recorder.Enroll | crates/aap-observe/src/subscription.rs:49-81 | First free slot, forward only, within 16 subscribers; errors change nothing |
| Recorder.Recorder.SubscriptionRead | crates/aap-observe/src/subscription.rs:87-163 | The subscriber's page and its `issued` bound |
| Recorder.Recorder.SubscriptionAcknowledge | crates/aap-observe/src/subscription.rs:164-190 | Releases exactly the deliveries up to a cursor that was issued |
| Recorder.Recorder.CloseSubscription | crates/aap-observe/src/subscription.rs:206-219 | Releases every reference and frees the slot |
| Releases.OwnerAckReleases | crates/aap-observe/src/recorder.rs:424-440 | An owner acknowledgment takes exactly the ids up to its cursor, and with them the records that no subscriber still wants; a foreign epoch or an id not given out changes nothing |
| Releases.AckReleases | crates/aap-observe/src/subscription.rs:164-190 | A subscriber's acknowledgment takes exactly its own deliveries up to the cursor, and is refused for another epoch, another subscription or an id that no read has given out |
| Releases.CloseReleases | crates/aap-observe/src/subscription.rs:206-219 | Closing frees the slot, drops exactly the records that it alone still wanted and leaves every other queue as it was |
| Releases.ClosedForGood | crates/aap-observe/src/subscription.rs:200-219 | In every run with distinct subscription ids, a closed subscription's later reads and acknowledgments are refused |
| Pages.EnrollsExactly | crates/aap-observe/src/subscription.rs:49-81 | An enrollment succeeds exactly for 1 to 64 distinct well-formed sessions, one or both views and classes, limits within the recorder's and a free slot, and takes the first one |
| Pages.ReadRefused | crates/aap-observe/src/subscription.rs:87-112 | A read is refused, and changes nothing, outside the page bounds, for an id not enrolled, and with a cursor of another epoch, another subscription or beyond what was issued |
| Pages.OwnerReadRefused | crates/aap-observe/src/recorder.rs:370-384 | An owner read changes nothing, and is refused as invalid exactly outside the page bounds or with a cursor beyond the last id |
| Pages.OwnerStartsOver | crates/aap-observe/src/recorder.rs:365-393 | A cursor of another epoch is told from the first id on, after a gap that says so |
| Pages.ReadFailsExactly | crates/aap-observe/src/recorder.rs:394-421 | A page fails as too large exactly when its first stored record alone breaks the byte bound |
| Pages.PageIsFull | crates/aap-observe/src/recorder.rs:394-421 | A page keeps both bounds, counted in encoded bytes, and stops only where the next stored id would break one |
| Pages.DigitsMeans | crates/aap-observe/src/subscription.rs:133-141 | The delivery id in a page is counted with as many digits as it has |
| Paging.AccountedFor | crates/aap-observe/src/recorder.rs:388-421 | The ids from the cursor to the new cursor are exactly the gap followed by the delivered ids, in order |
| Paging.PageUnique | crates/aap-observe/src/recorder.rs:388-421 | The page specification determines one result, so the loop has no freedom |
| Evolution.StepEvolves | crates/aap-observe/src/recorder.rs:36-361 | Every operation only ever removes references by eviction, acknowledgment or close, and adds only new identities |
| Runs.RunInv | crates/aap-observe/src/recorder.rs:551-613 | That invariant holds in every state of every interleaving of record, read, acknowledge, subscribe, close and availability steps |
| Runs.RecordsImmutable | crates/aap-observe/src/recorder.rs:348-359 | A stored record never changes, and one that is gone never returns |
| Runs.RequiredRecordStays | crates/aap-observe/src/recorder.rs:257-332 | Over any run an accepted required record stays in the owner queue until an owner acknowledgment covers it |
| Runs.RequiredDeliveryStays | crates/aap-observe/src/subscription.rs:164-219 | Over any run a required delivery stays in its subscriber's queue until that subscriber acknowledges it or closes |
| Runs.ReadReports | crates/aap-observe/src/subscription.rs:87-163 | A read reports every id between the old and new cursor once, in order; what is called lost is not in the queue |
| Runs.SubscriberToldAll | crates/aap-observe/src/subscription.rs:87-190 | In every run a live subscription has been told exactly the ids at or below `issued`, as delivered or as lost |
| Runs.SubscriberHearsAll | crates/aap-observe/src/subscription.rs:87-163 | A subscriber that passes back its cursors hears the delivery ids 1, 2, … up to its last cursor, each exactly once, in order, whatever runs in between |
| Runs.SubscriberGapIsFinal | crates/aap-observe/src/subscription.rs:87-163 | What a subscriber is told is lost is never delivered to it later; if it was a required delivery the subscriber had acknowledged it |
| Runs.AckReleasesOnlyTold | crates/aap-observe/src/subscription.rs:164-190 | No acknowledgment releases a delivery that was not reported before |
| Runs.OwnerReadReports | crates/aap-observe/src/recorder.rs:365-423 | The same report for one owner read in any reachable state |
| Runs.OwnerHearsAll | crates/aap-observe/src/recorder.rs:365-423 | A reader that passes back its cursors hears 1, 2, … up to its last cursor, each exactly once, whatever runs in between |
| Runs.GapIsFinal | crates/aap-observe/src/recorder.rs:388-421 | What a read calls lost is never delivered later; if it was an accepted required record the owner had acknowledged it |
| Grants.TellsOnlyGranted | crates/aap-observe/src/subscription.rs:246-261 | In every run, each event that a subscription's read tells has its session, view and content class among those of the Enroll step of that subscription |
| Grants.GrantedArrives | crates/aap-observe/src/recorder.rs:168-180 | Conversely, of an accepted batch each event with these three memberships arrives in the queue of a live subscription, in order, unless the batch is best-effort and no dropping of best-effort deliveries makes room; its delivery ids are used up either way |
| Grants.EnrolledBy | crates/aap-observe/src/subscription.rs:49-81 | A live subscription was enrolled once, with its id, scope and limits, and has been live in its slot since |
| Grants.BatchStored | crates/aap-observe/src/recorder.rs:187-193 | A batch that succeeds is stored whole as it was handed in, or is best-effort and lost whole, which only its ids show |
| Acceptance.RequiredKeptExactly | crates/aap-observe/src/recorder.rs:241-332 | A required batch is retained exactly when every queue it concerns and the shared budgets have room for it without dropping anything |
| Acceptance.BestEffortKeptExactly | crates/aap-observe/src/recorder.rs:291-332 | A best-effort batch is retained exactly when dropping oldest best-effort records makes room in the shared budgets; no more than needed is dropped |
| Acceptance.LocalRoom | crates/aap-observe/src/recorder.rs:257-276 | A queue drops as few of its oldest best-effort deliveries as will do, and none where that cannot do |
| Acceptance.AnswersExactly | crates/aap-observe/src/recorder.rs:133-240 | What a call answers, case by case, and whether its commit ran: batch size, identities, clock, room for a required batch, and otherwise the commit's own answer |
| Acceptance.IdentitiesFit | crates/aap-observe/src/recorder.rs:155-182 | In every run no source or delivery id leaves 64 bits |
| Quotas.WithinBudgets | crates/aap-observe/src/recorder.rs:551-613 | In every run the stored records are within the configured count and bytes and 8 MiB for each session, counted and summed from the records themselves, and every queue within the limits it enrolled with |
| Isolation.ConditionalCommit | crates/aap-observe/src/recorder.rs:142-193 | Ok exactly when the callback ran once and succeeded; rejection leaves the whole ledger, identities included; no call means only identities moved |
| Isolation.RequiredAllOrNone | crates/aap-observe/src/recorder.rs:257-332 | A required batch enters every queue that selects it and evicts nothing, or no record and no queue changes |
| Isolation.PlanIsSqueeze | crates/aap-observe/src/recorder.rs:241-307 | The per-queue eviction plan equals a private bounded drop-oldest queue, refusal included |
| Isolation.PublishedView | crates/aap-observe/src/recorder.rs:334-359 | An accepted batch changes a subscriber's view as its private queue would |
| Isolation.StepView | crates/aap-observe/src/recorder.rs:133-440 | Every operation of anyone is one step, perhaps idle, of each subscriber's private queue |
| Isolation.RunIsPrivate | crates/aap-observe/src/subscription.rs:246-261 | Over any stretch of any run in which the shared budgets do not bind, a subscriber's queue is the private queue of its scope fed with its own inputs; another consumer shows in it only through a required batch that the other's full queue refuses for all |
| Isolation.RoomyFits | crates/aap-observe/src/recorder.rs:243-332 | While the shared budgets do not bind, a batch is retained exactly when recording is available, it is well shaped and, if required, no queue refuses it |
| Isolation.BestEffortArrives | crates/aap-observe/src/recorder.rs:243-359 | So whether a best-effort batch arrives in one queue does not depend on any other queue |
| Isolation.OwnerGetsAll | crates/aap-observe/src/recorder.rs:291-359 | While the shared budgets do not bind the owner receives the whole of a best-effort batch |
| Subscription.Subscription.Subscribe | crates/aap-observe/src/subscription.rs:49-81 | A handle for exactly the new enrollment |
| Subscription.Subscription.Read | crates/aap-observe/src/subscription.rs:87-163 | A closed handle reads nothing; an open one reads its own queue |
| Subscription.Subscription.Acknowledge | crates/aap-observe/src/subscription.rs:164-190 | A closed handle acknowledges nothing; an open one its own queue |
| Subscription.Subscription.Close | crates/aap-observe/src/subscription.rs:206-219 | The handle closes its own enrollment only |
| Flow.Flow.Stamp | crates/aap-observe/src/flow.rs:70-100 | Numbers each emission in its direction and view, failing exactly when a sequence would be exhausted |
| Flow.Flow.New | crates/aap-observe/src/flow.rs:131-153 | A flow exists exactly for a well-formed session and a policy version, all four streams at zero |
| Flow.Flow.RecordBatchWith | crates/aap-observe/src/flow.rs:58-127 | The in-place method refines numbering plus one recorder step; a rejecting commit gives all four sequences back |
| Flow.StampedRises | crates/aap-observe/src/flow.rs:70-100 | Within a batch the numbers of each stream rise from its counter |
| Flow.StreamsRise | crates/aap-observe/src/flow.rs:58-127 | Over every run of one flow's numbering the numbers of standing events rise strictly in each stream, across rejections and losses |
| FlowRuns.StepInv | crates/aap-observe/src/flow.rs:58-127 | A step of any flow or consumer keeps every stored record numbered below its flow's counter and rising along its stream |
| FlowRuns.StreamsRise | crates/aap-observe/src/flow.rs:58-127 | Over every interleaving of flows and consumers on one recorder: of two records ever stored for one stream of one flow, the later has the higher number, whether or not the earlier still exists |
| FlowRuns.RecorderRuns | crates/aap-observe/src/flow.rs:114-126 | The recorder below the flows makes a run of its own, so every theorem about recorder runs applies |
| Provenance.StoredIsEmission | crates/aap-observe/src/flow.rs:70-113 | In every run each stored record is one emission of one flow: its session, flow, view, class and sizes, in the stream of its direction and view, numbered behind the emissions before it there |
| Provenance.FlowOpened | crates/aap-observe/src/flow.rs:131-153 | A flow was opened once, for one session |
| Provenance.ToldWasEmitted | crates/aap-observe/src/subscription.rs:246-261 | End to end: what a subscription is told was emitted, as it is told, by a flow opened for one of the sessions it was granted, in a granted view and class |
| Provenance.NumbersFit | crates/aap-observe/src/flow.rs:87-93 | In every run no stream's sequence number leaves 64 bits |
| Provenance.NumbersUsed | crates/aap-observe/src/flow.rs:58-127 | A batch that its commit rejects leaves everything as it was, and any other uses up one number for each emission in its stream, whether it is stored, lost or refused |
| Scanning.DecidedEarly | crates/aap-auth/src/lib.rs:147-172 | What a bounded-lookahead feed decides now is what the scan of any continuation decides |
| Scanning.StreamedIsScan | crates/aap-auth/src/lib.rs:147-172 | For every chunking of every input, feeding equals one scan of the whole input |
| Scanning.ScanSource | crates/aap-auth/src/lib.rs:147-172 | Every input byte is copied or lies in exactly one replaced match |
| Scanning.TokenAt | crates/aap-auth/src/lib.rs:147-172 | A position is replaced exactly when the text from there on is recognized |
| Scanning.DecidedMore | crates/aap-engine/src/pipeline.rs:704-716 | One feed extends what every continuation of the received bytes decides |
| Scanning.OutputsAreOneScan | crates/aap-auth/src/lib.rs:147-172 | For every run of feed calls, of whatever chunks and refusals, that reached its end, the returned bytes are together the sanitized one-shot scan of the accepted bytes |
| Redactor.FoundLongest | crates/aap-auth/src/lib.rs:133-172 | The first pattern found in length order is the longest present |
| Redactor.FinderBounded | crates/aap-auth/src/lib.rs:133-172 | Matching looks no further than the longest pattern |
| Redactor.NoPatternSurvives | crates/aap-auth/src/lib.rs:147-172 | No run of copied bytes contains any pattern, across match and chunk boundaries |
| Redactor.ReplacedIsLongest | crates/aap-auth/src/lib.rs:147-172 | Each replaced text is the longest pattern at its place |
| Redactor.SecretsSuppressed | crates/aap-auth/src/lib.rs:84-146 | Neither a secret nor its base64, percent, form or JSON spelling survives in a run of copied bytes, and nothing but such spellings is replaced |
| Redactor.ArrangedSuppress | crates/aap-auth/src/lib.rs:84-146 | The patterns are exactly the secrets themselves, their base64 forms in both alphabets with and without padding, their percent and form encodings in both cases and, for text, their JSON escapes |
| Redactor.FeedsHideSecrets | crates/aap-auth/src/lib.rs:84-172 | What a finished run of Feed calls returns is its input with pieces replaced, no spelling of a secret being left between them, nor anywhere if it cannot touch the marker |
| Redactor.OutputHoldsNone | crates/aap-auth/src/lib.rs:147-172 | The whole output, markers included, contains no pattern that cannot touch the text of the marker |
| Redactor.MarkerHolds | crates/aap-auth/src/lib.rs:157-168 | For a pattern that is a letter of the marker the output does contain it |
| Redactor.MergedEitherWay | crates/aap-auth/src/lib.rs:66-83 | Merging covers exactly the patterns of both inputs and does not depend on their order |
| Redactor.FeedIsOneScan | crates/aap-auth/src/lib.rs:147-172 | What the calls of a redactor's run return is together the longest-match redaction of the whole text |
| Redactor.ArrangedOrdered | crates/aap-auth/src/lib.rs:133-138 | Deduplication and ordering keep exactly the patterns, longest first |
| Redactor.Redactor.New | crates/aap-auth/src/lib.rs:84-146 | A redactor over exactly the stated spellings of the given values, refused exactly beyond the limits |
| Redactor.Redactor.Fresh | crates/aap-auth/src/lib.rs:56-63 | Same patterns, empty stream |
| Redactor.Redactor.Merged | crates/aap-auth/src/lib.rs:66-83 | Patterns of both, none of their buffered bytes, refused exactly beyond the limits |
| Redactor.Redactor.Feed | crates/aap-auth/src/lib.rs:147-172 | The loop emits exactly the early-decided part of the scan and keeps the rest; after the end or for an oversized chunk nothing changes |
| Redactor.Redactor.FirstMatch | crates/aap-auth/src/lib.rs:157-165 | The search loop finds the longest pattern at a position |
| Encodings.ValidIdExactly | crates/aap-types/src/ids.rs:12-17 | An identifier is valid exactly when it is the unpadded base64url form of its number of bytes |
| Encodings.DecodeEncode | crates/aap-types/src/ids.rs:12-17 | Decoding undoes canonical encoding |
| Encodings.EncodeDecode | crates/aap-types/src/ids.rs:12-17 | Whatever decodes is the canonical encoding of its value |
| Encodings.PaddedEncode | crates/aap-auth/src/lib.rs:95-102 | Padding only completes the last group of four |
| Encodings.PercentRound | crates/aap-auth/src/lib.rs:103-127 | Percent and form spellings decode to the secret, in both letter cases |
| Encodings.JsonRound | crates/aap-auth/src/lib.rs:128-131 | The JSON spelling unescapes to the secret |
| Spellings.Base64Vectors | crates/aap-auth/src/lib.rs:95-102 | Base64 agrees with the examples of RFC 4648, section 10 |
| Spellings.GroupVectors | crates/aap-auth/src/lib.rs:95-102 | and the alphabets differ in their last two symbols only |
| Spellings.HexExactly | crates/aap-auth/src/placeholders.rs:85-92 | Two digits of either case, and nothing else, name a byte |
| Spellings.PercentShortest | crates/aap-auth/src/lib.rs:103-127 | Of all texts of safe bytes and escapes that decode to a value, percent encoding gives a shortest |
| Spellings.PercentCase | crates/aap-auth/src/lib.rs:103-127 | with hexadecimal digits of the case asked for |
| Spellings.JsonShortest | crates/aap-auth/src/lib.rs:128-131 | Of all insides of JSON strings that denote a text, escaping gives a shortest |
| Spellings.Utf8Exactly | crates/aap-auth/src/lib.rs:128-131 | Bytes are UTF-8 exactly if they encode a sequence of Unicode scalar values (RFC 3629, section 3) |
| Placeholders.RecognizerBounded | crates/aap-auth/src/placeholders.rs:10-80 | Recognition depends on at most 306 bytes, whatever follows |
| Placeholders.RecognizedIsPlaceholder | crates/aap-auth/src/placeholders.rs:46-92 | Only a valid 51-byte token is recognized, in a mix of raw, percent and JSON spellings or whole-token base64 |
| Placeholders.PlaceholderIsRecognized | crates/aap-auth/src/placeholders.rs:46-92 | Every such spelling is recognized wherever it appears, with exactly its own length |
| Placeholders.TokenExactly | crates/aap-auth/src/placeholders.rs:81-84 | A token is one of the three prefixes and the base64url form of any 32 bytes |
| Placeholders.FeedIsOneScan | crates/aap-auth/src/placeholders.rs:23-43 | The same for runs of the placeholder redactor |
| Placeholders.PlaceholderRedactor.Feed | crates/aap-auth/src/placeholders.rs:23-43 | The drained buffer loop emits the early-decided part of the scan, reports the decided bytes exactly and retains fewer than 306 |
| Placeholders.PlaceholderRedactor.Recognize | crates/aap-auth/src/placeholders.rs:46-80 | The position-and-array loop computes the recognized length |
| Observation.AcceptedChains | crates/aap-engine/src/observation.rs:124-172 | In every accepted log each chunk offset is the length observed before it, and an end carries the whole length |
| Observation.FinishingReplays | crates/aap-engine/src/observation.rs:174-215 | The closing batch is always acceptable, ends every started stream and adds no content |
| Observation.ClosingTotals | crates/aap-engine/src/observation.rs:174-215 | The totals that close a view are the lengths of what was observed in it |
| ObservedLogs.AcceptedExactly | crates/aap-engine/src/observation.rs:124-172 | A log is accepted exactly if each stream starts once, has its chunks after that and before its end, each at the length so far, and ends once at its length |
| ObservedLogs.ClosingExactly | crates/aap-engine/src/observation.rs:174-215 | The closing batch says of both views and of each open stream, and of nothing else, whether it is complete and how much was observed |
| ObservedLogs.ContentsIsText | crates/aap-engine/src/observation.rs:68-95 | What is kept of a stream is the bodies of its chunks in order |
| Observation.Observed.RecordWith | crates/aap-engine/src/observation.rs:124-172 | Stream state and log advance together with an accepted batch, and only then |
| Observation.Observed.Finish | crates/aap-engine/src/observation.rs:174-215 | Closing changes state only together with an accepted batch and adds no content |
| Observation.Observed.ContentViews | crates/aap-engine/src/observation.rs:68-95 | The chunking loop appends the body once to each view, or a prefix of it when refused, and touches no other stream |
| GatedBody.GateHolds | crates/aap-engine/src/pipeline.rs:704-716 | Observing the sanitized text first keeps everything delivered inside what both views hold |
| GatedBody.GatedBody.Observe | crates/aap-engine/src/pipeline.rs:704-716 | Delivered bytes followed by the retained suffix are the received bytes; nothing is released on a refused observation |
| GatedBody.GatedBody.Fail | crates/aap-engine/src/pipeline.rs:647-679 | A failure closes the observation as incomplete, if the flow allows, and releases nothing |
| GatedBody.GatedBody.Complete | crates/aap-engine/src/pipeline.rs:558-646 | A completed body was delivered whole, and both views hold exactly the one-shot redaction of it |
| GatedBody.GatedBody.AtEnd | crates/aap-engine/src/pipeline.rs:743-770 | At the end of the upstream body the rest is released before completion; a finish means that everything the upstream yielded before its first end was delivered |
| GatedBody.GatedBody.Advance | crates/aap-engine/src/pipeline.rs:771-795 | One poll of the upstream body; a frame is delivered only through the gate and what was received is what the polls yielded |
| GatedBody.GatedBody.TakeTurn | crates/aap-engine/src/pipeline.rs:729-796 | One turn of the polling loop keeps the gate; a cancelled one fails, and one before the delivery check has passed waits or fails with it |
| GatedBody.GatedBody.PollFrame | crates/aap-engine/src/pipeline.rs:720-799 | Over the bounded loop: what is handed out is what is delivered, only in a turn that is let through, and a successful end means that the completion was let through and the delivered bytes are exactly what the upstream body yielded before its end |
| GatedBody.FramesAreTheBody | crates/aap-engine/src/pipeline.rs:720-799 | Over every run of polls that ends well the frames are together exactly the bytes of the upstream body |
| EngineInvariant.StepInv | crates/aap-engine/src/pipeline.rs:137-201 | Every protocol step keeps: host bytes are the sum over live sessions, session bytes the sum over the three operation maps, one id in one map only, all budgets, one custodian of each private state |
| EngineRuns.RunInv | crates/aap-engine/src/pipeline.rs:137-201 | The invariant holds in every state of every interleaving |
| EngineRuns.NothingAfterRetirement | crates/aap-engine/src/lib.rs:338-359 | After admission closes nothing commits, in any interleaving: dispatch, completion and publication each check authority in the step that commits |
| EngineRuns.NothingAfterRevocation | crates/aap-engine/src/lib.rs:398-459 | After a session is retired nothing of it commits |
| EngineRuns.CloseRevokesAll | crates/aap-engine/src/lib.rs:360-391 | When a close call returns, that is, has retired one by one the sessions the registry held when it stopped admission, every session that still exists is revoked, whoever was creating sessions meanwhile |
| EngineRuns.CustodyReturns | crates/aap-engine/src/website.rs:223-230 | Private state enters a binding only through the completion of the exchange that held it |
| EngineRuns.FailureRevokes | crates/aap-engine/src/pipeline.rs:647-701 | The first section of a failing guard leaves its website binding revoked and empty |
| EngineRuns.ExchangesEnd | crates/aap-engine/src/pipeline.rs:558-701 | Over any run an exchange that is over has completed its operation or left its binding revoked and empty |
| EngineRuns.RevokedStaysEmpty | crates/aap-engine/src/vault.rs:40-73 | A revoked binding stays revoked and empty |
| EngineRuns.OutcomesAreFinal | crates/aap-engine/src/lib.rs:150-184 | Terminal states, dispatch and cancellation of operations are never taken back, by any mix of steps |
| EngineRuns.SidesAreFinal | crates/aap-engine/src/vault.rs:84-111 | Nor are outcomes and cancellations of issuances and ends of streams |
| EngineRuns.DispatchedOnce | crates/aap-engine/src/pipeline.rs:457-485 | No request id is dispatched twice in a run |
| EngineRuns.HonestOutcome | crates/aap-engine/src/pipeline.rs:647-701 | Dispatched work ends Completed or uncertain, undispatched work never uncertain, and an id lives in one operation map |
| Registrations.RegisteredIsOwn | crates/aap-engine/src/pipeline.rs:137-201 | A registration of any of the three kinds that succeeds leaves its own request under its id, newly with its size charged, or as it was if the same request was there |
| Registrations.ConflictRefused | crates/aap-engine/src/pipeline.rs:137-152 | A taken id with another body or of another kind is refused as a conflict, and no refusal changes anything |
| Registrations.NewRegisteredExactly | crates/aap-engine/src/tcp.rs:62-166 | A new id is registered exactly when count, session bytes and host bytes have room and, for a stream, the session is live and a slot granted |
| Registrations.RepeatFound | crates/aap-engine/src/vault.rs:224-271 | The same request under the same id is found again and changes nothing |
| Registrations.OneRequestEach | crates/aap-engine/src/pipeline.rs:137-201 | Over any run, two registrations of one id of a session that both succeed are of one kind and have one body |
| Registrations.CommitsWhileLive | crates/aap-engine/src/lib.rs:486-511 | Whatever is dispatched, completed or published happens while the broker is open, the session neither revoked nor cancelled, and its lifetime of at most an hour not over |
| Registrations.DispatchedExactly | crates/aap-engine/src/pipeline.rs:457-485 | An operation is dispatched exactly when it is ready, not cancelled and its session live |
| Registrations.SessionsBounded | crates/aap-engine/src/lib.rs:241-337 | At most 64 sessions exist, and one more is created exactly while there are fewer, for a valid request to an open broker |
| Revocations.RevokedIsOver | crates/aap-engine/src/lib.rs:398-459 | After revocation everything that was not over is cancelled or of unknown outcome, no login context holds anything or may be used, no stream is open, and nothing else has changed |
| Revocations.RevokeIsSteps | crates/aap-engine/src/lib.rs:398-459 | Revoking a session is a run of the engine's own retire, notify, cancel, clear and end steps |
| Revocations.CancelledForGood | crates/aap-engine/src/lib.rs:161-172 | A cancelled operation stays Cancelled, or Uncertain if it was being dispatched, and is never dispatched or completed again |
| Revocations.CancelledLoginForGood | crates/aap-engine/src/vault.rs:84-111 | A cancelled login never publishes its context |
| Revocations.OverForGood | crates/aap-engine/src/lib.rs:174-184 | None of the six terminal states is ever left |
| Revocations.AdvancedExactly | crates/aap-engine/src/lib.rs:150-160 | An operation moves on exactly while it is not over |
| Exchanges.BegunExactly | crates/aap-engine/src/website.rs:60-131 | An exchange begins exactly on a binding that is neither cancelled nor expired and that no other operation uses |
| Exchanges.TakenWhole | crates/aap-engine/src/website.rs:223-230 | What the binding held is then in the exchange, and the binding is empty |
| Exchanges.PublishedWasCaptured | crates/aap-engine/src/pipeline.rs:558-646 | A completed exchange publishes, to its own binding, the private state and the status captured from its own response |
| Exchanges.CustodyOrigin | crates/aap-engine/src/website.rs:223-230 | Whatever private state a binding holds was published with it or put there by the completion of an exchange on it |
| Exchanges.CompletedExactly | crates/aap-engine/src/pipeline.rs:558-646 | When a dispatched operation completes, and that otherwise what its exchange held is gone |
| Exchanges.LocallyExactly | crates/aap-engine/src/pipeline.rs:528-557 | When an operation without remote work completes |
| Exchanges.StagedExactly | crates/aap-engine/src/pipeline.rs:558-646 | When what was captured is staged; a binding found expired is emptied |
| Exchanges.PublishedExactly | crates/aap-engine/src/vault.rs:294-320 | A login context is published, as prepared, exactly while its session is live, it is usable, fewer than sixteen exist and the login is neither over nor cancelled |
| Exchanges.RemoteExactly | crates/aap-engine/src/remote_mcp.rs:178-289 | When a remote conversation is published |
| Exchanges.FailedIsOver | crates/aap-engine/src/pipeline.rs:647-679 | A failing guard leaves its operation over: unknown if dispatched, otherwise denied or failed as the reason says |
| Exchanges.FailIsSteps | crates/aap-engine/src/pipeline.rs:647-679 | A failing guard takes two of the engine's steps |
| Exchanges.DroppedIsOver | crates/aap-engine/src/pipeline.rs:680-701 | A guard dropped unfinished cancels, then fails: its operation is over, its exchange gone and its binding revoked and empty |
| Exchanges.RefusedIsCancelled | crates/aap-engine/src/pipeline.rs:457-485 | A dispatch or completion refused for lack of authority cancels its operation |
| JointInvariant.StepInv | crates/aap-engine/src/pipeline.rs:558-701 | Every step of host, conversations and recorder together keeps all their invariants, and ties each guard to its remote exchange: one that is not held is not pending, and a guard that is over holds none |
| JointRuns.CompletesExactly | crates/aap-engine/src/pipeline.rs:558-646 | An operation becomes Completed in a step exactly when, in that step and under authority, the recorder ran the commit once and accepted or permissibly lost the closing batch, the staged website state is in its binding and the conversation took the remote exchange |
| JointRuns.CompletedBefore | crates/aap-engine/src/pipeline.rs:558-646 | In every run, every completed operation was completed by one such step |
| JointRuns.RejectedCompletion | crates/aap-engine/src/pipeline.rs:558-646 | A refused completion publishes nothing: engine bindings and operation state are unchanged, no conversation shows a result, and if the commit itself refused, the ledger and all flow numbers are exactly as before |
| JointRuns.ExchangesGone | crates/aap-engine/src/pipeline.rs:647-701 | In every state of every run a guard that completed, failed or was dropped holds no remote exchange and none of its is pending |
| JointRuns.AdvancesByCompletion | crates/aap-engine/src/remote_mcp.rs:110-120 | A conversation shows a new result only in the completing step of the operation whose exchange it takes |
| JointRuns.NothingPublishedAfter | crates/aap-engine/src/lib.rs:338-359 | After admission closes no operation completes and no conversation shows a new result, in any interleaving of the whole |
| JointRuns.NothingPublishedOf | crates/aap-engine/src/lib.rs:398-459 | After a session is revoked none of its operations completes and no conversation it owns shows a new result |
| JointRuns.BindingsStay | crates/aap-engine/src/remote_mcp.rs:178-289 | Over every run bindings are never lost, keep their session, and their conversations only move on: serials, cancellations and phase advance and an exchange that is over is never pending again |
| JointOutcomes.SeveredForGood | crates/aap-engine/src/remote_mcp.rs:45-50 | A severed conversation stays over, with nothing pending and no native session |
| JointOutcomes.NothingOnSevered | crates/aap-engine/src/remote_mcp.rs:110-120 | and no operation whose exchange is on it completes after that |
| JointOutcomes.LookedExactly | crates/aap-engine/src/remote_mcp.rs:51-103 | When the check before completion passes, and that it ends a conversation whose time is over |
| JointOutcomes.HandedInExactly | crates/aap-engine/src/remote_mcp.rs:110-120 | When a conversation takes an exchange that is handed in |
| JointOutcomes.GivenUpExactly | crates/aap-engine/src/remote_mcp.rs:121-136 | An exchange given up is pending no more, and a handshake given up ends the conversation |
| JointOutcomes.AppearsWithExchange | crates/aap-engine/src/remote_mcp.rs:178-289 | A conversation appears only with its first exchange begun, for a session with authority, which owns it |
| JointRuns.HostRuns | crates/aap-engine/src/pipeline.rs:558-701 | The engine's part of a joint run is an engine run, so the engine's theorems apply to it |
| JointRuns.FlowsRuns | crates/aap-engine/src/observation.rs:124-215 | The recording part of a joint run is a run of flows over one recorder |
| Broker.Broker.Create | crates/aap-engine/src/lib.rs:241-337 | The registry method refines creation, with its errors in the code's order |
| Broker.Broker.CloseAdmission | crates/aap-engine/src/lib.rs:338-359 | Admission is closed and nothing else happens |
| Broker.Broker.Revoke | crates/aap-engine/src/lib.rs:398-459 | Walking everything a session owns reaches the revoked session |
| Broker.Broker.Close | crates/aap-engine/src/lib.rs:360-391 | When it returns admission is closed and every session is the revoked one |
| Broker.Broker.TrackOperation | crates/aap-engine/src/pipeline.rs:137-201 | Reserves an id and its bytes in all budgets, finds an equal request again, refuses a different one |
| Broker.Broker.CancelOperation | crates/aap-engine/src/lib.rs:161-172 | Cancellation refines the atomic step: dispatched work is left to its guard |
| Broker.Broker.Transition | crates/aap-engine/src/lib.rs:150-160 | A transition from a terminal or cancelled operation is refused and changes nothing |
| Broker.Broker.DispatchOperation | crates/aap-engine/src/pipeline.rs:457-485 | Dispatch commits under authority or changes nothing; a refusal for lack of authority is followed by cancelling the operation |
| Broker.Broker.Complete | crates/aap-engine/src/pipeline.rs:558-646 | The closing commit refines the atomic completion |
| Broker.Broker.FailGuard | crates/aap-engine/src/pipeline.rs:647-679 | A failing guard refines both of the engine's failing sections: the exchange given up and its binding revoked, then the outcome settled |
| Broker.Broker.DropUnfinished | crates/aap-engine/src/pipeline.rs:680-701 | Dropping an unfinished guard refines cancellation followed by failure with its reason |
| Reload.RunInv | crates/aap-daemon/src/runtime.rs:246-299 | Revisions strictly increase, fixed settings never change and only the newest generation can be open, in every state of every run |
| Reload.AtMostOneOpen | crates/aap-daemon/src/runtime.rs:246-299 | At most one published broker is open |
| Reload.NeverReopens | crates/aap-daemon/src/runtime.rs:202-299 | Generations are only appended and a closed broker never reopens |
| Reload.ShutdownIsFinal | crates/aap-daemon/src/runtime.rs:184-201 | After a shutdown none is open and none is published |
| Reload.BegunExactly | crates/aap-daemon/src/runtime.rs:202-214 | A reload begins exactly when none runs, the broker is open and the last cleanup is over, and a refusal changes nothing |
| Reload.OneReloadAtATime | crates/aap-daemon/src/runtime.rs:202-214 | Between two reloads that began the first one came to its end |
| Reload.CleanedUpBetween | crates/aap-daemon/src/runtime.rs:206-214 | and after a publication no reload begins before the old broker's cleanup is over |
| Reload.PublishedExactly | crates/aap-daemon/src/runtime.rs:246-299 | A reload publishes exactly a loaded candidate of a higher revision and the same fixed settings over an open broker, closing that in the same step |
| Generations.NothingOldCommits | crates/aap-daemon/src/runtime.rs:246-299 | After a reload has published its broker nothing of an older generation is committed: no dispatch, completion or publication |
| Generations.NothingAfterShutdown | crates/aap-daemon/src/runtime.rs:184-201 | After a shutdown nothing is committed in any broker |
| Generations.OnlyNewestCommits | crates/aap-daemon/src/runtime.rs:246-299 | Whatever is committed is committed in the newest broker while it is open |
| Reload.Control.TryReload | crates/aap-daemon/src/runtime.rs:202-245 | A reload starts exactly when none runs, the broker is open and nothing is retiring |
| Reload.Control.FinishReload | crates/aap-daemon/src/runtime.rs:246-299 | Close and publish happen in one section, or the reload changes nothing |
| Reload.Control.CloseAll | crates/aap-daemon/src/runtime.rs:184-201 | Shutdown leaves no open broker |
| Sse.FeedJoin | crates/aap-mcp-upstream/src/sse.rs:33-63 | Feeding two chunks is feeding their concatenation |
| Sse.FeedIsReference | crates/aap-mcp-upstream/src/sse.rs:33-115 | The byte loop equals a whole-stream fold over lines, for CR, LF and CRLF (sections 9.2.5 and 9.2.6 of the WHATWG HTML standard, as restricted by the code) |
| Sse.ChunksDoNotMatter | crates/aap-mcp-upstream/src/sse.rs:23-63 | Every chunking, split CRLF included, gives the messages of the reference |
| Sse.FeedBounded | crates/aap-mcp-upstream/src/sse.rs:23-63 | Buffered line plus data never exceeds the bytes fed |
| Sse.RefusedExactly | crates/aap-mcp-upstream/src/sse.rs:33-115 | A stream within the limit is refused exactly for an overlong line, a line that is not UTF-8, an unsupported event or too many events; the data limit never refuses it |
| Sse.PrintDecode | crates/aap-mcp-upstream/src/sse.rs:64-115 | In the whole-stream fold, printing non-empty CR-free messages as data lines and decoding gives them back, for every message whose lines each fit in one line of the decoder |
| Sse.PrintedIsPushed | crates/aap-mcp-upstream/src/sse.rs:23-121 | Messages printed within the stream limit and pushed in any chunks the decoder takes are all accepted, come out again, and the decoder may finish there |
| EventStreams.WrittenIsRead | crates/aap-mcp-upstream/src/sse.rs:64-115 | Any stream written from comments, fields with or without a space or value, and the three terminators is read as what was meant, error for error (HTML, sections 9.2.5 and 9.2.6) |
| EventStreams.WrittenIsFed | crates/aap-mcp-upstream/src/sse.rs:33-121 | and through the decoder's bytes gives the messages meant, and may be finished exactly if no event is open |
| EventStreams.MarkIgnored | crates/aap-mcp-upstream/src/sse.rs:66-72 | A leading byte order mark is not part of the first line |
| Sse.SseDecoder.Push | crates/aap-mcp-upstream/src/sse.rs:23-32 | A chunk is decoded as the fold, and any error poisons the decoder for good |
| Sse.SseDecoder.PushInner | crates/aap-mcp-upstream/src/sse.rs:33-63 | The per-byte loop in place equals the fold over the chunk |
| Sse.SseDecoder.Line | crates/aap-mcp-upstream/src/sse.rs:64-115 | One line in place equals the line step |
| Sse.SseDecoder.Finish | crates/aap-mcp-upstream/src/sse.rs:116-121 | Finishing succeeds exactly when the decoder has not failed and the bytes fed to it may end there |
| Sse.FinishExactly | crates/aap-mcp-upstream/src/sse.rs:116-121 | After any accepted stream nothing is open exactly when no line is unterminated and no `data` or `event` field follows the last blank line; that is an event boundary exactly when no ignored field follows it either |
| Sse.IgnoredFieldFinishes | crates/aap-mcp-upstream/src/sse.rs:110-121 | A stream of one `id` field finishes successfully inside an event |
| McpRuns.StepInv | crates/aap-mcp-upstream/src/context.rs:104-475 | Every step keeps distinct operations and ids, at most 8 work and 2 control exchanges, one handshake and nothing left once over, and only moves forward |
| McpRuns.RunInv | crates/aap-mcp-upstream/src/context.rs:104-475 | The same in every state of every run |
| McpRuns.OnlyForward | crates/aap-mcp-upstream/src/context.rs:195-419 | Serials and phases only advance; cancellations stick; the binding never changes |
| McpRuns.SerialsUnique | crates/aap-mcp-upstream/src/context.rs:195-292 | A serial is handed out once |
| McpRuns.GoneForGood | crates/aap-mcp-upstream/src/context.rs:352-419 | An exchange that is no longer pending never is again |
| McpRuns.CancelledNeverCompletes | crates/aap-mcp-upstream/src/context.rs:152-169 | A cancelled exchange never completes |
| McpRuns.CompletesOnce | crates/aap-mcp-upstream/src/context.rs:352-385 | An exchange completes at most once and starts nothing afterwards |
| McpRuns.OneResponse | crates/aap-mcp-upstream/src/context.rs:316-351 | An exchange starts at most one response |
| McpOutcomes.CancelledByRequest | crates/aap-mcp-upstream/src/context.rs:104-131 | In every run, once a cancellation names the id of a pending request other than the handshake's first, that exchange never starts a response or completes |
| McpOutcomes.CancelledByOperation | crates/aap-mcp-upstream/src/context.rs:132-151 | The same for a cancellation of the operation behind it; only a cancellation under way cannot be stopped |
| McpOutcomes.CancelledByExchange | crates/aap-mcp-upstream/src/context.rs:226-262 | The same for a cancellation sent on as an exchange, which names the exchange it stops and its operation |
| McpOutcomes.ToldOnce | crates/aap-mcp-upstream/src/context.rs:152-169 | The peer is told at most once to stop one exchange |
| McpOutcomes.FirstIsTold | crates/aap-mcp-upstream/src/context.rs:152-169 | and is told by the first cancellation of a pending request |
| McpOutcomes.WorkAfterHandshake | crates/aap-mcp-upstream/src/context.rs:207-218 | Listing and calling begin only after an initialize that succeeded and then an initialized that completed |
| McpOutcomes.NativeFromInitialize | crates/aap-mcp-upstream/src/context.rs:352-385 | The native session is the one the initialize exchange completed with |
| McpOutcomes.EndedForGood | crates/aap-mcp-upstream/src/context.rs:398-419 | A failed initialize, a handshake given up or cancelled, a refused response, invalidation, closing or a look after its time ends the conversation, and nothing begins, starts or completes after that |
| McpOutcomes.NothingAfterExpiry | crates/aap-mcp-upstream/src/context.rs:452-460 | Nothing begins, starts or completes after ten minutes, or half a minute before the handshake is done, or beyond what was allowed |
| McpOutcomes.CapacitiesHold | crates/aap-mcp-upstream/src/context.rs:236-247 | At most two control exchanges and eight others are ever pending |
| McpOutcomes.BegunExactly | crates/aap-mcp-upstream/src/context.rs:195-292 | When a request is let in, and that it becomes pending under the next serial |
| McpOutcomes.StartedExactly | crates/aap-mcp-upstream/src/context.rs:316-351 | When a response is accepted |
| McpOutcomes.FinishedExactly | crates/aap-mcp-upstream/src/context.rs:352-385 | When an exchange completes, and that it is pending no more either way |
| McpOutcomes.DroppedForGood | crates/aap-mcp-upstream/src/context.rs:386-397 | An exchange that is given up never starts or completes |
| McpContext.BeginInv | crates/aap-mcp-upstream/src/context.rs:195-292 | Admission keeps the invariant; the step specification leaves a refused begin with nothing but expiry |
| McpContext.CompleteInv | crates/aap-mcp-upstream/src/context.rs:352-385 | Completion keeps the invariant on every success, mismatch and failure branch |
| McpContext.AbandonInv | crates/aap-mcp-upstream/src/context.rs:386-397 | Abandoning keeps the invariant |
| Conversation.Conversation.New | crates/aap-mcp-upstream/src/context.rs:171-187 | A context exists exactly for a binding that has not expired |
| Conversation.Conversation.Begin | crates/aap-mcp-upstream/src/context.rs:195-292 | The in-place method refines admission; a refusal changes nothing beyond expiry |
| Conversation.Conversation.Check | crates/aap-mcp-upstream/src/context.rs:461-475 | Rechecking refines the specification, expiry first |
| Conversation.Conversation.StartResponse | crates/aap-mcp-upstream/src/context.rs:316-351 | Starting a response refines the specification |
| Conversation.Conversation.Complete | crates/aap-mcp-upstream/src/context.rs:352-385 | Completing refines the specification |
| Conversation.Conversation.Abandon | crates/aap-mcp-upstream/src/context.rs:386-397 | Abandoning refines the specification |
| Conversation.Conversation.CancelSerial | crates/aap-mcp-upstream/src/context.rs:152-169 | Marks one pending exchange cancelled and tells the peer at most once |
| Conversation.Conversation.CancelRequest | crates/aap-mcp-upstream/src/context.rs:104-131 | Cancelling by request id refines the specification |
| Conversation.Conversation.CancelOperation | crates/aap-mcp-upstream/src/context.rs:132-151 | Cancelling by operation; a cancelled handshake ends the context |
| Conversation.Conversation.Expire | crates/aap-mcp-upstream/src/context.rs:452-460 | Expiry ends the context with nothing pending |
| Conversation.Conversation.Invalidate | crates/aap-mcp-upstream/src/context.rs:398-408 | Invalidation ends the context with nothing pending |
| Conversation.Conversation.Close | crates/aap-mcp-upstream/src/context.rs:409-423 | Closing hands out the native session once and leaves nothing |
| JsonPointer.OverlapDecides | crates/aap-policy/src/target.rs:303-325 | For valid pointers the textual overlap check fails exactly when the reference-token paths are disjoint (sections 3 and 4 of RFC 6901) |
| JsonPointer.StrayTildesCollide | crates/aap-policy/src/target.rs:314-325 | Without the tilde check the textual check would miss two spellings of one node |
| JsonPointer.EscapeUnescape | crates/aap-policy/src/target.rs:314-325 | A well-escaped token is recovered from its meaning, so equal nodes are spelled alike |
| JsonPointer.PutGet | crates/aap-auth/src/login.rs:222-238 | A write is read back |
| JsonPointer.PutElsewhere | crates/aap-auth/src/login.rs:222-238 | A write changes nothing on any disjoint path |
| JsonPointer.PutAgain | crates/aap-auth/src/login.rs:192-238 | A second write at one place hides the first |
| JsonPointer.PutCommutes | crates/aap-auth/src/login.rs:222-238 | Writes on disjoint paths commute |
| LoginOutcomes.SlotExactly | crates/aap-auth/src/login.rs:192-238 | A token names an array element exactly if it is its position in decimal without a leading zero, and a member exactly if it is its key (section 4 of RFC 6901) |
| LoginOutcomes.PointerNames | crates/aap-auth/src/login.rs:192-238 | The escaped form of a key names just that key (section 3 of RFC 6901) |
| Forms.DecodeComponent | crates/aap-auth/src/login.rs:284-309 | The decoding loop equals strict percent decoding followed by the UTF-8 check |
| Forms.ParseForm | crates/aap-auth/src/login.rs:265-283 | The loop over pairs gives the parsed fields, or the first error of the code |
| Forms.RoundTrip | crates/aap-auth/src/login.rs:177-190 | Parsing undoes serialization for every non-empty list of at most 128 distinct, non-empty names (sections 5.1 and 5.2 of the WHATWG URL standard) |
| Forms.ParsesToWellFormed | crates/aap-auth/src/login.rs:265-283 | Everything parsed is such a list, so parsing and writing again changes spelling only |
| FormTexts.ComponentExactly | crates/aap-auth/src/login.rs:284-309 | A component is read exactly if it denotes bytes piece by piece, with strict escapes, and those are UTF-8 |
| FormTexts.PairsExactly | crates/aap-auth/src/login.rs:265-283 | The pairs are the body split at its ampersands |
| FormTexts.FieldExactly | crates/aap-auth/src/login.rs:265-283 | A pair is split at its first equals sign |
| FormTexts.ParsedExactly | crates/aap-auth/src/login.rs:265-283 | Which bodies are the form of which fields: at most 128, with distinct, non-empty names of at most 1024 bytes |
| FormTexts.SerializedShortest | crates/aap-auth/src/login.rs:177-190 | Serializing gives a shortest text of unescaped bytes and escapes that denotes the value |
| Login.AcceptsExactly | crates/aap-auth/src/login.rs:105-145 | A body is accepted exactly when each selected node is its placeholder and no placeholder occurs anywhere else |
| Login.FillElsewhere | crates/aap-auth/src/login.rs:222-238 | Admitted writes all succeed and leave every other node as it was |
| Login.FillReads | crates/aap-auth/src/login.rs:222-238 | Each selected node holds what was written |
| Login.FillCommutes | crates/aap-auth/src/login.rs:150-168 | The order of admitted writes is irrelevant |
| Login.SubstitutionMeaning | crates/aap-auth/src/login.rs:105-168 | Clearing the placeholders leaves no trace: the substituted document is the sender's with only the selected nodes replaced |
| Login.FormMeaning | crates/aap-auth/src/login.rs:105-190 | Re-parsing the emitted form gives the parsed fields with only the selected ones replaced |
| Login.ObservedIsMasked | crates/aap-auth/src/login.rs:94-101 | The observation is the private document with the selected nodes masked, so it agrees everywhere else and is the same for all credentials |
| Login.PlaceholdersStayOut | crates/aap-auth/src/login.rs:239-264 | No placeholder is left in an observation, nor in a private body whose credentials contain none |
| LoginOutcomes.AcceptedHolds | crates/aap-auth/src/login.rs:105-145 | A body is only accepted with the user name's, the password's and the token's placeholder each in its own place |
| LoginOutcomes.SentAndSeen | crates/aap-auth/src/login.rs:94-168 | What is sent holds user name, password and token each in its own place, and what is observed the mask; both agree with the sender's document wherever else one looks |
| LoginOutcomes.ReservedExactly | crates/aap-auth/src/login.rs:239-264 | A document is reserved exactly if one of the three prefixes occurs in a text, name or key at any depth |
| LoginOutcomes.DocumentExactly | crates/aap-auth/src/login.rs:105-130 | Which bodies become documents, by size, visibility, media type and syntax |
| Substitution.Document.TakeExpected | crates/aap-auth/src/login.rs:192-221 | In place: clears exactly the expected placeholder or changes nothing, with the error of the code |
| Substitution.Document.Put | crates/aap-auth/src/login.rs:222-238 | In place: writes one node, or fails exactly when it does not exist |
| Substitution.ValidatedLogin.Parse | crates/aap-auth/src/login.rs:105-145 | The method validates exactly the acceptable bodies, with the errors in the code's order |
| Substitution.ValidatedLogin.Observation | crates/aap-auth/src/login.rs:94-101 | Emits the masked document and leaves the login unchanged |
| Substitution.ValidatedLogin.Substitute | crates/aap-auth/src/login.rs:150-168 | Emits the document with the credentials in it and a redactor over all of them |
| Substitution.OnlySizeFails | crates/aap-auth/src/login.rs:150-190 | For an accepted login every write succeeds; only the size of the result can refuse it |
| Substitution.FromPage | crates/aap-auth/src/login.rs:47-74 | Replaces exactly the declared string of a page by a placeholder, keeping the private token |
| Cookies.Parse | crates/aap-auth/src/cookies.rs:183-268 | A header is accepted exactly under the stated conditions and gives the specified cookie |
| Cookies.ReadAttributes | crates/aap-auth/src/cookies.rs:208-262 | The attribute loop gives the specified path and expiry, Max-Age before Expires |
| Cookies.StoredDistinct | crates/aap-auth/src/cookies.rs:64-113 | Names with paths stay distinct |
| Cookies.StoredLookup | crates/aap-auth/src/cookies.rs:64-113 | Storing sets or deletes exactly its own name and path |
| Cookies.ByPathStable | crates/aap-auth/src/cookies.rs:114-138 | Longest path first, creation order among equals, nothing lost or added (section 5.4 of RFC 6265) |
| Cookies.SelectionExactly | crates/aap-auth/src/cookies.rs:114-138 | Exactly the unexpired, path-matching cookies are sent |
| Paths.SentExactly | crates/aap-auth/src/cookies.rs:114-182 | A cookie is sent exactly if the jar has it, it has not expired and its path segments are the first of the request's, which is to say that its path is the request's or a prefix that ends in a slash or is followed by one |
| Paths.OtherApplication | crates/aap-auth/src/cookies.rs:177-182 | A cookie for /app is not sent to /application |
| Paths.DirectoryIs | crates/aap-auth/src/cookies.rs:258-261 | The default path is the directory of the request (section 5.1.4 of RFC 6265) |
| Paths.LifetimeIs | crates/aap-auth/src/cookies.rs:208-262 | How long a cookie lasts: Max-Age wins over Expires, and a negative one is over at once |
| Paths.NoLifetime | crates/aap-auth/src/cookies.rs:208-262 | A cookie that names neither does not expire, and one that names no path has the default |
| Paths.ValueOctets | crates/aap-auth/src/cookies.rs:194-204 | A value consists of the octets of section 4.1.1 of RFC 6265 |
| Paths.AcceptedOnly | crates/aap-auth/src/cookies.rs:208-257 | An accepted header is Secure, has no unknown attribute and a path only as stated, and the `__Host-` prefix is for the path / alone |
| Paths.CapturedExactly | crates/aap-auth/src/cookies.rs:64-113 | After an accepted batch the jar has exactly its live cookies and those former live ones that no header renewed or deleted |
| Paths.RememberedExactly | crates/aap-auth/src/cookies.rs:64-113 | and the history has gained exactly its non-empty values |
| Paths.RoomExactly | crates/aap-auth/src/cookies.rs:80-110 | A ninth cookie and a seventeenth value are refused, and nothing else is |
| Paths.SizeOfWire | crates/aap-auth/src/cookies.rs:114-138 | The size limit applies to the length of the header as sent |
| Cookies.SentIsSuppressed | crates/aap-auth/src/cookies.rs:152-160 | No run of bytes that the jar's redactor copies contains a non-empty value that can be sent, in any spelling |
| Cookies.SentIsGone | crates/aap-auth/src/cookies.rs:152-160 | and the whole redacted text contains none that cannot touch the text of the marker |
| Cookies.CapturedIsSent | crates/aap-auth/src/cookies.rs:177-268 | A live cookie that names no path is sent back to the request that set it (section 5.1.4 of RFC 6265) |
| Cookies.CookieJar.Capture | crates/aap-auth/src/cookies.rs:37-63 | All or none; a failed capture leaves the jar empty; a successful one returns a redactor over the whole history |
| Cookies.CookieJar.CaptureInner | crates/aap-auth/src/cookies.rs:64-113 | The loop over headers equals the batch specification |
| Cookies.CookieJar.Header | crates/aap-auth/src/cookies.rs:114-138 | The selected cookies in order, after expiry, refused for another origin |
| Cookies.CookieJar.Clear | crates/aap-auth/src/cookies.rs:161-164 | Cookies and history are gone |
| Attempts.Limiter.LoginAttempt | crates/aap-engine/src/website.rs:475-499 | Pruning and pushing in place equal one attempt on both tables |
| Attempts.Limiter.Retain | crates/aap-engine/src/website.rs:483-494 | The pruning loop keeps exactly the entries younger than 600 seconds, in order |
| Attempts.ListsKeepHistory | crates/aap-engine/src/website.rs:475-499 | Despite pruning each list keeps every recent admitted time |
| Attempts.SlidingWindow | crates/aap-engine/src/website.rs:475-499 | With clock readings in lock order, any half-open 600-second window holds at most 5 admitted attempts per session and item and at most 20 per item |
| Attempts.AdmittedExactly | crates/aap-engine/src/website.rs:475-499 | While the clock does not go back, an attempt is admitted exactly if fewer than five of its session and twenty in all were admitted on its item in the ten minutes before |
| Attempts.StaleClockExceedsLimit | crates/aap-engine/src/website.rs:475-499 | Any step back of the clock, however small, for any key, lets a sixth attempt of one session into one window |
| Attempts.StaleClockExceedsOverall | crates/aap-engine/src/website.rs:475-499 | and a twenty-first attempt on one item over four sessions and a fifth |
| Attempts.LimitsExactly | crates/aap-engine/src/website.rs:475-499 | Of the rules that let a clock go forward, exactly those under which no reading is older than the last one keep either limit in all their runs |

## Left out

- Events are abstracted to session, view, content class and encoded size; their fields, size computation and serialization are not modelled.
- Session, operation and context ids are numbers; random identities are parameters assumed fresh, and a claim mask is a set of slots.
- Lock poisoning, wake-ups, timers, tasks and condition variables: each critical section is one step.
- JSON text syntax: reading and writing JSON are parameters, numbers are opaque, and the JSON results are about document trees; duplicate keys are refused by the reader.
- HTTP header and date syntax: a cookie header is a list of classified attributes with parsed dates.
- Store lookups, approvals, leases and revalidation are arbitrary answers; provider schemas, address rules and header allowlists are range checks.
- The TCP relay, remote cleanup and the retirement job after a reload are not part of this model; a stream operation is only its registration, budget and end, and retirement is one flag.
- The response parts of a redirect or login answer (`sanitize_login_redirect`, `sanitize_response`) and header redaction.
- The order of redaction patterns of equal length, which cannot affect any result because two different patterns of one length never match at one place.
- Session option checks and the contents of a failure's closing batch are flags and answers.
- Login: `csrf` page fetches and response evidence are outside; the page token step is `Substitution.FromPage`.
- McpContext.BeginInv: agent request ids and native session values are opaque numbers, and a completion is an opaque result of binding, serial, success and native session.
- Broker.Broker.Close: the method walks its sessions without other threads between its critical sections; the interleaved form is EngineRuns.CloseRevokesAll.
- Broker.Broker.Complete: the conversation's answer is a parameter of the method; Joint runs both in one commit.
- Broker.Broker.FailGuard: the guard's remote exchange and its closing batch are not fields of this class; Joint has them, in their own sections.
- Broker.Broker.DropUnfinished: as for FailGuard, the remote exchange and the closing batch are in Joint.
- Joint: an operation's stream and control children, ping replies and the DELETE of a native session are not steps of it, and which class and size a rendered event has is left open.
