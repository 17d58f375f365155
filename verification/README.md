# reth-statefeed, verified

reth-statefeed publishes selected Ethereum storage slots to local consumers while the chain forks
and reorganises under it. Everything about it is bounded: the queue from the engine loses events,
the candidate cache evicts, consumers lag. This project models the parts that must still add up and
proves that they do.

- **The candidate store and the publisher** (`Store`, `Finality`, `Publisher`): what every engine
  event, timer tick and recovery attempt makes of the records, the queues, the children index, the
  tombstones, the finality sweep and the published log. `LiveStore` and `PublisherThread` are the same
  operations as they run, on fields updated in place and with their loops; every method leaves
  exactly the state its specification gives. `PublisherInvariants`, `HeadSurvival`,
  `HeadHonesty`, `QueueBounds` and `Shown` hold what is proved about whole runs; `Effects`, `HeadEffects`,
  `Expiry` and `Barred` what each command must do, over the log and the store; `FinalitySound` and
  `FinalityComplete` what a sweep may and must remove; `FinalityWork`, `FinalityLinear` and
  `FinalityQuadratic` what it costs; `PlainRuns`, `EdgeRuns` and `SparedRuns` concrete runs.
- **The chain it is measured against** (`Chain`): a hash stands for its header, its watched write set
  and, through its ancestors, its watched values (`Truth`). The provider's `load_at` returns those.
- **The lossy hand-off** (`LossWord`, `Handoff`, `Conserved`): producers that race for one 64-bit word, a bounded
  queue, a one-slot wake-up channel, a revisioned tracker that leads the queue, and a publisher that
  re-anchors after loss by an optimistic read. One atomic step of any thread at a time. `Converge` runs
  the hand-off and the publisher together.
- **The stream** (`Wire`, `Discipline`, `Stream`, `Refusal`, `Handshake`, `Told`): the order of published
  frames, the reader's automaton and exactly what it refuses, a consumer that attaches while the publisher
  stores, commits and sends, and what the frames tell it.
- **The consumer's cache** (`Retention`, `Consumer`): what the frames make a consumer keep.
- **Extraction** (`Watch`, `Extraction`, `EndToEnd`): compiled watch sets, the four ways to scan an
  execution bundle, and the commuting square from bundles to published frames.
- **Conversion models** (`Rounding`, `Usdd`, `Gsm`): vault capacities and stability-module quotes.

## How to read it

`State` is the publisher between two turns; `Run` folds `Step` over any series of commands, with any
answers of the provider, any frames failing to encode and any order of expiry. `Valid` is what every
turn keeps. A turn that fails leaves `broken` set, and then only recovery attempts do anything, as in
the source. Theorems about runs quantify over all of this. Interleavings are runs over arbitrary
sequences of actions in which an action that is not enabled does nothing.

Where a natural contract is false of the code, the code is kept, a lemma shows the failing case and
another gives the exact condition. The failing cases are runs from the start state, unless they are
pure arithmetic:

- a trim that evicts and yet fails: `EdgeRuns.StaleTicketsFailTheTrim`, `StoreLimits.TrimFailsExactly`
- a validated block that falls back to executed: `EdgeRuns.StageFalls`, `EdgeCases.StageFallsExactly`
- a head that is rejected with its ancestor: `EdgeRuns.RejectionTakesHead`, `HeadSurvival.RejectionTakesHeadExactly`
- a head that is swept by a walk from before it was the head: `EdgeRuns.SweepTakesHead`,
  `HeadLoss.SweepTakesHeadExactly`; with the one before these are the only ways to lose a head, by
  `HeadSurvival.HeadSurvivesExactly`
- a rejection the consumer cannot follow: `EdgeRuns.ConsumerKeepsMore`, `Retention.RejectionEvenExactly`
- a sweep whose work is not linear: `FinalityQuadratic.QuadraticWork`, `FinalityLinear.ClassifiesExactly`
- a sweep that spares a record it should remove: `SparedRuns.AgedTombstoneSpares`,
  `FinalityComplete.SweepRemovesConflicts`, and `FinalityComplete.SweepIsExact` where there is room for tombstones
- a capacity that is refused: `Usdd.BuyCapacityCutTooDeep`, `Usdd.BuyCapacityIsOptimal`

A comment in the sweep (src/publisher.rs:1786-1788) calls its work linear in the cached metadata. It is
not: unclassifiable walks are not memoised, and over an anchor above the checkpoint every walk is
unclassifiable. `FinalityQuadratic.QuadraticWork` gives a run for every length of chain;
`FinalityWork.SweepAlwaysDrains` bounds the work in all cases by a product; `FinalityLinear.SweepDrains`
gives the linear bound for stores that are `Classifiable`. Another comment (src/publisher.rs:1405-1409)
explains why protecting the previous head suffices while a new one is inserted; `HeadSurvival.InsertHolds`
proves it.

## Model
| member | source | states |
|---|---|---|
| PublisherInvariants.CacheEqualsChain | src/publisher.rs:863-1576 | In every run, over forks, deferrals, evictions, re-projections, reorgs, reloads and recoveries, and after failed turns too: every frame ever published, the handshake state and every stored projection carry the chain's values, every deferred delta is its block's own, the store invariant holds, a live sweep is about the last finalized checkpoint and all it remembers is true, and the head is the published block; the limits are met, or exceeded by one while an error is pending |
| PublisherInvariants.StepKeeps | src/publisher.rs:521-680 | One turn from a valid state, whatever the command and whether it fails, ends in a valid state: a failed turn too leaves the store sound, and only its limits may be exceeded by one until a snapshot resets it |
| PublisherInvariants.StartValid | src/publisher.rs:773-828 | A publisher constructed from a coherent snapshot is valid |
| Effects.ExecutionActs | src/publisher.rs:990-1166 | An execution event newer than the anchor, of a block of this dictionary that is not terminal, not held, and above the head or next to a known block: with its parent held and one block lower the next frame is the block's true state, and on success it is held, executed, tracked from that frame on, with a full retention period, and queued for the sweep if it is new and something is finalized; with its parent not held an unknown block waits with its own header and delta, and only evictions are announced; a height that does not follow the parent's is an error, and a known block is left alone |
| Effects.ValidationActs | src/publisher.rs:1037-1231 | A validation event of such a block that waits, or that comes with its own delta: with its parent held or readable, and one block lower, its true state is the next frame and on success it is held as validated; with neither it is left alone |
| Effects.PromotionActs | src/publisher.rs:1195-1222 | A validation event of a block known as executed: its stage and nothing else changes, after exactly one frame if consumers have the block and none if not |
| Effects.RejectionActs | src/publisher.rs:1289-1331 | The rejection of a block that waits or is only executed: exactly one frame, and if it goes out exactly the records under the block in the index go and become terminal, unless it is the head; otherwise nothing changes |
| Effects.IdleDoesNothing | src/publisher.rs:863-1231 | Commands that are older than the anchor or of an older dictionary, or whose block is terminal, held or validated already, unknown, or off to the side below the head, change nothing |
| Effects.TooNewFails | src/publisher.rs:1007-1013 | A command of a dictionary that is not active yet is an error that changes nothing |
| Effects.UnfitIsRefused | src/publisher.rs:1017-1063 | In any state at all, a header that is not the one known for its hash, a held parent of another dictionary, size or height, and a delta with a key outside the dictionary are errors that change nothing |
| Effects.InsertedEntry | src/publisher.rs:1578-1637 | What is inserted without an error is there afterwards just as it was filed, whatever the limits evicted |
| HeadEffects.ForkchoiceActs | src/publisher.rs:1333-1497 | A notice of another head, newer than the anchor, that succeeds moves the head there: held with its true values, validated, tracked since consumers first had it, after a published frame from the previous head |
| HeadEffects.HeadNeedsValues | src/publisher.rs:1369-1389 | A held head needs no read; one that is neither held nor readable is an error that changes nothing |
| HeadEffects.KnownHeadRests | src/publisher.rs:1353-1364 | A head announced no later than the anchor, or already published, changes nothing |
| HeadEffects.MisshapenHeadIsRefused | src/publisher.rs:1390-1401 | In any state at all, a held head of another dictionary or hash or of the wrong size is an error that changes nothing |
| Barred.RejectionBars | src/publisher.rs:2024-2033 | On a store within its limits whose records have no tombstone that could age out, every block a rejection removes has a tombstone afterwards |
| Barred.RejectedStaysOut | src/publisher.rs:1014-1016 | So the events of every block the rejection removed do nothing |
| Expiry.TickExpires | src/publisher.rs:1678-1718 | A tick that succeeds: of the records the sweep leaves only those go, other than the head, whose time has come; none of these is left unless as many went as the sweep left of the budget; deferred ones go last; each tracked one is named in a retirement frame for that reason, and each the sweep removed in one for its own |
| Expiry.IdleTickExpires | src/publisher.rs:1678-1718 | With no sweep under way, after a tick no record but the head is past its time, or the whole budget was spent on removals |
| Expiry.TurnSetsExpiry | src/publisher.rs:1596-1613 | Every turn after which no error is pending: a record that was filed in it, or that the head left or came to, expires after the retention period from then; every other one expires when it would have, but that an execution event may file its own deferred block again |
| Expiry.FinalityActs | src/publisher.rs:1487-1495 | A notice that moves finality: the checkpoint is noted, each tracked record that goes is named in a retirement frame for that reason, and if the sweep ends at once exactly the conflicting records go |
| Expiry.FinalityRests | src/publisher.rs:1487-1489 | A notice that does not move finality leaves every record and the sweep alone |
| Expiry.EvictionAnnounced | src/publisher.rs:1879-1932 | Each tracked record that an insertion evicts is named in a retirement frame for that reason |
| Expiry.RetiredInBatches | src/publisher.rs:1977-1998 | Retirements go out in order in frames that are full but for the last; without an error exactly the hashes handed over |
| EndToEnd.FeedShowsStorage | src/feed.rs:467-538 | Over extracted deltas, every published frame and the handshake state show exactly the watched storage of the block they name |
| EndToEnd.TruthIsStorage | src/feed.rs:467-538 | Folding extracted deltas along a block's ancestry gives the storage after the block, seen through the dictionary |
| Projections.DeltaExact | src/publisher.rs:1135-1147 | Applying a delta gives the parent's values overlaid, and a bitmap whose bit i is set exactly when value i differs, with no bit beyond the keys |
| Projections.DeltaFailsExactly | src/publisher.rs:1137-1141 | Applying a delta fails if and only if it names a key outside the dictionary |
| Projections.ComputeDelta | src/publisher.rs:1135-1147 | The in-place delta loop computes that, and fails on a key outside the dictionary |
| Projections.CanonicalBitmapExact | src/publisher.rs:2442-2469 | Between true projections the bitmap of a canonical transition is exact, and the direct-advance shortcut returns what the full comparison would |
| Projections.ComputeCanonicalBitmap | src/publisher.rs:2442-2469 | The comparison loop with its shortcut and its error case |
| Projections.ExactUnique | src/publisher.rs:2442-2469 | There is only one exact bitmap between two value vectors |
| StoreInvariants.RemoveOneKeeps | src/publisher.rs:1949-1975 | Removing a hash, known or not, terminal or not, keeps the invariant: disjoint maps, exact count, one live ticket per record and per held projection, tombstones listed once, children index equal to the parent relation over non-anchor records |
| StoreInvariants.PutProjectionKeeps | src/publisher.rs:1578-1637 | Filing a projection for a new, deferred or known record keeps the invariant |
| StoreInvariants.PutDeferredKeeps | src/publisher.rs:1639-1676 | Deferring a delta keeps the invariant |
| StoreInvariants.TrimProjectionsKeeps | src/publisher.rs:1879-1911 | Trimming the cache keeps the invariant, even when it fails |
| StoreInvariants.TrimMetadataKeeps | src/publisher.rs:1913-1932 | Trimming the records keeps the invariant |
| StoreInvariants.AnchoredKeeps | src/publisher.rs:2073-2103 | A store reset to one anchor has the invariant and is within its limits |
| StoreLimits.TrimProjectionsBound | src/publisher.rs:1879-1911 | A trim that succeeds brings the cache within its limit, evicts at most the one projection it retires, and never the head's |
| StoreLimits.TrimFailsExactly | src/publisher.rs:1904-1908 | The trim fails if and only if more tickets stand in front of the first evictable one than remain behind it, the head's rotated ticket counting as remaining |
| StoreLimits.TrimSucceedsWithoutStale | src/publisher.rs:1879-1911 | With no stale ticket in the queue the trim succeeds |
| EdgeRuns.StaleTicketsFailTheTrim | src/publisher.rs:1904-1908 | A run: two children of the anchor are executed and rejected, two more are executed, and the second makes the trim evict the right projection and still report an error |
| StoreLimits.NewestProjectionStays | src/publisher.rs:1404-1410 | With room for two, the projection inserted last is not the one evicted |
| StoreLimits.TrimMetadataBound | src/publisher.rs:1913-1932 | The record trim always succeeds, keeps the head, removes at most one record and retires it exactly if it was tracked |
| StoreLimits.NewestRecordStays | src/publisher.rs:1913-1932 | With room for two, the record inserted last is not the one removed |
| StoreTrees.RejectionExact | src/publisher.rs:1934-1975 | Removing a tree removes precisely the records reachable from the root, leaves every other record as it was, makes exactly the removed subtree terminal and keeps the invariant |
| Store.TakeOut | src/publisher.rs:1939-1944 | Taking a hash off shrinks the children index if it had children and never grows it, so tree removal ends on the index size and then the worklist length |
| HeadSurvival.RejectionTakesHeadExactly | src/publisher.rs:1289-1331 | A rejection removes the canonical head if and only if it is of the active generation, its block is only executed or deferred, its frame goes out, and the head lies strictly under the block in the index |
| EdgeRuns.RejectionTakesHead | src/publisher.rs:1313-1330 | A run: a block, a child that becomes the published head, and the block's rejection; no error is pending and the published head is no longer a record |
| HeadLoss.SweepTakesHeadExactly | src/publisher.rs:1766-1815 | A slice removes the head if and only if the walk under way was started from the head's own record and following stored parents from where it stands meets a conflict within the budget; otherwise the head's record is what it was |
| HeadLoss.NewSweepSparesHead | src/publisher.rs:1487-1495 | The slice that follows a new checkpoint never removes the head |
| HeadSurvival.TickTakesHeadExactly | src/publisher.rs:1678-1718 | Maintenance loses the head if and only if its slice does; expiry never removes it |
| EdgeRuns.SweepTakesHead | src/publisher.rs:1766-1813 | A run: a block other than the anchor is finalized, a walk from the anchor's child comes to the anchor, the child becomes the head, and the next tick removes it; no error is pending and the published head is no longer a record |
| EdgeCases.StageFallsExactly | src/publisher.rs:1603-1603 | After an execution event that succeeds a validated record is still there, and has fallen back to executed if and only if the event re-projected it after eviction with its parent's projection at hand |
| EdgeRuns.StageFalls | src/publisher.rs:1603-1603 | A run: a block is executed, validated, evicted for its sibling and executed again; no error is pending and it is only executed |
| Finality.SlicingIsInvisible | src/publisher.rs:1759-1821 | Budget a and then b gives the same store, the same retirements in the same order and the same work as a + b |
| Finality.WorkWithinBudget | src/publisher.rs:1759-1821 | A slice never exceeds its budget, and stops short of it only when nothing is left to do |
| FinalitySound.FinalitySoundness | src/publisher.rs:1759-1859 | A slice removes a record only if it is off the finalized chain itself or has a proper ancestor that is, or that was tombstoned before; all others stay; the live sweep is about the last finalized checkpoint and all it remembers is true, across slices, inserts and removals |
| FinalityComplete.SweepRemovesConflicts | src/publisher.rs:1759-1859 | The converse: once a slice has left nothing to do, every record other than the head that waited for it and whose stored ancestry meets another hash at the finalized height, a remembered conflict, or a tombstone that cannot age out, is gone, terminal, and among the retired if it was tracked |
| FinalityComplete.SweepIsExact | src/publisher.rs:1759-1859 | With consecutive numbers, a head that is a record and room to tombstone every record: a new checkpoint's sweep, once drained, has removed exactly the records other than the head whose stored ancestry reaches the finalized height at another hash or ends under a tombstone |
| SparedRuns.AgedTombstoneSpares | src/publisher.rs:2024-2033 | A run with room for three records and three tombstones: a deferred child of a rejected block conflicts when the sweep begins, burying another record pushes its parent's tombstone out, and when the sweep has nothing left to do the child is still a record; no error is pending |
| FinalityComplete.OnlyConflictsGo | src/publisher.rs:1823-1859 | However far it has come, such a sweep has removed only records that conflicted when it began |
| FinalitySound.AdvanceSound | src/publisher.rs:1823-1859 | One step of a walk gives a verdict that is true of the chain, or no verdict, or moves the walk to the parent one block down |
| StoreFaith.BeginSweepGood | src/publisher.rs:1720-1730 | Beginning a sweep keeps the store invariant, the truth of its projections, its limits and the soundness of what a sweep remembers |
| FinalityWork.SweepAlwaysDrains | src/publisher.rs:1759-1859 | Every sweep drains within (pending tickets + 1) times (records + 1) units, whatever its walks find, because a walk never meets a record twice |
| FinalityLinear.SweepDrains | src/publisher.rs:1786-1788 | On a store within its record limit in which every record above the checkpoint but a childless head has its parent one block lower, or under a tombstone that cannot age out, and records tombstoned before have such tombstones, a sweep drains within one unit for each ticket and each record, plus one for a walk under way |
| FinalityLinear.ClassifiesExactly | src/publisher.rs:1797-1815 | With consecutive numbers and records within their limit, a sweep that begins on a store never leaves a walk unclassified, for any budget, if the store is like that, and only if every record above the checkpoint but a childless head has its parent one block lower or tombstoned; where there is room to tombstone every record the two conditions are one |
| FinalityQuadratic.QuadraticWork | src/publisher.rs:1786-1788 | A run for every n: the publisher starts above the checkpoint, n - 1 more blocks are executed, the last becomes the head, and after the forkchoice's slice and k ticks the sweep is not done, whenever the k + 1 slices do at most n (n - 1) / 2 units |
| FinalityQuadratic.LinearWorkFails | src/publisher.rs:1786-1788 | In those runs there are n tickets and n records when the sweep begins, and from n = 5 on one unit for each of them is not enough |
| FinalityWork.SliceFootprint | src/publisher.rs:1759-1821 | A slice adds at most one hash per unit of its work, so at most its budget, to the verdicts and the path a sweep remembers |
| FinalityWork.PathBound | src/publisher.rs:1823-1859 | A walk's path is no longer than its root is above the checkpoint |
| FinalityWork.WalkFalls | src/publisher.rs:1823-1859 | Each unit takes a walk exactly one block down, never below the finalized height, or ends it |
| HeadSurvival.InsertHolds | src/publisher.rs:1404-1410 | A successful insertion evicts neither the inserted projection nor the head that is still published |
| HeadSurvival.SweepHolds | src/publisher.rs:1766-1813 | If, before a slice, neither the head nor an ancestor of it is tombstoned or off the finalized chain, the slice does not remove the head, not even by a walk that started from it before it became the head |
| HeadSurvival.HeadSurvivesExactly | src/publisher.rs:1333-1497 | Along every run the head is a held record whenever no error is pending, if and only if no command that succeeds is the effective rejection of a proper ancestor of the head it meets, or a tick that finishes a walk from that head with a conflict |
| HeadHonesty.PublishedHeadSurvives | src/publisher.rs:1333-1497 | The same for every run in which no ancestor of the published head had its rejection published or is off a published finalized checkpoint |
| HeadHonesty.StepLaw | src/publisher.rs:1289-1331 | Every tombstone a turn sets, failed turns included, is explained by a published rejection or a published finalized checkpoint |
| HeadHonesty.TombstonesAreExplained | src/publisher.rs:1289-1331 | In every run every tombstone is of a block of which itself or an ancestor had its rejection published or is off a published finalized checkpoint |
| QueueBounds.MemoryBounded | src/publisher.rs:2035-2060 | In every run, failed turns included, the record and projection queues stay within three times their limits and the children index within the record limit, each with one more while an error is pending, and the sweep's queue and the tombstones within their limits, however many records came and went, because compaction keeps stale tickets below twice the limit |
| QueueBounds.RemoveOneTight | src/publisher.rs:1973-1973 | A removal makes tickets stale and never more of them than twice the limit |
| QueueBounds.QueuedPending | src/publisher.rs:1743-1756 | Queueing a check keeps the sweep's queue short and free of repeats |
| QueueBounds.ChildrenBounded | src/publisher.rs:2000-2005 | The index has at most one list per record |
| Shown.OtherCommandsShowNothing | src/publisher.rs:863-971 | Executed, validated, rejected, evicted and expired blocks never change the handshake state |
| Types.Resolve | src/feed.rs:68-81 | The view has the applied head with its number, and as safe and as finalized checkpoint the applied one if it is at or below the head and none otherwise |
| Shown.ForkchoiceIsShown | src/publisher.rs:1437-1497 | A forkchoice the last snapshot covers changes nothing; any other that succeeds leaves as the handshake state its own head and, field by field, its own view: the head with its number, and each checkpoint that is not above it |
| Shown.ReanchorIsShown | src/publisher.rs:1517-1546 | A re-anchor leaves exactly what it read as the handshake state, with the time it was read at, and a store with that head as its only record, held and validated, no tombstones, no sweep, and finality where the view has it; or it changes nothing |
| Shown.ActivationIsShown | src/publisher.rs:1233-1287 | So does an activation under the new dictionary; it never breaks the stream |
| Retention.RetentionAgreement | src/publisher.rs:1895-1998 | In every run in which nothing spoiled by a rejection is validated or made canonical, and whenever no error is pending, an unbounded consumer retains everything the publisher tracks, and what else it retains is spoiled; without rejections the two sets are equal |
| Retention.RejectionMatches | src/bin/statefeed-dump.rs:509-519 | A rejection removes a subtree on both sides, each by its own ancestry, and the agreement survives |
| Retention.RejectionEvenExactly | src/publisher.rs:1934-1947 | From equal sets a rejection leaves equal sets if and only if the consumer traces to the rejected block every tracked block that the publisher does |
| EdgeRuns.ConsumerKeepsMore | src/bin/statefeed-dump.rs:509-519 | A run: a chain of three blocks in a cache for two, and the rejection of the first; the publisher forgets the last and the consumer, which was told to forget the one between, keeps it |
| Consumer.CandidateTracker.constructor | src/bin/statefeed-dump.rs:468-475 | An empty cache whose index is the inverse of its parents |
| Consumer.CandidateTracker.Insert | src/bin/statefeed-dump.rs:477-497 | The newest entry is in, the oldest is out if that was one too many, a known block moves under its new parent and keeps its age |
| Consumer.CandidateTracker.RemoveTree | src/bin/statefeed-dump.rs:509-519 | Exactly the root and everything retained that reaches it over retained parents is forgotten, cycles included |
| Consumer.CandidateTracker.RemoveExact | src/bin/statefeed-dump.rs:521-536 | One block is forgotten and its descendants stay; index and order stay exact |
| Consumer.CandidateTracker.Clear | src/bin/statefeed-dump.rs:499-503 | Everything is forgotten |
| Consumer.CandidateTracker.Apply | src/bin/statefeed-dump.rs:70-259 | A frame does to the bounded cache exactly what it does to an unbounded one, while that fits |
| Consumer.CandidateTracker.Follow | src/bin/statefeed-dump.rs:42-260 | Over a whole log the bounded cache is exactly what an unbounded consumer retains, while that always fits; `Retention.RetentionAgreement` says what that is for every run |
| Discipline.EveryRunIsOrderly | src/publisher.rs:1233-1576 | In every run a failed encode is followed by nothing but gaps until one is published, each naming the last committed sequence; every gap and every dictionary is followed at once by its snapshot; generations only move with dictionaries; the handshake state is the fold of the committed frames |
| Discipline.PlainOrderly | src/publisher.rs:285-323 | An ordinary frame continues a log in order, or tears it if it does not encode |
| Discipline.GapOrderly | src/publisher.rs:1499-1515 | A gap may follow any log that owes no snapshot and leaves one owed |
| Discipline.ReanchorOrderly | src/publisher.rs:1517-1546 | A re-anchor publishes the owed snapshot or nothing |
| Discipline.ActivateOrderly | src/publisher.rs:1233-1287 | An activation publishes dictionary and snapshot together or nothing |
| Stream.StreamCursor.constructor | src/bin/statefeed-dump.rs:265-286 | A cursor waits for Hello |
| Stream.StreamCursor.Observe | src/bin/statefeed-dump.rs:289-377 | The cursor takes a frame exactly when it is in its place, and otherwise stays where it is; `Refusal.AcceptedExactly` says what that amounts to over a stream |
| Stream.ReadStream | src/bin/statefeed-dump.rs:42-260 | The reading loop stops at the first frame that is out of place, of the wrong generation or of the wrong size |
| Refusal.AcceptedExactly | src/bin/statefeed-dump.rs:42-377 | A stream is accepted if and only if it begins with Hello, dictionary and snapshot of one sequence and generation, every later frame is the next in sequence or a gap that names its predecessor, a gap and a dictionary are followed by a snapshot, there is no other Hello, and every payload fits the dictionary in force |
| Refusal.MissingFrameIsRefused | src/bin/statefeed-dump.rs:333-375 | An accepted stream with a frame after the greeting left out is refused, whatever frame follows it, a gap included |
| Refusal.RepeatedFrameIsRefused | src/bin/statefeed-dump.rs:333-375 | An accepted stream with any frame repeated is refused |
| Stream.ReadFollows | src/bin/statefeed-dump.rs:333-375 | A reader in step with a log takes its next frame and is in step again; an attempt that did not encode leaves it in step |
| Stream.ReadsOn | src/bin/statefeed-dump.rs:333-375 | From any point where reader and log are in step, the reader takes every later frame |
| Handshake.HandshakeLinearizable | src/publisher.rs:2584-2657 | For every interleaving of allocate, encode, store, commit and send with subscribe, load, load and receive: an accepted handshake state is the fold of all state-changing frames up to the baseline, and the consumer is written an initial part of the frames above it, each once and in order; unless overrun, only what waits in its inbox is missing |
| Handshake.ServedExactly | src/publisher.rs:2584-2644 | A consumer is served if and only if the state stored when it loads it is not in recovery and has a view of its own head; it is handed that state, with a baseline no older than what was committed when it subscribed |
| Handshake.InboxDrains | src/publisher.rs:2645-2657 | A consumer that was not overrun is written, one receive per frame, everything in its inbox above the baseline |
| Handshake.EveryStreamIsAccepted | src/publisher.rs:2572-2661 | Whatever run produced the log, however the handshake interleaved and wherever it stopped, the reader accepts the greeting and every delivered frame, sequence holes included, and every payload fits the dictionary in force |
| Told.ConsumersAreTold | src/publisher.rs:2572-2661 | Whatever run produced the log and however the handshake interleaved, a consumer that goes by the greeting and the frames it is written meets none that does not fit what came before, and knows at each of them the canonical projection, the forkchoice view and the recovery flag as of that frame, a dictionary with its snapshot; once everything is written, those of the publisher |
| Told.RunUpToDate | src/publisher.rs:285-323 | In every run every frame but a dictionary tells, to whoever knew the handshake state before it, the handshake state after it |
| Handshake.StateSince | src/publisher.rs:300-312 | The state a log leaves was stored at the sequence it is tagged with and has not changed since |
| Handshake.EmittedAbove | src/publisher.rs:2645-2650 | Dropping frames at or below the baseline leaves the frames above it, whether counted from the subscription or from the baseline |
| Stream.EmittedExactly | src/publisher.rs:285-323 | The emitted sequences are exactly the encoded ones, each once, in order |
| LossWord.EnqueueState.constructor | src/feed.rs:214-232 | Nothing reserved, nothing lost |
| LossWord.EnqueueState.TryReserve | src/feed.rs:396-409 | A reservation succeeds exactly when nothing is reserved and nothing is lost |
| LossWord.EnqueueState.RecordDrop | src/feed.rs:434-446 | A drop is counted, saturating, and leaves the reservation as it is |
| LossWord.EnqueueState.Release | src/feed.rs:416-421 | Giving the reservation up keeps the count and tells whether a notice is owed |
| LossWord.EnqueueState.TakePendingLoss | src/feed.rs:356-376 | Takes the whole count, unless a producer is in its critical section |
| Handoff.Convergence | src/reth_integration.rs:279-308 | In every interleaving the latest revision is shown, on its way, or its loss is known or about to be; once all is quiet no loss is pending and the latest revision is shown |
| Handoff.Settles | src/publisher.rs:559-680 | With producers idle, every sequence of enabled and successful publisher steps other than control events and ticks is bounded in length, and it can end only at rest with the latest revision shown |
| Converge.PublishedConverges | src/publisher.rs:557-665 | Hand-off and publisher together, in every interleaving with every failed command: once all is quiet no loss or error is pending, and what consumers are shown is the head the engine applied last with its number, and each checkpoint of its view that is not above that head, or a coherent snapshot if it has forgotten its view |
| Converge.ShownIsPublished | src/publisher.rs:1437-1576 | Outside recovery, in every interleaving, the published head and view are, field by field, those of the revision the hand-off takes to be shown |
| Converge.EveryEventHasItsCommand | src/reth_integration.rs:279-308 | A forkchoice event in the publisher's hands always names a revision that has a view, so the joint runs never lack a command for an event |
| Handoff.NoDropIsForgotten | src/feed.rs:434-446 | Recorded drops equal returned ones plus the pending count plus those beyond the counter; the lock bit is set if and only if exactly one producer is in its critical section |
| Handoff.RecoveryComesFirst | src/feed.rs:394-422 | While a drop is pending no reservation succeeds, and when an event is handled every drop recorded before its reservation has been recovered from |
| Handoff.NoLostWakeUp | src/publisher.rs:559-635 | If the publisher polls, or recovers from failed maintenance and will poll without another take, while the word is unlocked and non-zero and nobody still has to notify, the wake-up channel holds a token |
| Handoff.TimeFilter | src/publisher.rs:1451-1453 | An event the time filter skips is covered by what is shown; one it lets through is not older than that, so at most the snapshot's own revision is shown again |
| Handoff.ConfirmedSnapshot | src/reth_integration.rs:397-434 | A snapshot confirmed at the revision it selected covers every event observed no later than its time stamp, and leaves of the others none older than itself |
| Conserved.EventsAreConserved | src/publisher.rs:559-650 | In every interleaving, recoveries included, the events handed to their handlers are those that entered the queue, in that order, but for the ones still in the queue or in hand |
| Conserved.ControlsAreConserved | src/publisher.rs:559-650 | Every control event that is taken is handled, but for one still in hand |
| Conserved.ReadsEnd | src/reth_integration.rs:397-434 | In every interleaving a newer dictionary is taken up with a selection of the head, and a reset the snapshot does not cover with a recovery; a selection is attempted at most four times; a recovery ends only with a confirmed one and resumes where it was interrupted; an activation ends with a confirmed one or is given up, after the fourth attempt or when one failed although the tracker had not moved; until then what is shown does not change |
| Watch.Compile | src/watch.rs:59-105 | For unique coordinates: every key is found once under its account, accounts ascend, slots ascend strictly, large accounts and only those have a complete reverse index, and the address index says where each account is |
| Watch.SortSlots | src/watch.rs:81-81 | The sorted slots are a permutation in ascending order |
| Watch.SortedIsAscending | src/watch.rs:80-92 | Unique coordinates of one account sort into strictly ascending slots that are still exactly its keys |
| Watch.Search | src/feed.rs:521-526 | Binary search finds the key of a slot or shows that there is none |
| Extraction.FindKey | src/feed.rs:521-529 | Reverse index and binary search give the same answer: the one configured key of the coordinate, or none |
| Extraction.ScanWatched | src/feed.rs:496-514 | Scanning the watched slots of an account reports exactly its keys with an update, once, with the value; a destroyed account clears absent slots |
| Extraction.ScanStorage | src/feed.rs:514-537 | So does scanning the slots the bundle holds, in any order, for an account that was not destroyed |
| Extraction.ScanAccounts | src/feed.rs:471-476 | So does scanning the watched accounts |
| Extraction.ScanBundle | src/feed.rs:477-483 | So does scanning the accounts of the bundle, in any order |
| Extraction.ExtractChanges | src/feed.rs:467-486 | Whichever side is scanned, exactly the keys with an update are reported, once, with the value |
| Extraction.StrategiesAgree | src/feed.rs:467-538 | Any two reports of a bundle have the same changes |
| Extraction.ExtractionSquare | src/feed.rs:467-538 | The report, applied to the projected state before the block, gives the projected state after it, destroyed accounts included, with an exact bitmap |
| LiveStore.Broadcaster.constructor | src/publisher.rs:107-132 | Nothing published, nothing committed, the first state in place |
| LiveStore.Broadcaster.PublishInner | src/publisher.rs:285-323 | A sequence is always used up and the log grows by one; the sequence and the state are committed only if the frame encodes, and otherwise nothing else changes |
| LiveStore.Broadcaster.PublishRetired | src/publisher.rs:1977-1998 | Retirements go out in order in batches; the first batch that fails stops them |
| LiveStore.CandidateStore.constructor | src/publisher.rs:773-828 | A store anchored at the first head |
| LiveStore.CandidateStore.InsertTombstone | src/publisher.rs:2024-2033 | The tombstone is listed once, and the oldest goes when there are too many |
| LiveStore.CandidateStore.CompactOrderQueues | src/publisher.rs:2039-2060 | A queue past twice its limit keeps exactly its live tickets, in order |
| LiveStore.CandidateStore.RemoveOne | src/publisher.rs:1949-1975 | Leaves the store `Store.RemoveOne` gives and says whether the record was tracked |
| LiveStore.CandidateStore.RemoveCandidateTree | src/publisher.rs:1934-1947 | The worklist loop ends, and leaves the store the recursive removal gives |
| LiveStore.CandidateStore.AddChild | src/publisher.rs:2000-2005 | Exactly one more pair is listed, or none if it was, and lists stay non-empty and free of repeats |
| LiveStore.CandidateStore.AllocateIncarnation | src/publisher.rs:2018-2022 | The incarnation given out is one no record has, and the next one will be too |
| LiveStore.CandidateStore.QueueFinalityCheck | src/publisher.rs:1732-1757 | A new record is queued for the live sweep or starts one about the last finalized checkpoint, and an overgrown queue keeps its live tickets |
| LiveStore.CandidateStore.FileProjection | src/publisher.rs:1578-1631 | A known record keeps its incarnation and, if tracked, its first sequence; a new one is enlisted; only a gained projection is counted and queued |
| LiveStore.CandidateStore.FileDeferred | src/publisher.rs:1643-1665 | A deferred delta is filed; a known record keeps its incarnation, a new one gets one of its own and a ticket, and every other record and earlier ticket is as it was |
| LiveStore.CandidateStore.TrimProjectionCache | src/publisher.rs:1879-1911 | The scan with its rotation, its running count and its error leaves exactly the store, the retirements and the verdict of the closed form |
| LiveStore.CandidateStore.TrimRecords | src/publisher.rs:1913-1932 | So does the record scan |
| LiveStore.CandidateStore.SweepOnce | src/publisher.rs:1766-1815 | One unit of budget on the sweep that was taken out of the store, as `Finality.SweepUnit` has it |
| LiveStore.CandidateStore.ProcessBudget | src/publisher.rs:1759-1821 | The budgeted loop leaves the store, the retirements and the work `Finality.ProcessFinality` gives, of which `FinalitySound.FinalitySoundness` and `FinalityComplete.SweepIsExact` say which records go |
| LiveStore.CandidateStore.CollectDue | src/publisher.rs:1690-1708 | Expired records other than the head, each once, as many as the budget allows and all of them if it is not used up, deferred ones only after all the others |
| LiveStore.CandidateStore.ExpiredAmong | src/publisher.rs:1690-1708 | The scan of one map finds hashes other than the head whose time has come, each once, and all of them unless the budget is spent |
| LiveStore.CandidateStore.RemoveEach | src/publisher.rs:1709-1714 | Each due record is removed and the tracked ones are listed in order |
| LiveStore.CandidateStore.MoveHead | src/publisher.rs:1423-1429 | The head moves, the previous one begins to age, and a first sequence is noted once; records, incarnations, projections, queues, index and tombstones are untouched |
| LiveStore.CandidateStore.ResetCandidates | src/publisher.rs:2073-2103 | The new anchor is the only record, no ticket from before the reset is live, and the limits are met |
| PublisherThread.Thread.constructor | src/publisher.rs:773-828 | A healthy thread in the start state |
| PublisherThread.Thread.InsertCandidate | src/publisher.rs:1578-1637 | File, trim the cache, announce, trim the records, announce; the first error stops it; on success the thread is healthy |
| PublisherThread.Thread.InsertDeferred | src/publisher.rs:1639-1676 | A tombstoned or known block is left alone; otherwise file, trim, announce |
| PublisherInvariants.ParentValuesTrue | src/publisher.rs:1037-1133 | Values a block is projected from, cached or read, are its parent's true values one block lower |
| PublisherThread.Thread.PublishCandidate | src/publisher.rs:1135-1166 | Apply the delta, publish the projection, store it |
| PublisherThread.Thread.ProjectCandidate | src/publisher.rs:990-1166 | All branches of an executed or validated block, and health on success; `Effects.ExecutionActs` and `Effects.ValidationActs` say what they come to |
| PublisherThread.Thread.PromoteKnown | src/publisher.rs:1195-1222 | An executed record is validated; consumers are told only of a projection they hold |
| PublisherThread.Thread.PromoteValidated | src/publisher.rs:1178-1231 | A validation by hash promotes a record, reconstructs a deferred block, or is ignored; `Effects.PromotionActs` and `Effects.ValidationActs` say when and how |
| PublisherThread.Thread.Rejected | src/publisher.rs:1289-1331 | Only an executed or deferred record is rejected, after the frame is out, with its subtree |
| PublisherThread.Thread.AdvanceHead | src/publisher.rs:1402-1429 | Compare, insert, publish, then move the head |
| PublisherThread.Thread.Canonical | src/publisher.rs:1333-1435 | Cached or reconstructed head, time filter, generation and shape checks |
| PublisherThread.Thread.NoteFinalized | src/publisher.rs:1487-1495 | A moved checkpoint starts a sweep and gives it one slice |
| PublisherThread.Thread.ForkchoiceAppliedTo | src/publisher.rs:1460-1496 | A coherent view of the published head is published, then finality is noted; `Expiry.FinalityActs` says what goes |
| PublisherThread.Thread.ForkchoiceChanged | src/publisher.rs:1437-1497 | A forkchoice moves the head if it has to and then publishes the view |
| PublisherThread.Thread.Reanchor | src/publisher.rs:1517-1546 | A read resets the store and publishes its snapshot exactly if it coheres, and then the thread is healthy whatever it was before; any other changes nothing |
| PublisherThread.Thread.ResetCanonicalState | src/publisher.rs:917-941 | Gap, then re-anchor, unless the snapshot already covers the reset |
| PublisherThread.Thread.Activate | src/publisher.rs:1233-1287 | A newer dictionary and its snapshot go out together; a failed read leaves everything as it was |
| PublisherThread.Thread.RecoverUntilSuccess | src/publisher.rs:1548-1576 | The gap is announced once over any number of attempts, and the loop ends with the first read that coheres |
| PublisherThread.Thread.Maintain | src/publisher.rs:1678-1718 | A slice of the sweep, then what is left of the budget on expired records: on success none but the head is left past its time unless that budget was spent, and every tracked record that went is named in a retirement frame for its reason |
| PublisherThread.Thread.Handle | src/publisher.rs:863-988 | Every command leaves the state and the verdict its specification gives, and a healthy thread if it succeeds; a tick that succeeds expires what is due |
| PublisherThread.Thread.Serve | src/publisher.rs:557-650 | Running over any series of commands is `Run`, leaves a valid state whose whole log is true, and every tick between errors expired what was due: the theorems about runs are theorems about this loop |
| Usdd.SellCapacityIsOptimal | validation/src/ConversionModels.sol:41-66 | The largest gem amount that meets both ceilings, the collateral check and the dust floor, or 0 if there is none |
| Usdd.BuyCapacityIsOptimal | validation/src/ConversionModels.sol:70-99 | The largest repayable and withdrawable gem amount, or 0, if and only if the dust cut does not go below the least safe repayment |
| Usdd.BuyCapacityOfSafeVault | validation/src/ConversionModels.sol:70-99 | In particular for every vault whose collateral covers its debt |
| Usdd.BuyCapacityCutTooDeep | validation/src/ConversionModels.sol:93-97 | A vault for which seven gems are reported although repaying seven leaves it unsafe |
| Gsm.BuyQuotesAreAdjoint | validation/src/ConversionModels.sol:149-186 | Shares cost no more than g if and only if they are no more than what g buys |
| Gsm.SellQuotesAreAdjoint | validation/src/ConversionModels.sol:162-198 | Shares yield at least g if and only if they are at least what must be sold for g |
| Gsm.BuyFeeInverts | validation/src/ConversionModels.sol:149-160 | Inverting the buy fee recovers the gross price exactly, total is gross plus fee, and the quote gives at least the shares asked for |
| Gsm.SellQuoteUsesNoMore | validation/src/ConversionModels.sol:162-174 | A sell quote uses no more shares than offered and no higher gross price than they have |
| Gsm.QuotesStayWithin | validation/src/ConversionModels.sol:176-198 | What is bought never costs more than offered and what is sold never yields less than asked, at the price the forward quote gives |
| Gsm.QuotesAddUp | validation/src/ConversionModels.sol:162-198 | In every quote the fee is the fee on its gross price and the total is gross plus or less fee; a quote for an amount of GHO is at the price of the shares it names |
| Gsm.PriceIsRounded | validation/src/ConversionModels.sol:245-248 | The price is the asset value at the 27-decimal rate, rounded to a whole asset unit up for a buyer and down for a seller, and carried from 6 to 18 decimals |
| Gsm.FeeIsLeast | validation/src/ConversionModels.sol:255-257 | The fee is the least amount that covers its basis points of the gross price |
| Gsm.IncomeGrows | validation/src/ConversionModels.sol:128-139 | Income is never below the index, meets it at the last update and never falls with time |
| Gsm.IncomeIsRounded | validation/src/ConversionModels.sol:128-139 | There is an income exactly from the last update on; it is the index times one plus the interest for the elapsed part of a year of 31536000 seconds, the interest rounded down and the product to the nearest unit with halves up |
| Rounding.CeilThenFloor | validation/src/ConversionModels.sol:154-156 | Rounding up by a factor of at least one and down by its inverse loses nothing |
| Rounding.FloorOfRest | validation/src/ConversionModels.sol:167-168 | Taking a rounded-up fee away is rounding down the rest |

## Left out
- Sockets, Tokio tasks, consumer limits, write timeouts, CPU pinning, spinning, metrics and tracing: input and output without a state property.
- Protobuf and length-prefix framing: a frame either encodes or not, and Snapshot and ConfigActivated frames, which are measured beforehand, always do.
- Packed 32-byte values: projections hold one number per key, so truncated or misaligned byte strings are not modelled; hash lengths, names and reason strings in frames neither.
- Configuration files, reload debouncing and retry delays: only the validated facts remain (unique coordinates, cache limit at least 2, metadata limit at least the cache limit, positive retention and budget).
- Reth, revm and the provider: `load_at` returns the chain's values or fails, a bundle's recorded original value is the value before the block for accounts that were not destroyed.
- Weak memory: atomic steps are sequentially consistent. The tracker's two writes are one step, since one engine thread makes both.
- A clock with ties: time stamps in the hand-off are strictly increasing.
- Wrap-around of 64-bit incarnations, sequences and revisions, and 256-bit overflow in the conversion models; the saturation of the join inventory and of the drop counter is modelled.
- LiveStore.CandidateStore: the publisher's record fields are an object of their own beside the thread's time stamp and the broadcast log; in the source all are fields of one struct.
- Store.Store: `anchor` and `terminal` are history that no operation reads, kept to state what the index and the sweep mean.
- Publisher.Due: expired records are removed in any order the maps may yield, candidates before deferred ones; a tick whose list is not such a list only sweeps, and `PublisherThread.Thread.Maintain` always finds one that is.
- Publisher.InsertCandidate: every call in the source passes `tracked` as true, so the parameter is not modelled.
- Handoff: shutdown and a disconnected queue are not modelled. The first snapshot is read by the same steps as any other and retried; in the source a failed first read ends the service.
- Converge: a reset event announces its gap and leaves the read to the recovery that follows, which `Converge.ResetThenRetry` shows to come to the same; a control event's dictionary is only known to be newer.
- QueueBounds.MemoryBounded: says nothing of a sweep's verdicts and path. They are not bounded by the limits, since a sweep that new records keep busy goes on remembering; `FinalityWork.SliceFootprint` and `FinalityWork.PathBound` are their bounds.
- Handoff.LoadAt: without an applied forkchoice the source also compares the provider's head and checkpoints before and after; here that is one yes or no.
- Retention.RetentionAgreement: the consumer is unbounded and attached since the start; a bounded one may keep less. While an error is pending the two sides may differ, since a retirement that did not encode changed only one of them; the gap and the snapshot that end the error leave both with the anchor.
- FinalityComplete.SweepIsExact: where a tombstone may age out during the sweep, which conflicting records stay depends on the order of the removals, and only `FinalityComplete.SweepRemovesConflicts` is stated.
- FinalityLinear.ClassifiesExactly: where a tombstone may age out during the sweep, which walks are left unclassified depends on the order of the removals, and only the two one-sided conditions are stated.
- PsmModel, maxDeposit, unpacking of packed words and the registry guards in the conversion models: direct arithmetic or bit selection that would only add easy members.
