# Verified model of the Merkle-DAG fetching code

The repository compares data-transfer protocols. Its Go code under `protocol_comparison/bitswap`
fetches Merkle DAGs with real concurrent algorithms; this project models them in Dafny and proves
what they are for. `dafny verify dfyconfig.toml` checks everything.

- **Walks** (`Dag`, `VisitLog`, `DepthFirst`, `SequentialWalk`, `ParallelWalk`, `ParallelInvariant`,
  `ParallelProgress`, `ParallelTheorems`, `ParallelWalker`, `WalkDepth`). A DAG is a finite map from
  CIDs to the answer of `getLinks` (cycles allowed). `Layer(store, root, n)`, the CIDs reached by
  exactly `n` links of the store, is the reference against which both walkers are proved; it knows
  of no handler and no walker. The visit rule of `FetchGraphWithDepthLimit` with a negative limit is
  the visited-set rule of the other callers. The parallel walk is a step relation with one action
  per channel rendezvous, critical section, fetch or deferred call; a schedule is a sequence of
  actions. `Walker` is the same in the source's form, fields updated in place, and its `Run` proves
  total correctness for any scheduler. A scheduler may look at the whole state; since the measure
  makes every state different, this is no restriction. The sequential walk is the recursion of the
  source, proved to be a run of a machine with an explicit stack. `WalkDepth` chooses between the
  two as the source does.
- **Speculative walk** (`Credit`, `CreditAccounts`, `Cache`, `Race`, `Walk2`, `Walk2Progress`,
  `Walk2Lift`, `Walk2Handlers`, `Walk2Starved`). `Walk2` is one machine: the walk with either
  walker, the credit-limited prefetcher, the block receiver with its wait/alert cache, and for every
  fetch of the walk a race between a getter in that cache and the session. Each critical section is
  one action, so the gaps between them are where the proofs live. The blocks received are any blocks
  at any time.
- **Supporting pieces** (`Manifest`, `BlockService`, `NodeFetch`, `WantsTable`, `Wants`, `DeepDag`).

What the proofs brought out about the code:

- A handler that swallows the cancellation error (such as `IgnoreErrors`) makes either walk return nil
  on an incomplete visit when a fetch is cancelled; exactly the handlers that let through every error
  the content did not cause are safe (`TrustedHandlers`, `OptionHandlers`). Termination, shutdown and
  the counting hold for all of them.
- In the race of `multing.Get` a getter that fails first cancels the other's node away
  (`FailureFirst`); a node is returned in every interleaving only when both getters have it and the
  context is not done (`RaceExactly`). So `Walk2` sees `ErrNotFound` for content that exists, and with
  `IgnoreMissing` or `IgnoreErrors` it can return nil on an incomplete visit; exactly the handlers that
  let `ErrNotFound` through are safe (`Walk2Trusted`). It never sees another error from a fetch.
- The requester can wait for credit for ever. It does so exactly when nothing being or still to be
  visited is outstanding (`StuckExactly`, `StarvedExactly`): after a bogus manifest, with all credit
  outstanding (`BogusManifest`), and after an honest one whose notifications all came too early, with
  all the credit there (`MissedNotification`). The walk itself goes on and comes to its end
  (`NeverBlocked`, `WalkTerminates`).
- Settling credit relies on distinct CIDs having distinct multihashes (`PromptExactly`).
- Two pending requests for one CID make a second reply block the handler, which holds the lock on the
  table; that cannot happen exactly when pending requests name distinct CIDs (`RoomExactly`). It
  blocks for ever with three of them, or with two when requesters may leave (`LastsExactly`).
- `AddBlocks` announces more than repeated `AddBlock` does when two blocks share a new multihash, and
  distinct CIDs do not prevent that (`BatchAnnouncements`).
- `getNodesFromBG` only counts; an exchange that repeats one block and omits another passes as
  success (`Collect`, `RepeatedBlock`).

Parameters stand for what the model does not compute: the answers of `getLinks` (any answer that is the
content's or one of the allowed made-up errors), the scheduler, CID validation, decoding, hashing, the
exchange, and whether a context's Done wins a select. Every CID is defined, as the source requires of
its undefined-CID marker (mdag.go:572 and mdag.go:582); `next` is an option. A handler sees only the
error: the parallel walk passes it the walk root in place of the failing CID (mdag.go:517). In the
sequential walk, which never looks at the context itself, a cancellable context may be found done at
any fetch.

## Model

| member | source | states |
|---|---|---|
| `VisitLog.VisitRule` | movethebytes/data-transfer/protocol_comparison/bitswap/mdag/mdag.go:201-213 | the visit closure of both walkers: true exactly when the CID is within the limit and not recorded at this depth or nearer, and then it is recorded at this depth |
| `VisitLog.VisitKeeps` | movethebytes/data-transfer/protocol_comparison/bitswap/mdag/mdag.go:201-213 | a visit that answers true keeps the visit map and the log of expansions together: every recorded depth was expanded at that depth, every expansion is of the root or of a link of an earlier one, and a CID is expanded again only strictly nearer to the root (never without a limit) |
| `VisitLog.SkipKeeps` | movethebytes/data-transfer/protocol_comparison/bitswap/mdag/mdag.go:505-512 | expanding the skipped root without a visit keeps the same |
| `VisitLog.VisitUsesUp` | movethebytes/data-transfer/protocol_comparison/bitswap/mdag/mdag.go:194-213 | a visit that answers true uses up one of finitely many visits (unvisited CIDs, or depth improvements left) |
| `VisitLog.AnswerIsTrue` | movethebytes/data-transfer/protocol_comparison/bitswap/mdag/mdag.go:514-519 | after the handler, links are all the links that the store has for the CID, or none and only with a handler that swallows made-up errors; an error is what the handler makes of the content's error, or stems from cancellation or a made-up error |
| `VisitLog.OptionsReadable` | movethebytes/data-transfer/protocol_comparison/bitswap/mdag/mdag.go:353-374 | what has to be right in the store for a walk to succeed: with no handler every CID within the limit is there and has links, with IgnoreMissing nothing is wrong but missing content, with IgnoreErrors nothing is asked |
| `VisitLog.LogInLayers` | movethebytes/data-transfer/protocol_comparison/bitswap/mdag/mdag.go:499-530 | the depth of every expansion is the length of a real link path from the root to it |
| `VisitLog.RecordedIsReal` | movethebytes/data-transfer/protocol_comparison/bitswap/mdag/mdag.go:201-213 | whatever the handler, every recorded depth is in scope and the length of a real link path |
| `VisitLog.ClosedIsExact` | movethebytes/data-transfer/protocol_comparison/bitswap/mdag/mdag.go:185-213 | when the root and all links of all expansions are settled, the visit map is exactly the CIDs in scope, with a limit each at its shortest distance |
| `VisitLog.ClosedIsReadable` | movethebytes/data-transfer/protocol_comparison/bitswap/mdag/mdag.go:514-525 | and every CID within the limit could be read |
| `VisitLog.ExactIsUnique` | movethebytes/data-transfer/protocol_comparison/bitswap/mdag/mdag.go:185-213 | the exact visit map is unique: same CIDs, and with a limit the same depths |
| `SequentialWalk.Visitor.Visit` | movethebytes/data-transfer/protocol_comparison/bitswap/mdag/mdag.go:221-227 | the closure with its progress counter: a true visit is recorded and counted, a false one changes nothing |
| `SequentialWalk.Visitor.Enter` | movethebytes/data-transfer/protocol_comparison/bitswap/mdag/mdag.go:423-427 | the visit-or-skip test is the visit step of the depth-first machine |
| `DepthFirst.InvKept` | movethebytes/data-transfer/protocol_comparison/bitswap/mdag/mdag.go:422-445 | every visit and every answer keeps: map and log belong together, the stack comes from the log, the total counts the visits, an error is accounted for; and, with a handler that lets made-up errors through, every link of every expansion is settled or on the stack |
| `DepthFirst.LinksInOrder` | movethebytes/data-transfer/protocol_comparison/bitswap/mdag/mdag.go:438-444 | the sequential walk takes links in order: whatever it expands is the root, or a link of an earlier expansion whose links before it were all done by then |
| `DepthFirst.StepLess` | movethebytes/data-transfer/protocol_comparison/bitswap/mdag/mdag.go:422-445 | every visit and every answer decreases a lexicographic measure: visits left, fetch under way, items on the stack |
| `DepthFirst.EndedExact` | movethebytes/data-transfer/protocol_comparison/bitswap/mdag/mdag.go:422-445 | an empty stack without error then means an exact visit map and readable content |
| `DepthFirst.EndedReadable` | movethebytes/data-transfer/protocol_comparison/bitswap/mdag/mdag.go:429-437 | without interference the walk succeeds exactly on readable DAGs |
| `SequentialWalk.SequentialWalkDepth` | movethebytes/data-transfer/protocol_comparison/bitswap/mdag/mdag.go:422-445 | terminates on every DAG (cycles too), for every handler and every getter answer; one call takes the depth-first machine from the item on top of its stack to the rest of the stack, or to the error returned |
| `SequentialWalk.Expansion` | movethebytes/data-transfer/protocol_comparison/bitswap/mdag/mdag.go:429-444 | fetch, handler and links of one expansion are a run of the machine |
| `SequentialWalk.WalkLinks` | movethebytes/data-transfer/protocol_comparison/bitswap/mdag/mdag.go:438-444 | so is the loop over the links, up to the first error |
| `SequentialWalk.WalkFromRoot` | movethebytes/data-transfer/protocol_comparison/bitswap/mdag/mdag.go:409-445 | the whole sequential walk, for every handler: what was visited is really there, the progress total counts it, an error is the content's or an interference; nil from a handler that lets made-up errors through means an exact visit map; with nothing made up it succeeds exactly on readable DAGs |
| `ParallelWalk.EnqueueAll` | movethebytes/data-transfer/protocol_comparison/bitswap/mdag/mdag.go:575-588 | received links are queued completely and in order behind what waited, an empty next being filled first |
| `ParallelInvariant.InitInv` | movethebytes/data-transfer/protocol_comparison/bitswap/mdag/mdag.go:547-554 | the invariant holds at the start |
| `ParallelInvariant.ControlKept` | movethebytes/data-transfer/protocol_comparison/bitswap/mdag/mdag.go:547-595 | every action keeps: inProgress is the busy workers plus the jobs whose done was never delivered, none of the latter without cancellation; send is open exactly while an item waits; a nil result means nothing in progress |
| `ParallelInvariant.SoundKept` | movethebytes/data-transfer/protocol_comparison/bitswap/mdag/mdag.go:497-595 | every action keeps, for every handler: everything queued, visited, sent or reported is justified by the DAG and the log, and the progress total is the number of true visits |
| `ParallelInvariant.CompleteKept` | movethebytes/data-transfer/protocol_comparison/bitswap/mdag/mdag.go:497-595 | with a handler that lets made-up errors through every action keeps: as long as no job was lost, each link of each expansion is settled, waiting, being visited, or still to be delivered |
| `ParallelInvariant.ConservedKept` | movethebytes/data-transfer/protocol_comparison/bitswap/mdag/mdag.go:558-588 | with such a handler every action keeps: items fed, waiting and undelivered are the root plus the links of all expansions |
| `ParallelInvariant.InvAlways` | movethebytes/data-transfer/protocol_comparison/bitswap/mdag/mdag.go:473-596 | the invariant holds after every schedule of coordinator, workers and cancellation, for every handler |
| `ParallelProgress.NoDeadlock` | movethebytes/data-transfer/protocol_comparison/bitswap/mdag/mdag.go:495-596 | before it has returned the walk always has a step it can take that needs neither ticker nor cancellation |
| `ParallelProgress.StepLess` | movethebytes/data-transfer/protocol_comparison/bitswap/mdag/mdag.go:495-596 | every step but the ticker decreases a lexicographic measure: visits left, expansions to deliver, items waiting, phases |
| `ParallelProgress.ProgressTheorem` | movethebytes/data-transfer/protocol_comparison/bitswap/mdag/mdag.go:495-596 | in every reachable state, for every handler: inProgress is the busy workers plus the lost jobs, every step but the ticker decreases the measure, and before the return there is a step to take |
| `ParallelProgress.ShutdownStep` | movethebytes/data-transfer/protocol_comparison/bitswap/mdag/mdag.go:491-545 | outside the loop every step brings a worker nearer to its exit or the coordinator to its return, feeds nothing and keeps the result |
| `ParallelProgress.ShutdownTheorem` | movethebytes/data-transfer/protocol_comparison/bitswap/mdag/mdag.go:491-545 | for every handler and however the loop was left, every further schedule has at most 3 steps per worker plus 4, nothing more is fed, and one that cannot go on has all workers exited and the result returned |
| `ParallelTheorems.NilTheorem` | movethebytes/data-transfer/protocol_comparison/bitswap/mdag/mdag.go:473-596 | over every schedule and for every handler, cancellation and made-up errors included: nil only when nothing waits, nobody is busy and no job was lost, everything visited is really there and the progress total counts it; with a handler that lets made-up errors through, moreover, the visit map is exact, everything was readable, and the items fed are 1 plus the links of all expansions |
| `ParallelTheorems.SuccessTheorem` | movethebytes/data-transfer/protocol_comparison/bitswap/mdag/mdag.go:570-595 | without interference the walk that has left its loop has succeeded exactly on readable DAGs, for every handler and schedule |
| `ParallelTheorems.QueueInOrder` | movethebytes/data-transfer/protocol_comparison/bitswap/mdag/mdag.go:558-588 | over every schedule the items fed and those waiting are, in this order, the root and the links in the order in which they were received |
| `WalkDepth.WalkTheorem` | movethebytes/data-transfer/protocol_comparison/bitswap/mdag/mdag.go:409-420 | whichever walker the number of workers selects: what was visited is really there and counted, and nil from a handler that lets made-up errors through means an exact visit map and readable content |
| `WalkDepth.StepLess` | movethebytes/data-transfer/protocol_comparison/bitswap/mdag/mdag.go:409-420 | with either walker every step but the ticker decreases the measure |
| `WalkDepth.Completes` | movethebytes/data-transfer/protocol_comparison/bitswap/mdag/mdag.go:409-420 | and from every state that can come about the walk can be brought to its return |
| `WalkDepth.SuccessTheorem` | movethebytes/data-transfer/protocol_comparison/bitswap/mdag/mdag.go:409-420 | without interference either walker succeeds exactly on readable DAGs |
| `WalkDepth.SwallowedError` | movethebytes/data-transfer/protocol_comparison/bitswap/mdag/mdag.go:514-525 | a handler that swallows an error the content did not cause (made up by the getter, or due to cancellation) has, for every number of workers, a two-block DAG and a schedule on which nil is returned although a reachable block was not visited |
| `WalkDepth.TrustedHandlers` | movethebytes/data-transfer/protocol_comparison/bitswap/mdag/mdag.go:353-374 | for every number of workers (so for both walkers), every set of errors the getter may make up, with or without cancellation: nil can be trusted exactly when the handler lets all these errors through |
| `WalkDepth.OptionHandlers` | movethebytes/data-transfer/protocol_comparison/bitswap/mdag/mdag.go:353-374 | over a getter that reports nothing but content and cancellation: no handler and IgnoreMissing can be trusted, IgnoreErrors exactly when the context cannot be cancelled |
| `ParallelWalker.Walker.FeedArm` | movethebytes/data-transfer/protocol_comparison/bitswap/mdag/mdag.go:559-567 | the send arm does to the fields what the Feed action does |
| `ParallelWalker.Walker.TakeLinks` | movethebytes/data-transfer/protocol_comparison/bitswap/mdag/mdag.go:576-588 | the loop over received links computes the specified line of waiting items and opens send when it was closed |
| `ParallelWalker.Walker.LinksArm` | movethebytes/data-transfer/protocol_comparison/bitswap/mdag/mdag.go:575-588 | the receive arm does what the Emit action does |
| `ParallelWalker.Walker.DoneArm` | movethebytes/data-transfer/protocol_comparison/bitswap/mdag/mdag.go:570-574 | the done arm counts down and decides to return nil exactly when nothing is in progress and nothing waits |
| `ParallelWalker.Walker.CallVisit` | movethebytes/data-transfer/protocol_comparison/bitswap/mdag/mdag.go:221-227 | the same under visitlk |
| `ParallelWalker.Walker.VisitStep` | movethebytes/data-transfer/protocol_comparison/bitswap/mdag/mdag.go:500-512 | a worker bypasses, visits or drops the item it received |
| `ParallelWalker.Walker.WorkerStep` | movethebytes/data-transfer/protocol_comparison/bitswap/mdag/mdag.go:514-541 | fetching, failing, abandoning and leaving |
| `ParallelWalker.Walker.CoordinatorStep` | movethebytes/data-transfer/protocol_comparison/bitswap/mdag/mdag.go:489-494 | cancellation, close, cancel, wait and return |
| `ParallelWalker.Walker.Run` | movethebytes/data-transfer/protocol_comparison/bitswap/mdag/mdag.go:473-596 | under every scheduler and for every handler the walk terminates, all workers have exited, nil means nothing is left to do, what was visited is real and counted, an error is accounted for; nil from a handler that lets made-up errors through means an exact visit map; without interference nil is returned exactly on readable DAGs |
| `ParallelWalker.SchedulerExists` | movethebytes/data-transfer/protocol_comparison/bitswap/mdag/mdag.go:495-596 | schedulers exist for every walk |
| `ParallelWalker.Agree` | movethebytes/data-transfer/protocol_comparison/bitswap/mdag/mdag.go:409-445 | sequential and parallel walk (any scheduler, SkipRoot, handler, limit) agree on success, which is readability; on success both visit maps are exact, so they agree on the visited CIDs and, with a limit, their depths |
| `ParallelWalker.FetchInterruptible` | movethebytes/data-transfer/protocol_comparison/bitswap/mdag/mdag.go:218-228 | once the context of `FetchGraphWithDepthLimit` is cancelled, and only then, a fetch may report that in place of content |
| `ParallelWalker.FetchGraphWithDepthLimit` | movethebytes/data-transfer/protocol_comparison/bitswap/mdag/mdag.go:185-229 | with a context that may be cancelled or not, in terms of the store alone: on success every CID within the limit is in the store and exactly these are recorded, at their shortest distances (without a limit: the reachable CIDs); it fails only by cancellation or with the error of a CID within the limit; the progress total is the number of expansions, at least one per recorded CID and exactly one without a limit |
| `Manifest.WrittenWellOrdered` | movethebytes/data-transfer/protocol_comparison/manifetch.go:34-47 | what the visit closure writes has no repetition, starts with the root, and links every later CID from an earlier one |
| `Manifest.WrittenComplete` | movethebytes/data-transfer/protocol_comparison/manifetch.go:38-56 | with an exact visit map the CIDs written are exactly the reachable ones |
| `Manifest.ManifestTheorem` | movethebytes/data-transfer/protocol_comparison/manifetch.go:34-56 | in every schedule, at every moment and for every handler the manifest is well ordered; on success with a handler that lets made-up errors through it lists exactly the reachable CIDs |
| `Manifest.Serve` | movethebytes/data-transfer/protocol_comparison/manifetch.go:16-58 | one request under any scheduler, in terms of the store alone: the stream has no repetition, starts with the requested CID and links every later CID from an earlier one; it is reset exactly when a CID reached is missing or wrong, and otherwise lists exactly the CIDs reached, all of them there |
| `Credit.ConservedKept` | movethebytes/data-transfer/protocol_comparison/bitswap/mdag/walk2.go:233-318 | every step keeps: current, outstanding, held, merged and forfeited credit add up to the maximum, which is at least 100 and at most 100 plus the visits settled; a notified requester finds credit |
| `Credit.TrackedKept` | movethebytes/data-transfer/protocol_comparison/bitswap/mdag/walk2.go:303-318 | every step keeps: what is outstanding was recorded, and credit merges away only on repeated multihashes |
| `Credit.PromptKept` | movethebytes/data-transfer/protocol_comparison/bitswap/mdag/walk2.go:225-245 | every step keeps: a visited CID is outstanding only between its two sections |
| `Credit.CreditTheorem` | movethebytes/data-transfer/protocol_comparison/bitswap/mdag/walk2.go:203-324 | in every reachable state: the maximum at most 100 plus the visits settled, credit never negative, never exceeding the maximum, adding up to it when the multihashes are distinct and no credit was in hand at a cancellation (the end of the manifest included), and the panic out of reach |
| `CreditAccounts.Accounts` | movethebytes/data-transfer/protocol_comparison/bitswap/mdag/walk2.go:203-324 | the shared variables read off the history of any run: the maximum is 100 and one per settled visit of something outstanding; the current credit is 100 and two for each of these, less one per manifest entry that found credit, plus one per entry recorded when visited already; a multihash is outstanding exactly when it was recorded for a CID not visited then and no visit of it has settled since; a CID is in the visited set exactly when its visit has begun |
| `CreditAccounts.InOrder` | movethebytes/data-transfer/protocol_comparison/bitswap/mdag/walk2.go:268-318 | the requester handles the manifest in order and records every entry it takes, but for the one it is at and the one it gave up when cancelled |
| `Credit.SettledUp` | movethebytes/data-transfer/protocol_comparison/bitswap/mdag/walk2.go:225-318 | after a manifest of distinct multihashes, all visited and no visitor pending, nothing is outstanding and all credit is back |
| `Credit.SharedMultihash` | movethebytes/data-transfer/protocol_comparison/bitswap/mdag/walk2.go:306-311 | two CIDs with one multihash: a run that leaves the multihash of a visited CID outstanding with no visitor |
| `Credit.PromptExactly` | movethebytes/data-transfer/protocol_comparison/bitswap/mdag/walk2.go:225-318 | over a set of CIDs every run settles promptly exactly when no two of them share a multihash |
| `Credit.StuckExactly` | movethebytes/data-transfer/protocol_comparison/bitswap/mdag/walk2.go:283-293 | a requester waiting for credit waits for ever, as long as only the given CIDs are visited, exactly when neither the pending visit nor any of them still to be visited is of something outstanding, however much credit and however much outstanding there is |
| `Credit.TimerGap` | movethebytes/data-transfer/protocol_comparison/bitswap/mdag/walk2.go:285-293 | a notification that comes while the timer has taken the requester out of its select is missed |
| `Credit.OutOfCredit` | movethebytes/data-transfer/protocol_comparison/bitswap/mdag/walk2.go:271-283 | a manifest with as many distinct multihashes as there is credit takes it all before anything is visited, and the requester finds none for its next CID |
| `Credit.Ledger.SpendSection` | movethebytes/data-transfer/protocol_comparison/bitswap/mdag/walk2.go:294-300 | after a notification the credit is there: the panic branch is dead |
| `Credit.Ledger.Run` | movethebytes/data-transfer/protocol_comparison/bitswap/mdag/walk2.go:203-324 | the shared variables under any schedule of visitor and requester: the books are kept, the panic is dead code, and after a duplicate-free manifest of visited CIDs nothing is outstanding and all credit is back |
| `Cache.RegisterKeeps` | movethebytes/data-transfer/protocol_comparison/bitswap/mdag/walk2.go:114-121 | registering keeps the invariant although blocks are put outside the lock |
| `Cache.AlertKeeps` | movethebytes/data-transfer/protocol_comparison/bitswap/mdag/walk2.go:142-156 | an alert keeps the invariant |
| `Cache.NoLostWakeup` | movethebytes/data-transfer/protocol_comparison/bitswap/mdag/walk2.go:103-156 | in every run: an alert sends only on open, empty channels (abandoned ones too); a stored block not being alerted leaves no getter for it unsignalled; no woken getter misses, and none finds a block that is not there |
| `Cache.LookupExactly` | movethebytes/data-transfer/protocol_comparison/bitswap/mdag/walk2.go:104-121 | a getter that looks finds the block at once exactly when the receiver has put it; otherwise it holds the lock until it is registered, and then waits on an open, empty channel |
| `Cache.AlertReachesAll` | movethebytes/data-transfer/protocol_comparison/bitswap/mdag/walk2.go:142-156 | right after the alert for a multihash no getter for it is unsignalled |
| `Cache.AbandonedSignalled` | movethebytes/data-transfer/protocol_comparison/bitswap/mdag/walk2.go:122-138 | a getter that leaves because its context is done stays registered, and the next alert signals and closes its channel all the same |
| `Cache.NgWrapper.SignalAll` | movethebytes/data-transfer/protocol_comparison/bitswap/mdag/walk2.go:142-156 | the loop of Alert: no send blocks or hits a closed channel, and exactly the registered channels are signalled |
| `Cache.NgWrapper.Run` | movethebytes/data-transfer/protocol_comparison/bitswap/mdag/walk2.go:103-156 | maps and channels under any schedule of getters and receiver: nothing is lost, and while no alert is pending every getter for a stored block has been signalled |
| `Race.RaceTheorem` | movethebytes/data-transfer/protocol_comparison/bitswap/mdag/walk2.go:38-87 | in every interleaving a returned node is one of the two getters'; if the parent was never done and the first to cancel had a node, a node is returned and not ErrNotFound |
| `Race.FirstPushWins` | movethebytes/data-transfer/protocol_comparison/bitswap/mdag/walk2.go:38-87 | the node returned is that of the goroutine that pushed first; without a push it is ErrNotFound |
| `Race.FailureFirst` | movethebytes/data-transfer/protocol_comparison/bitswap/mdag/walk2.go:41-59 | a goroutine that leaves first without a node, or with the parent context done, cancels the other's node away: ErrNotFound although the node was there, for either getter |
| `Race.RaceExactly` | movethebytes/data-transfer/protocol_comparison/bitswap/mdag/walk2.go:38-87 | for given answers of the getters, every interleaving returns a node exactly when both have it and the parent context cannot be done |
| `Race.RaceAnswers` | movethebytes/data-transfer/protocol_comparison/bitswap/mdag/walk2.go:181-185 | with content addressing the race answers like getLinks with made-up ErrNotFound; every fetch of `Walk2` uses it |
| `Walk2.LinkedKept` | movethebytes/data-transfer/protocol_comparison/bitswap/mdag/walk2.go:165-340 | every step of walk, prefetcher, receiver, cache and races keeps: the closure's visited set is the walk's, the progress total is its size (less one while a visit closure is not done), every call is for the CID its worker fetches, and every node in a race is the content of that CID |
| `Walk2.DeliverIsGet` | movethebytes/data-transfer/protocol_comparison/bitswap/mdag/walk2.go:181-185 | what a finished race delivers is an answer the walk's getLinks may give |
| `Walk2.WalkProjection` | movethebytes/data-transfer/protocol_comparison/bitswap/mdag/walk2.go:165-340 | a run of the whole is, on the walk's part, a run of the walk with made-up ErrNotFound |
| `Walk2.CreditProjection` | movethebytes/data-transfer/protocol_comparison/bitswap/mdag/walk2.go:203-324 | on the credit protocol's part, a run of it |
| `Walk2.CacheProjection` | movethebytes/data-transfer/protocol_comparison/bitswap/mdag/walk2.go:103-156 | on the cache's part, a run of it |
| `Walk2.Walk2Theorem` | movethebytes/data-transfer/protocol_comparison/bitswap/mdag/walk2.go:165-340 | for every manifest, arrival order of prefetched blocks, outcome of the races and schedule, with either walker and any handler: what was visited is in the DAG, the progress total is its number (less one while a visit closure is not done, exactly when nil is returned), credit books kept, all credit back after a duplicate-free manifest of visited CIDs, no panic, no lost wakeup; nil from a handler that lets ErrNotFound through means that exactly the CIDs of the plain walk were visited and all were readable |
| `Walk2.NodesFromCache` | movethebytes/data-transfer/protocol_comparison/bitswap/mdag/walk2.go:326-337 | in every run a call gets a node from the cache only of a block that the receiver has put, and the node is that of the CID asked for |
| `Walk2.SameAsPlain` | movethebytes/data-transfer/protocol_comparison/bitswap/mdag/walk2.go:339-339 | the plain walk, with any number of workers and any schedule, then ends in nil too and has visited the same CIDs |
| `Walk2.VisitNotHeldUp` | movethebytes/data-transfer/protocol_comparison/bitswap/mdag/walk2.go:225-231 | the coupling never holds a visit up beyond the visit lock |
| `Walk2Progress.NeverBlocked` | movethebytes/data-transfer/protocol_comparison/bitswap/mdag/walk2.go:165-340 | in every reachable state in which the walk has not returned, a walker, its visit closure or one of its calls has a step to take: the walk never waits for the requester, for a block to arrive or for an alert, given that the session answers |
| `Walk2Progress.WalkTerminates` | movethebytes/data-transfer/protocol_comparison/bitswap/mdag/walk2.go:165-340 | and every such step decreases a well-founded measure that no step of requester, receiver or caller increases, so there are finitely many of them |
| `Walk2Lift.LiftRuns` | movethebytes/data-transfer/protocol_comparison/bitswap/mdag/walk2.go:38-87 | conversely every schedule of the walk with made-up ErrNotFound comes about by races of cache and session: the oracle allows no more than the machine |
| `Walk2Lift.RequesterLifts` | movethebytes/data-transfer/protocol_comparison/bitswap/mdag/walk2.go:271-324 | and so does every schedule of the requester alone |
| `Walk2Starved.Starves` | movethebytes/data-transfer/protocol_comparison/bitswap/mdag/walk2.go:277-300 | a requester without credit waits for ever in every run of the whole, when neither the pending visit nor anything the DAG still has to visit is of something outstanding |
| `Walk2Starved.BogusManifest` | movethebytes/data-transfer/protocol_comparison/bitswap/mdag/walk2.go:268-324 | for every DAG and every manifest that begins with 100 distinct multihashes the DAG does not have: a run after which the requester waits for ever, all credit outstanding |
| `Walk2Starved.MissedNotification` | movethebytes/data-transfer/protocol_comparison/bitswap/mdag/walk2.go:235-293 | for every readable DAG with at least 100 CIDs and no shared multihash, and an honest manifest of it: a run in which the walk succeeds, all notifications come before the requester is parked, and it waits for ever with all the credit there |
| `Walk2Starved.StarvedExactly` | movethebytes/data-transfer/protocol_comparison/bitswap/mdag/walk2.go:235-300 | on a readable DAG, between the steps of a walk in which nothing has gone wrong, the requester without credit waits for ever exactly when no CID still to be visited is outstanding |
| `Walk2Starved.SharedWithRoot` | movethebytes/data-transfer/protocol_comparison/bitswap/mdag/walk2.go:306-311 | a manifest CID that shares the root's multihash: a run of the whole that leaves it outstanding with the root visited and no visitor pending |
| `Walk2Handlers.Walk2Trusted` | movethebytes/data-transfer/protocol_comparison/bitswap/mdag/walk2.go:79-86 | for every number of workers and with or without cancellation, nil from `Walk2` can be trusted exactly when the handler lets ErrNotFound through |
| `Walk2Handlers.OptionHandlers` | movethebytes/data-transfer/protocol_comparison/bitswap/mdag/walk2.go:339-339 | so of the handlers of the walk options only the default one can be trusted |
| `BlockService.Service.AddBlocks` | movethebytes/data-transfer/protocol_comparison/bitswap/bservice/bserv.go:164-206 | an invalid CID is reported exactly when there is one, before anything is done; success exactly when all CIDs are valid and the store works or is not needed; when the store fails nothing is announced and a prefix of the blocks to put may be there; otherwise the chosen blocks are put and announced |
| `BlockService.Service.AddOneByOne` | movethebytes/data-transfer/protocol_comparison/bitswap/bservice/bserv.go:136-162 | AddBlock over a batch up to the first failure is the specified fold |
| `BlockService.Service.Select` | movethebytes/data-transfer/protocol_comparison/bitswap/bservice/bserv.go:173-183 | the loop keeps exactly the blocks absent from the store |
| `BlockService.EachIsPut` | movethebytes/data-transfer/protocol_comparison/bitswap/bservice/bserv.go:136-162 | adding one by one puts and announces exactly the blocks absent at their turn |
| `BlockService.EachStops` | movethebytes/data-transfer/protocol_comparison/bitswap/bservice/bserv.go:136-162 | one by one, with a working store, stops at the first invalid CID and not before, keeping what was added until then |
| `BlockService.EachFails` | movethebytes/data-transfer/protocol_comparison/bitswap/bservice/bserv.go:136-162 | with a failing store nothing is added, and only blocks that are found there are no error |
| `BlockService.PutManyLast` | movethebytes/data-transfer/protocol_comparison/bitswap/bservice/bserv.go:193-196 | a put of many leaves, for each multihash, the data of the last block that has it |
| `BlockService.BatchStore` | movethebytes/data-transfer/protocol_comparison/bitswap/bservice/bserv.go:136-206 | with valid CIDs, a working store and content addressing, batch and one-by-one leave the same store, with and without checkFirst |
| `BlockService.BatchAnnouncements` | movethebytes/data-transfer/protocol_comparison/bitswap/bservice/bserv.go:136-206 | batch and one-by-one announce the same exactly when there is no exchange, or no checkFirst, or no two blocks share a multihash absent from the store |
| `BlockService.BothWays` | movethebytes/data-transfer/protocol_comparison/bitswap/bservice/bserv.go:136-206 | a batch and the same blocks one by one, run on two services: same store, and same announcements exactly under that condition |
| `NodeFetch.DedupKeys` | movethebytes/data-transfer/protocol_comparison/bitswap/mdag/mdag.go:240-249 | each key once; unchanged when there was no repetition |
| `NodeFetch.SafeKeys` | movethebytes/data-transfer/protocol_comparison/bitswap/bservice/bserv.go:283-302 | the keys without the unsafe ones |
| `NodeFetch.DeliveredAre` | movethebytes/data-transfer/protocol_comparison/bitswap/bservice/bserv.go:277-341 | the blocks delivered are those stored for the safe keys, with the data stored, and the exchange's replies to the safe keys that are not stored; unsafe keys are neither looked up nor asked for |
| `NodeFetch.LocalBlocks` | movethebytes/data-transfer/protocol_comparison/bitswap/bservice/bserv.go:304-317 | the loop over the local store sends the hits in order and collects the misses; it stops exactly where the context's Done wins |
| `NodeFetch.GetBlocks` | movethebytes/data-transfer/protocol_comparison/bitswap/bservice/bserv.go:277-341 | sends the hits and then the replies in order, all of them or up to where the context's Done wins |
| `NodeFetch.FullCount` | movethebytes/data-transfer/protocol_comparison/bitswap/mdag/mdag.go:262-268 | as many blocks as keys are one per key exactly when none comes twice or unasked |
| `NodeFetch.Collect` | movethebytes/data-transfer/protocol_comparison/bitswap/mdag/mdag.go:251-286 | passes the nodes on in order up to where the context's Done wins, a block does not decode or the stream ends, and then one error, unless the stream has ended and as many nodes as keys were passed on; without an error these are one per key exactly when the stream had each key at most once |
| `NodeFetch.RepeatedBlock` | movethebytes/data-transfer/protocol_comparison/bitswap/mdag/mdag.go:262-268 | two keys and twice the first block: no error, and the second node missing |
| `NodeFetch.GetMany` | movethebytes/data-transfer/protocol_comparison/bitswap/mdag/mdag.go:236-286 | end to end over getBlocks: the nodes of what getBlocks delivers, in order, all or a prefix, and one error at the end unless there are as many as distinct keys; one node per distinct key and no error under the stated conditions |
| `Wants.KeyInjective` | movethebytes/data-transfer/protocol_comparison/bitswap/client.go:118-120 | the key determines the texts of CID and peer, the first having no comma |
| `Wants.Client.MakeRequest` | movethebytes/data-transfer/protocol_comparison/bitswap/client.go:81-96 | files a fresh empty channel under the key of the CID and changes no other entry |
| `Wants.FanOut` | movethebytes/data-transfer/protocol_comparison/bitswap/client.go:148-154 | a block goes to every channel filed under the key, unless one of them is full, and then the send blocks |
| `Wants.Client.Deliver` | movethebytes/data-transfer/protocol_comparison/bitswap/client.go:147-154 | a block goes to exactly the pending requests for its CID; the send blocks exactly when one of their channels is full |
| `Wants.Client.Remove` | movethebytes/data-transfer/protocol_comparison/bitswap/client.go:157-159 | exactly the named entries are deleted |
| `Wants.Client.HandleStream` | movethebytes/data-transfer/protocol_comparison/bitswap/client.go:133-160 | for any table and message: the handler blocks exactly when a send finds its channel full; otherwise every pending request mentioned gets its blocks and one entry per CID mentioned is deleted |
| `Wants.Client.Receive` | movethebytes/data-transfer/protocol_comparison/bitswap/client.go:170-176 | the select of GetBlock: the requester takes the block in its channel, or leaves, once |
| `WantsTable.JamsExactly` | movethebytes/data-transfer/protocol_comparison/bitswap/client.go:147-154 | while nothing was sent to the pending requests, a message finds a channel full exactly when it names a pending CID twice |
| `WantsTable.SettleKeeps` | movethebytes/data-transfer/protocol_comparison/bitswap/client.go:147-159 | with at most one pending request per CID, a message without repetition finds room, gives one block of the right CID to exactly the pending requests it mentions, and removes exactly their entries |
| `WantsTable.SecondReplyBlocks` | movethebytes/data-transfer/protocol_comparison/bitswap/client.go:135-159 | two pending requests for one CID: the first reply fills both channels and removes one entry, the second finds the other channel full |
| `WantsTable.RoomExactly` | movethebytes/data-transfer/protocol_comparison/bitswap/client.go:135-176 | from a table with empty pending channels, whatever the readers do, no sequence of messages without repetition ever finds a channel full exactly when no two pending requests name the same CID |
| `WantsTable.ThirdReplyLasts` | movethebytes/data-transfer/protocol_comparison/bitswap/client.go:135-176 | three pending requests for one CID: all read after the first reply, and the third finds a channel full that nobody reads from any more |
| `WantsTable.LeaverLasts` | movethebytes/data-transfer/protocol_comparison/bitswap/client.go:135-176 | two pending requests, one of whose requesters leaves by ctx.Done: the second reply waits in vain |
| `WantsTable.LastsExactly` | movethebytes/data-transfer/protocol_comparison/bitswap/client.go:135-176 | the handler never blocks for ever exactly when no three pending requests name the same CID, or, if requesters may leave without reading, no two |
| `Wants.Serve` | movethebytes/data-transfer/protocol_comparison/bitswap/client.go:67-177 | over every run of requests, replies and readers a channel gets only blocks of its CID that came in a message, and two at most; a run in which nobody asks for an unanswered CID and no message repeats a block never blocks, and each request has had exactly one block or its CID is unanswered |
| `DeepDag.Build` | movethebytes/data-transfer/protocol_comparison/generate.go:87-154 | the loop builds a chain of max(1, depth) nodes, height dropping by one per link to the raw leaf, each carrying the random bytes drawn for it |
| `DeepDag.BelowDistinct` | movethebytes/data-transfer/protocol_comparison/generate.go:132-154 | the CIDs of the chain are distinct |
| `DeepDag.ChainReached` | movethebytes/data-transfer/protocol_comparison/generate.go:132-154 | the root reaches exactly the CIDs of the chain |
| `DeepDag.ChainInOrder` | movethebytes/data-transfer/protocol_comparison/bitswap/mdag/mdag.go:422-445 | any walk that has visited all of the chain has visited it once each and from the root down |
| `DeepDag.BuildAndWalk` | movethebytes/data-transfer/protocol_comparison/generate.go:87-154 | building and walking sequentially visits the max(1, depth) CIDs once each in order |

## Left out

- Termination of the prefetcher, which can wait for credit for ever (`Walk2Starved`). That the session answers every call is taken for granted by `NeverBlocked`; a fair scheduler is too, when its theorems are read as termination.
- `Client.GetBlocks` and `Client.GetBlocksCh` (client.go:179-284): the first reads one channel for all CIDs, the second may close its output early. The prefetch feed of `Walk2` is any blocks in any order.
- The don't-have branch of the handler, which panics at once (client.go:137).
- Stacked error handlers: `addHandler` composes through the field it overwrites (mdag.go:316-324), so a walk has at most one handler. `OnMissing` and `OnError` are covered as far as the handler looks at the error only.
- `Session` over an exchange without sessions, and the lazily created session (bserv.go:357-392).
- Errors of the cache's store other than not found (walk2.go:110-113): `multing.Get` drops the getter's error in any case.
- Wants.Client.MakeRequest: the single-CID request of `GetBlock`; the loop over several CIDs repeats it.
- Failing writes of the manifest stream panic in the source (manifetch.go:40-43) and are not modelled; nor is the reader side of the stream, which only forwards.
- bitswap/server.go, stream input and output, protobuf and varint framing, CAR files, hashing and CID encoding: taken as parameters or injective functions.
- The network setups, test barriers, counters and the Rust programs: no algorithm of their own.
- Tickers, timeouts and log lines: stuttering steps.
- Integer widths: depths, counts and credits are unbounded integers.
