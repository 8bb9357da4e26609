# LUPA: a verified model

LUPA streams the tiles of large image pyramids from a Java server to a browser
viewer. This project models the parts of it where state and interleaving are
hard, in Dafny, and proves what they keep. `dafny verify dfyconfig.toml` checks
all of it.

- **Tile-read admission** (`Drr`, `DrrProofs`, `DrrRuns`, `Admission`). A bounded
  number of read permits, a bounded queue, and Deficit Round Robin between
  owners. `Drr` writes a release in closed form; `Admission` is the object of the
  source, whose rotating loop is proved to compute that form; `DrrProofs` and
  `DrrRuns` prove what every operation keeps, that waiting is bounded over whole
  runs, and the byte bound of Deficit Round Robin.
- **The client's delivery pipeline**. `Budgets`, `Ledgers`, `Compositors` and
  `Workers` each hold a component as a value, with its class beside it.
  `Clients` writes the whole client as one function per callback, and
  `LupaClients` is the class, with the budget, ledger and compositor it owns,
  proved to do exactly that; each callback of the class requires its `Valid()`,
  the invariant of `ClientRuns`, and keeps it. `ClientBooks` (credits and
  accounting), `ClientBudget`, `ClientSafety` (bitmaps, nothing stale) and
  `ClientView` (phase, frames) prove that every callback keeps the structures in
  step; `ClientRuns` states it over whole runs; `ClientNav` sets image, plan and
  view apart as a smaller machine which the client refines; `ClientSystem` joins
  the client to its worker by two channels, `ClientOrder` proves the order of
  what passes through them, `ClientKinds` what the two budgets are for,
  `ClientPaint` (with `ClientEntries`) that whatever is resident can be drawn,
  and `ClientProgress` that the system comes to rest, and all of it together
  from a new client on. `ClientExamples` holds runs that show where a property
  stops.
- **Pyramid geometry** (`Pyramid`, `ViewMath`). Which manifests and tiles are
  accepted, that accepted tiles partition every level, and that their
  destinations on the canvas meet without gap or overlap, over the reals.
- **Two byte streams** (`HeaderScan`, `WritePump`). The end of an HTTP header
  (section 2.1 of RFC 9112) under any split into reads, and ordered delivery
  under any partial writes.
- `Arithmetic` and `Results` hold what several modules use.

## How to read the proofs

Each synchronized body of the scheduler and each callback of the client or the
worker is one atomic step; a run is any sequence of steps. A permit between the
end of the scheduler's lock and its lease counts as a live lease. The client's
invariants take the entries whose callbacks are still owed, and the delivery a
callback holds, as parameters, so they also hold inside a callback's loops.

What the environment is taken to do: a transport delivers messages only while it
is open, and closes once; a scheduled frame runs once; the worker is the only
source of its answers. Within that the order of events is arbitrary. Claims about credits and tile accounting are for an open
link, since a protocol violation or a close drops pending work uncounted.

Outcomes that the code cannot decide (what a decode yields, how much a write
takes, whether a canvas gives a drawing context, the text of a view's signature)
are parameters of the steps.

## What does not hold, and exactly when

- A quantum above (2^31 - 1) / 4 makes a release with a positive cost throw after
  its owner was removed and before its permit is passed on: the permit is lost
  (`DrrProofs.PermitCanBeLost`). Otherwise every release keeps every invariant
  (`DrrProofs.ReleaseKeepsInv`).
- `docs/A22.md:149` expects RELEASE = drawn + discarded + failed. A failed decode
  that is asked for again is counted as failed and not released
  (`ClientExamples.ReleaseCanFallShort`), so the equation holds exactly when no
  retry was requested; retry requests make up the difference
  (`ClientRuns.TilesAreAccounted`).
- A current bitmap that is committed while no canvas is attached is closed, but
  its bytes stay on the budget (`ClientExamples.BytesCanLeak`) until a connection
  is made or closed. Nothing else makes the budget disagree with what is resident
  (`ClientBudget.StepLeaks`, `ClientRuns.AgreesUnlessOrphaned`).
- Attaching a canvas, or a repeated MANIFEST whose view has already been asked
  for, restarts the compositor with epoch 0 (`ClientExamples.AttachingCanTurnAway`,
  `ClientExamples.RepeatedManifestCanTurnAway`). Fine tiles of the current epoch
  are then turned away until a view is requested, and only a request changes that
  (`ClientSafety.TurnedAwayIff`, `ClientNav.EpochBegunIff`,
  `ClientNav.AttachingForgetsTheEpoch`).
- A MANIFEST that arrives before the viewport is known does not start the
  compositor, and setting the viewport lays it out but does not start it either
  (`ClientExamples.LateViewportCanTurnAway`). All tiles are turned away until a
  MANIFEST of the current epoch arrives again with the viewport known, be it a
  repeated one or that of an image opened anew, or until a canvas is attached
  under manifest and layout; nothing else starts it (`ClientNav.StartedIff`,
  `ClientNav.NoTilesBeforeStart`).
- A client that connects while tiles wait to be painted may show as processing
  (`ClientExamples.ConnectingCanShowProcessing`): the callbacks of the discarded
  tiles run after the phase was set (`ClientView.ConnectingIsSaidIff`).
- The error phase of an unsupported version gives way to another at the next
  answer of the worker (`ClientExamples.ErrorPhaseCanBeLost`,
  `ClientNav.RefusalLastsIff`).
- A frame that finds no drawing context while a tile waits leaves it waiting with
  no frame to come (`ClientExamples.TileCanBeForgotten`); no other callback does
  (`ClientRuns.ScheduledIff`).
- A tile of level 0 that arrived under one MANIFEST may be stored under another of
  the same image and version whose level 0 has another size, and then does not fit
  (`ClientExamples.CoarseTileCanMisfit`). A tile that is taken fits exactly when it
  is a fine one or has the size of level 0 (`ClientPaint.TakenFitsIff`), and every
  resident one can be drawn (`ClientPaint.ResidentsAreDrawn`).
- A header that ends exactly at byte max + 1 is accepted
  (`HeaderScan.HeaderCanBeOneTooLong`): the end is looked for before the length is
  checked (`HeaderScan.Outcome`).

## Model

| member | source | states |
|---|---|---|
| `Admission.TileReadAdmission.Create` | src/main/java/gt/lupa/concurrent/TileReadAdmission.java:56-76 | no scheduler exactly for a non-positive parameter; otherwise an empty one |
| `Admission.TileReadAdmission.FlowFor` | src/main/java/gt/lupa/concurrent/TileReadAdmission.java:102-107 | an owner seen for the first time starts with no credit and a cost of one quantum |
| `Admission.TileReadAdmission.GrantAccounting` | src/main/java/gt/lupa/concurrent/TileReadAdmission.java:281-298 | one more turn; a flow that cannot pay gets one capped quantum, any other none |
| `Admission.TileReadAdmission.AcquireOrQueue` | src/main/java/gt/lupa/concurrent/TileReadAdmission.java:90-143 | the object becomes exactly what the specification of acquire says; live leases change exactly when granted, by a fresh one, and the queue exactly when queued, by a fresh handle at the tail; every invariant holds afterwards |
| `Admission.TileReadAdmission.Visit` | src/main/java/gt/lupa/concurrent/TileReadAdmission.java:248-268 | one visit adds one capped quantum and grants exactly when the flow can then pay |
| `Admission.TileReadAdmission.SelectNextWaiter` | src/main/java/gt/lupa/concurrent/TileReadAdmission.java:235-279 | the rotating loop ends, and does what the closed form says: it stops at the waiter with the fewest visits needed, first in the queue, leaves the queue rotated around it, and has topped up everybody accordingly; the branch for cancelled waiters is unreachable |
| `Admission.TileReadAdmission.Charge` | src/main/java/gt/lupa/concurrent/TileReadAdmission.java:166-202 | the owner leaves the books; its cost is capped, its credit floored, unless the 32-bit product overflows |
| `Admission.TileReadAdmission.HandOn` | src/main/java/gt/lupa/concurrent/TileReadAdmission.java:204-232 | the permit goes to the winner under a fresh lease, or is free again |
| `Admission.TileReadAdmission.Release` | src/main/java/gt/lupa/concurrent/TileReadAdmission.java:161-233 | a release is the specified one, error cases included; a lease passes from the releaser to the winner and no other lease changes |
| `Admission.TileReadAdmission.CancelWaiter` | src/main/java/gt/lupa/concurrent/TileReadAdmission.java:300-315 | true exactly for a waiter still in the queue, which leaves it with its place on the books |
| `Admission.Lease.Complete` | src/main/java/gt/lupa/concurrent/TileReadAdmission.java:398-409 | negative bytes and later calls are refused, each with its own answer; the first call releases, the lease handed on is live under the winner, every other live lease stays live, and every invariant holds afterwards unless the charge overflows |
| `Admission.WaitHandle.Cancel` | src/main/java/gt/lupa/concurrent/TileReadAdmission.java:433-441 | only the first call cancels, and only a waiter still queued; every invariant holds afterwards |
| `DrrProofs.NeedIsLeast` | src/main/java/gt/lupa/concurrent/TileReadAdmission.java:257-268 | the visits a flow needs are the least number of quanta after which it can pay |
| `DrrProofs.NeedIsCeiling` | src/main/java/gt/lupa/concurrent/TileReadAdmission.java:257-268 | that number is max(1, ceil((lastCost - deficit) / quantum)) |
| `DrrProofs.NeedAtMostEight` | src/main/java/gt/lupa/concurrent/TileReadAdmission.java:257-268 | it is never more than eight |
| `DrrProofs.NeedAfterTopUps` | src/main/java/gt/lupa/concurrent/TileReadAdmission.java:257-275 | each visit that fails adds a full quantum, uncapped, and brings the flow one visit nearer |
| `DrrProofs.WinnerWins` | src/main/java/gt/lupa/concurrent/TileReadAdmission.java:235-279 | the winner has the least need, and the first place among those |
| `DrrProofs.WinnerIsUnique` | src/main/java/gt/lupa/concurrent/TileReadAdmission.java:235-279 | no other position is the winner |
| `DrrProofs.GrantWinner` | src/main/java/gt/lupa/concurrent/TileReadAdmission.java:257-268 | the winner gets its n quanta and can pay; it has a lease, which it had not, and waits no more |
| `DrrProofs.GrantAhead` | src/main/java/gt/lupa/concurrent/TileReadAdmission.java:257-275 | a waiter ahead of the winner gains exactly n quanta and goes to the back in order |
| `DrrProofs.GrantBehind` | src/main/java/gt/lupa/concurrent/TileReadAdmission.java:257-275 | a waiter behind the winner gains exactly n - 1 quanta and comes to the front in order |
| `DrrProofs.GrantIdle` | src/main/java/gt/lupa/concurrent/TileReadAdmission.java:235-279 | a flow that is not waiting is not touched |
| `DrrProofs.VisitsOfOneRelease` | src/main/java/gt/lupa/concurrent/TileReadAdmission.java:238-276 | one release makes at most 7 * waiters + 1 visits |
| `DrrProofs.ScanVisit` | src/main/java/gt/lupa/concurrent/TileReadAdmission.java:248-268 | one turn of the loop keeps the scan: nobody before this point could pay |
| `DrrProofs.SelectedIsHandedOn` | src/main/java/gt/lupa/concurrent/TileReadAdmission.java:204-232 | a scheduler in which the loop has selected is the closed form of the hand-over |
| `DrrProofs.AcquireKeepsInv` | src/main/java/gt/lupa/concurrent/TileReadAdmission.java:90-143 | owners of leases and waiters are disjoint and are the outstanding ones, permits are counted and bounded, waiters exist only at full load, credits stay in bounds |
| `DrrProofs.AcquireOutcome` | src/main/java/gt/lupa/concurrent/TileReadAdmission.java:95-142 | which answer an acquire gets, exactly, and who is on the books afterwards |
| `DrrProofs.CancelKeepsInv` | src/main/java/gt/lupa/concurrent/TileReadAdmission.java:300-315 | a cancel keeps all of that |
| `DrrProofs.ReleaseKeepsInv` | src/main/java/gt/lupa/concurrent/TileReadAdmission.java:161-233 | a release of a live lease keeps all of that if and only if its charge does not overflow the 32-bit product; then the permit is free again or with a waiter, and no other exception is reachable |
| `DrrProofs.PermitCanBeLost` | src/main/java/gt/lupa/concurrent/TileReadAdmission.java:187-202 | for every quantum that overflows: one acquire and one release of one byte lose the only permit, and the next owner is queued with no lease left |
| `DrrRuns.RunsAreSound` | src/main/java/gt/lupa/concurrent/TileReadAdmission.java:90-315 | permit safety and work conservation after every run |
| `DrrRuns.RankAfterRelease` | src/main/java/gt/lupa/concurrent/TileReadAdmission.java:204-279 | a release that does not grant a waiter strictly lowers its rank |
| `DrrRuns.BoundedWaiting` | src/main/java/gt/lupa/concurrent/TileReadAdmission.java:95-142 | a waiter that is not cancelled is granted within 8 * maxWaiters releases, whatever the others acquire, cancel or are charged |
| `DrrRuns.FloorNeverBinds` | src/main/java/gt/lupa/concurrent/TileReadAdmission.java:187-199 | charging a turn that came through the queue never meets the floor |
| `DrrRuns.ByteBound` | src/main/java/gt/lupa/concurrent/TileReadAdmission.java:179-202 | from idle, with every turn taken from the queue, the capped bytes charged are at most one quantum per visit, the credit at the start and four quanta |
| `Pyramid.PyramidIsHalving` | frontend/src/protocol/validation.ts:81-115 | the power-of-two check accepts exactly the manifests whose levels are each the next one halved, rounded up |
| `Pyramid.CeilDivHalves` | frontend/src/protocol/validation.ts:106-113 | dividing by a doubled divisor, rounded up, is halving the quotient, rounded up |
| `Pyramid.LevelsGrow` | frontend/src/protocol/validation.ts:106-113 | levels grow with z in both dimensions |
| `Pyramid.TilesInside` | frontend/src/protocol/tileEnvelope.ts:52-62 | an accepted tile is 1 to 256 pixels wide and high and lies inside its level |
| `Pyramid.EveryPixelIsCovered` | frontend/src/protocol/tileEnvelope.ts:52-62 | every pixel of every level is covered by a tile that would be accepted |
| `Pyramid.TilesPartition` | frontend/src/protocol/tileEnvelope.ts:52-62 | two accepted tiles that cover one pixel are the same tile |
| `Pyramid.LevelZeroIsOneTile` | frontend/src/protocol/tileEnvelope.ts:52-58 | a header of level 0 is accepted exactly for the tile (0, 0) with the size of the level |
| `Pyramid.AreasAddUp` | frontend/src/protocol/tileEnvelope.ts:54-59 | the areas of a level's tiles add up to width * height |
| `ViewMath.DestinationEdges` | frontend/src/protocol/viewMath.ts:48-68 | a destination is the span between the images of its edges |
| `ViewMath.NeighboursShareEdges` | frontend/src/protocol/viewMath.ts:48-68 | neighbouring tiles share an edge exactly, with no gap |
| `ViewMath.CanvasIsCovered` | frontend/src/protocol/viewMath.ts:48-68 | every point of the image rectangle a level reaches is drawn over by some tile |
| `ViewMath.DestinationsDoNotOverlap` | frontend/src/protocol/viewMath.ts:48-68 | a point is drawn over by at most one tile of a level |
| `ViewMath.FullViewStaysInside` | frontend/src/protocol/viewMath.ts:48-72 | under the full view every tile of every level stays inside the one image rectangle |
| `ViewMath.ClampedViewIsGood` | frontend/src/protocol/viewMath.ts:165-174 | a clamped view lies inside the image and is not empty, and exactly the views that do already are left alone |
| `ViewMath.IntegerViewIsGood` | frontend/src/protocol/viewMath.ts:176-185 | a rounded view lies inside the image and is not empty |
| `ViewMath.ZoomBySides` | frontend/src/protocol/viewMath.ts:130-150 | both new sides are the old ones times the factor, within their limits, each put around the anchor and pushed back into the image |
| `ViewMath.ZoomKeepsPointIff` | frontend/src/protocol/viewMath.ts:130-150 | for every factor: the zoomed view keeps the anchored point at the same fraction of both sides if and only if, put around it, it fits the image |
| `ViewMath.ZoomInKeepsCursor` | frontend/src/protocol/viewMath.ts:130-150 | for every factor up to 1, from every view no narrower than zooming allows, the anchored point keeps its place on both sides |
| `ViewMath.PanMoves` | frontend/src/protocol/viewMath.ts:152-163 | panning keeps the size and moves each side as asked, as far as the image goes |
| `HeaderScan.AdvanceIsLongest` | src/main/java/gt/lupa/http/HeaderAccumulator.java:31-39 | the state is always the longest part of CR LF CR LF that the bytes end with |
| `HeaderScan.PutKeepsScanned` | src/main/java/gt/lupa/http/HeaderAccumulator.java:20-26 | the end found is the first one, and none is missed |
| `HeaderScan.ReadsDoNotMatter` | src/main/java/gt/lupa/http/HeaderAccumulator.java:18-29 | any split of the bytes into reads gives the same state and the same answer |
| `HeaderScan.AppendConsumes` | src/main/java/gt/lupa/http/HeaderAccumulator.java:18-29 | every byte is kept; once the header is too large, nothing after byte max + 1 is read |
| `HeaderScan.Outcome` | src/main/java/gt/lupa/http/HeaderAccumulator.java:18-29 | COMPLETE exactly when the first empty line ends within max + 1 bytes, TOO_LARGE exactly when more than max bytes came and the first max + 1 hold no end, else INCOMPLETE |
| `HeaderScan.HeaderCanBeOneTooLong` | src/main/java/gt/lupa/http/HeaderAccumulator.java:18-29 | for every limit of three or more there is a header of one byte more that is accepted |
| `HeaderScan.Lossless` | src/main/java/gt/lupa/http/HeaderAccumulator.java:45-54 | header and trailing data together are the bytes read, cut at the first empty line |
| `HeaderScan.HeaderAccumulator.AdvanceTerminator` | src/main/java/gt/lupa/http/HeaderAccumulator.java:31-39 | if the state was the longest part of the terminator the earlier bytes end with, it is that of all the bytes afterwards |
| `HeaderScan.HeaderAccumulator.AppendBuffer` | src/main/java/gt/lupa/http/HeaderAccumulator.java:18-29 | the recorded end stays the first one and the state the longest match; COMPLETE says where the first end is, the other answers that there is none; exactly the bytes reported were read |
| `WritePump.HandleKeepsInv` | src/main/java/gt/lupa/http/AsyncWritePump.java:16 | a completion or failure keeps order and single report |
| `WritePump.TrimmedKeepsBytes` | src/main/java/gt/lupa/http/AsyncWritePump.java:16 | skipping empty buffers loses no byte |
| `WritePump.DeliversInOrder` | src/main/java/gt/lupa/http/AsyncWritePump.java:14-16 | under partial, empty and failing writes the socket has a prefix of the buffers in order, the caller hears at most once, exactly when no write is outstanding, and of success only when every byte is out |
| `WritePump.ReportsOnce` | src/main/java/gt/lupa/http/AsyncWritePump.java:14-16 | however often and whenever the handlers are called, and whatever becomes of the buffers: at most one outcome is reported, and the first one stands |
| `WritePump.HandleIsACall` | src/main/java/gt/lupa/http/AsyncWritePump.java:16 | the end of an outstanding write is one such call |
| `WritePump.AsyncWritePump.WriteNextBuffer` | src/main/java/gt/lupa/http/AsyncWritePump.java:16 | drops empty buffers, then reports success once or issues the next write |
| `WritePump.AsyncWritePump.OnCompleted` | src/main/java/gt/lupa/http/AsyncWritePump.java:16 | null and negative counts fail, an empty write is repeated, anything else goes on |
| `WritePump.AsyncWritePump.OnFailed` | src/main/java/gt/lupa/http/AsyncWritePump.java:16 | a failure is reported once |
| `Budgets.ReserveSucceedsIff` | frontend/src/runtime/BitmapBudget.ts:11-18 | the check of the total never decides: a reservation is refused by the first limit or for its job or size |
| `Budgets.CommitSucceedsIff` | frontend/src/runtime/BitmapBudget.ts:27-40 | a reserved context commit never fails; a reserved detail commit fails exactly over the limit of detail |
| `Budgets.ManagedIsBounded` | frontend/src/runtime/BitmapBudget.ts:11-40 | context and transient bytes stay within 16 MiB and everything within 64 MiB |
| `Budgets.CommitKeepsWithin` | frontend/src/runtime/BitmapBudget.ts:27-40 | a commit keeps the limits and the sum of reservations |
| `Budgets.ReserveKeepsWithin` | frontend/src/runtime/BitmapBudget.ts:11-18 | a reservation keeps them |
| `Budgets.CancelKeepsWithin` | frontend/src/runtime/BitmapBudget.ts:20-25 | a cancel keeps them |
| `Budgets.BitmapBudget.ReserveBytes` | frontend/src/runtime/BitmapBudget.ts:11-18 | keeps the limits; answers true exactly for a positive size, a job with none, and room under the one limit that decides; then the reservations sum to that much more |
| `Budgets.BitmapBudget.CancelJob` | frontend/src/runtime/BitmapBudget.ts:20-25 | keeps the limits; afterwards the job has nothing reserved, and the reservations sum to exactly what it had less |
| `Budgets.BitmapBudget.CommitJob` | frontend/src/runtime/BitmapBudget.ts:27-40 | keeps the limits; the reservation is gone whatever the answer; it answers null exactly for a job with none or a detail over its limit, and otherwise stored and reserved bytes add up to what they did |
| `Budgets.BitmapBudget.RemoveBytes` | frontend/src/runtime/BitmapBudget.ts:42-45 | keeps the limits, and takes off exactly the bytes named if they were stored |
| `Budgets.BitmapBudget.Reset` | frontend/src/runtime/BitmapBudget.ts:47-52 | forgets everything |
| `Ledgers.HistoryWindow` | frontend/src/runtime/DeliveryLedger.ts:16-73 | released is the newest 2048 releases of the run, disjoint from what is active |
| `Ledgers.ReleasesAreFarApart` | frontend/src/runtime/DeliveryLedger.ts:54-73 | two terminal releases of one delivery have at least 2048 others between them |
| `Ledgers.RetriesAreBounded` | frontend/src/runtime/DeliveryLedger.ts:26-52 | since it was registered, a delivery has been asked for at most twice and accepted no more often than asked |
| `Ledgers.DeliveryLedger.RegisterDelivery` | frontend/src/runtime/DeliveryLedger.ts:16-24 | turns down exactly the deliveries in hand and those among the newest 2048 terminal releases; a delivery taken has been asked for and accepted no time |
| `Ledgers.DeliveryLedger.AcceptRetransmitted` | frontend/src/runtime/DeliveryLedger.ts:26-31 | lets through exactly the active deliveries of this connection that were asked for once more than they were accepted |
| `Ledgers.DeliveryLedger.RequestRetryOf` | frontend/src/runtime/DeliveryLedger.ts:33-52 | true exactly for an active delivery of this connection that was accepted as often as it was asked for, and asked for less than twice |
| `Ledgers.DeliveryLedger.ReleaseDelivery` | frontend/src/runtime/DeliveryLedger.ts:54-73 | logs the release when it answers true; the eviction loop leaves the newest 2048 of the log, so that every later answer is about them |
| `Ledgers.DeliveryLedger.Clear` | frontend/src/runtime/DeliveryLedger.ts:75-78 | forgets everything |
| `Compositors.PaintsBackToFront` | frontend/src/runtime/CanvasCompositor.ts:164-169 | a paint goes over every entry once, context before detail, coarse levels before fine ones |
| `Compositors.PutKeepsDistinct` | frontend/src/runtime/CanvasCompositor.ts:83-99 | one entry for each place |
| `Compositors.SumPut` | frontend/src/runtime/CanvasCompositor.ts:83-99 | whatever is measured, storing adds the new entry and takes the one it replaces away |
| `Compositors.SumByLevel` | frontend/src/runtime/CanvasCompositor.ts:56-63 | whatever is measured, a new epoch parts the entries into those kept and those gone |
| `Compositors.SumPainted` | frontend/src/runtime/CanvasCompositor.ts:180-193 | a paint reports exactly the entries that were waiting |
| `Compositors.CanvasCompositor.StartWith` | frontend/src/runtime/CanvasCompositor.ts:29-35 | starts an image as specified, returning every entry that leaves |
| `Compositors.CanvasCompositor.StartEpoch` | frontend/src/runtime/CanvasCompositor.ts:52-65 | the loop keeps exactly level 0, in order, and returns the rest |
| `Compositors.CanvasCompositor.StoreEntry` | frontend/src/runtime/CanvasCompositor.ts:67-102 | stores as specified: a tile of another image or epoch is turned away and nothing changes |
| `Compositors.CanvasCompositor.ResetAll` | frontend/src/runtime/CanvasCompositor.ts:104-120 | everything leaves and a scheduled frame is called off |
| `Compositors.CanvasCompositor.PaintFrame` | frontend/src/runtime/CanvasCompositor.ts:144-193 | the loop marks every entry painted and reports those painted for the first time, in paint order |
| `Workers.AnswersOnce` | frontend/src/worker/decodeWorker.ts:16-163 | over every run a request is answered at most once, and exactly once when no decode is in progress |
| `Workers.RunsKeep` | frontend/src/worker/decodeWorker.ts:16-148 | at most two decodes, at most 32 jobs and 8 MiB queued, the byte count exact, no job waiting while a decode could start, none waiting below its minimum |
| `Workers.QueuedJobsAreCurrent` | frontend/src/worker/decodeWorker.ts:96-101 | the epoch check before decoding never finds anything: only the diagnostic can end a job at once |
| `Workers.DecodedIsFresh` | frontend/src/worker/decodeWorker.ts:128-144 | nothing decoded is posted for an epoch below its connection's minimum at that moment |
| `Workers.WorkRunsOut` | frontend/src/worker/decodeWorker.ts:83-93 | messages apart, every step brings the worker nearer to having answered everything |
| `Workers.DiscardCounts` | frontend/src/worker/decodeWorker.ts:65-81 | what is thrown out of the queue is answered, what is kept is not |
| `Workers.DecodeWorker.OnMessage` | frontend/src/worker/decodeWorker.ts:16-63 | keeps the limits of the queue, the exact byte count, no stale job queued, no job waiting while a decode could start, and every request queued, in progress or answered |
| `Workers.DecodeWorker.OnDecode` | frontend/src/worker/decodeWorker.ts:25-53 | a request not yet accounted for is queued, started or answered, exactly one of them, within the limits |
| `Workers.DecodeWorker.DiscardFromQueue` | frontend/src/worker/decodeWorker.ts:65-81 | the backward loop keeps the order of the rest and answers from the back |
| `Workers.DecodeWorker.PumpQueue` | frontend/src/worker/decodeWorker.ts:83-93 | starts jobs in order while fewer than two are active, after which nothing waits that could start, with all accounts kept |
| `Workers.DecodeWorker.StartDecode` | frontend/src/worker/decodeWorker.ts:95-107 | a job off the queue and not yet accounted for is answered or in progress; one in time is in progress, unless a failure was asked for |
| `Workers.DecodeWorker.EndDecode` | frontend/src/worker/decodeWorker.ts:122-147 | what decode does after its last await: failed, discarded or decoded, in this order of checks; the limits and accounts hold on |
| `Workers.DecodeWorker.CountOut` | frontend/src/worker/decodeWorker.ts:88-91 | the finally: one less active, and the queue is pumped; the limits and accounts hold on |
| `LupaClients.LupaClient.Acknowledge` | frontend/src/runtime/LupaClient.ts:999-1025 | an ACK is sent, and counted, only on this connection, while it is open, and for an active delivery |
| `LupaClients.LupaClient.RequestSelectiveRetry` | frontend/src/runtime/LupaClient.ts:1027-1062 | asks again only in the current epoch of this connection, and within the ledger's limit |
| `LupaClients.LupaClient.OnPresented` | frontend/src/runtime/LupaClient.ts:669-675 | the callback of a first paint |
| `LupaClients.LupaClient.OnDiscarded` | frontend/src/runtime/LupaClient.ts:676-682 | the callback of an entry that leaves unpainted |
| `LupaClients.LupaClient.NextEpoch` | frontend/src/runtime/LupaClient.ts:980-987 | one epoch further, or an error at the last one |
| `LupaClients.LupaClient.OpenSelectedImage` | frontend/src/runtime/LupaClient.ts:749-785 | refines the specified callback: same state and same messages, from every state |
| `LupaClients.LupaClient.CancelReservationsBefore` | frontend/src/runtime/LupaClient.ts:758-764 | the loop gives back exactly the reservations of this connection's earlier epochs |
| `LupaClients.LupaClient.RequestViewOf` | frontend/src/runtime/LupaClient.ts:921-953 | refines the specified request: a new epoch exactly when something is asked that was not asked before |
| `LupaClients.LupaClient.RememberManifest` | frontend/src/runtime/LupaClient.ts:723-732 | the loop keeps the newest eight manifests, this one last |
| `LupaClients.LupaClient.HandleWelcome` | frontend/src/runtime/LupaClient.ts:425-433 | refines the specified handling of WELCOME, each violation included |
| `LupaClients.LupaClient.HandleManifest` | frontend/src/runtime/LupaClient.ts:434-462 | refines the specified handling of MANIFEST, each violation included |
| `LupaClients.LupaClient.HandleText` | frontend/src/runtime/LupaClient.ts:411-530 | every control message, and every text that is none, does what is specified and keeps every invariant of the client |
| `LupaClients.LupaClient.HandleBinary` | frontend/src/runtime/LupaClient.ts:532-632 | keeps every invariant of the client: a tile is a violation, is discarded and acknowledged, or is sent with a reservation, as specified |
| `LupaClients.LupaClient.HandleWorker` | frontend/src/runtime/LupaClient.ts:634-721 | keeps every invariant of the client, and does what is specified for every answer, expected or not |
| `LupaClients.LupaClient.CommitDecoded` | frontend/src/runtime/LupaClient.ts:657-690 | commit, store, and the undoing of both |
| `LupaClients.LupaClient.HandleFrame` | frontend/src/runtime/CanvasCompositor.ts:136-193 | a frame paints, then the callbacks run in paint order; every invariant of the client holds on |
| `LupaClients.LupaClient.AttachNewCanvas` | frontend/src/runtime/LupaClient.ts:177-183 | the old compositor lets everything go, a fresh one is started under manifest and layout; every invariant of the client holds on |
| `LupaClients.LupaClient.SetViewportSize` | frontend/src/runtime/LupaClient.ts:275-300 | lays out, and asks for a view the first time; every invariant of the client holds on |
| `LupaClients.LupaClient.SetViewMode` | frontend/src/runtime/LupaClient.ts:808-819 | sets the mode, tells the compositor and asks for a view; every invariant of the client holds on |
| `LupaClients.LupaClient.Select` | frontend/src/runtime/LupaClient.ts:260-268 | selects, and opens if the session allows; every invariant of the client holds on |
| `LupaClients.LupaClient.Retry` | frontend/src/runtime/LupaClient.ts:270-273 | opens again if the session allows; every invariant of the client holds on |
| `LupaClients.LupaClient.ConnectAgain` | frontend/src/runtime/LupaClient.ts:185-225 | clears in the order of the source, callbacks included; every invariant of the client holds on |
| `LupaClients.LupaClient.HandleClose` | frontend/src/runtime/LupaClient.ts:239-249 | cleans up as specified and says why; every invariant of the client holds on |
| `LupaClients.LupaClient.DropOwnJobs` | frontend/src/runtime/LupaClient.ts:389-394 | the loop takes exactly this connection's jobs off and gives their reservations back |
| `ClientBooks.StepKeepsBooks` | frontend/src/runtime/LupaClient.ts:411-721 | every callback keeps the books: each active delivery in exactly one place, every tile accounted for, pending presentations equal to the entries that wait |
| `ClientBooks.PresentationsClampNeverBinds` | frontend/src/runtime/LupaClient.ts:670 | pendingPresentations is positive whenever a callback lowers it |
| `ClientBooks.ReleaseIsSent` | frontend/src/runtime/LupaClient.ts:1005-1024 | the terminal ACK of a delivery in hand is always sent |
| `ClientBooks.StoreKeepsBooks` | frontend/src/runtime/LupaClient.ts:663-689 | storing moves the delivery from the callback to the compositor, replacing and rejecting included |
| `ClientBooks.PaintMovesBooks` | frontend/src/runtime/CanvasCompositor.ts:174-193 | painting moves every waiting delivery to the callbacks |
| `ClientBudget.StepHolds` | frontend/src/runtime/LupaClient.ts:600-616 | every callback keeps the budget in step with pending decodes and resident entries |
| `ClientBudget.StoredClampNeverBinds` | frontend/src/runtime/BitmapBudget.ts:42-45 | removeStored never meets its clamp |
| `ClientBudget.DropNeverClamps` | frontend/src/runtime/LupaClient.ts:669-682 | the callbacks of entries that leave do what they would do without either clamp |
| `ClientBudget.ShowNeverClamps` | frontend/src/runtime/LupaClient.ts:669-675 | so do the callbacks of first paints |
| `ClientBudget.CanvasNeverClamps` | frontend/src/runtime/CanvasCompositor.ts:29-65 | so a compositor that is reset, started or told of an epoch, between any two callbacks, lets its entries go without a clamp |
| `ClientBudget.StoreNeverClamps` | frontend/src/runtime/LupaClient.ts:663-690 | storing a bitmap, with what it replaces or when it is turned away, does what it would do without any clamp |
| `ClientBudget.FrameNeverClamps` | frontend/src/runtime/CanvasCompositor.ts:180-193 | so does every frame |
| `ClientBudget.StepAgreesIff` | frontend/src/runtime/LupaClient.ts:600-690 | stored bytes are those of the resident entries after a callback if and only if it makes or closes a connection, or they were before and it orphans no bitmap |
| `ClientBudget.StepLeaks` | frontend/src/runtime/LupaClient.ts:657-661 | leaked bytes: none after a connection is made or closed, else what was leaked and the reservation of a current bitmap that commits while no canvas is attached, and nothing else |
| `ClientSafety.StepKeepsBitmap` | frontend/src/runtime/LupaClient.ts:634-691 | every callback keeps the balance of bitmaps: arrived is closed plus resident |
| `ClientSafety.StepIsFresh` | frontend/src/runtime/CanvasCompositor.ts:52-120 | every callback keeps the compositor in step with the client's image and epoch |
| `ClientSafety.TurnedAwayIff` | frontend/src/runtime/CanvasCompositor.ts:75-82 | a tile the client found current is turned away exactly when the compositor was never started, or has begun no epoch and the tile is not of level 0 |
| `ClientSafety.RepeatedManifestForgetsTheEpoch` | frontend/src/runtime/LupaClient.ts:440-459 | a MANIFEST of the current epoch whose view has been asked for already starts the compositor afresh, with no epoch begun and no view asked for |
| `ClientNav.StepRefinesOutline` | frontend/src/runtime/LupaClient.ts:411-530 | every callback does to image, plan, intent, epoch and compositor what a machine says that sees the navigation, the link and the epochs, and no tile, decode or byte |
| `ClientNav.StartedIff` | frontend/src/runtime/LupaClient.ts:449-459 | the compositor is started by a MANIFEST with the viewport known or a canvas attached under manifest and layout, and by nothing else; it stays started until a canvas, a connection or an opened image clears it |
| `ClientNav.EpochBegunIff` | frontend/src/runtime/CanvasCompositor.ts:52-65 | only a view request makes the compositor begin an epoch; a start without one, or a clearing, leaves it at epoch 0 |
| `ClientNav.AttachingForgetsTheEpoch` | frontend/src/runtime/LupaClient.ts:177-183 | after a canvas is attached, through any callbacks, current tiles are taken only if of level 0 and after a start, until a view is requested |
| `ClientNav.NoTilesBeforeStart` | frontend/src/runtime/LupaClient.ts:279-288 | a compositor that was not started takes no tile, through any callbacks, until one that starts it |
| `ClientNav.PlanStaysCurrent` | frontend/src/runtime/LupaClient.ts:463-475 | over every run the plan is of the current epoch and within the levels of the current image, and so is the view asked for |
| `ClientNav.ContextIff` | frontend/src/runtime/LupaClient.ts:955-964 | after every run a current tile is context exactly when of level 0, or the view is in focus mode with its plan and no finer than the plan allows: the two epoch checks never decide |
| `ClientNav.DoneSettlesIff` | frontend/src/runtime/LupaClient.ts:476-493 | a DONE is a violation exactly for an epoch there never was; for the current one the view is settled exactly when all tiles received are drawn, discarded or failed |
| `ClientNav.ErrorSettlesIff` | frontend/src/runtime/LupaClient.ts:494-523 | an ERROR is a violation exactly for an epoch there never was; otherwise no plan is left, and with an image on show the view is settled exactly when all tiles received are drawn, discarded or failed |
| `ClientNav.RefusalLastsIff` | frontend/src/runtime/LupaClient.ts:734-747 | the phase an ERROR shows survives the next completion update exactly when the version is supported and the session welcomed, or there is neither welcome nor manifest |
| `ClientNav.NothingIsSentUntilConnected` | frontend/src/runtime/LupaClient.ts:1064-1069 | after a violation or a close, through any callbacks but connect: no ACK or retry request is sent, no tile taken in, no decode posted |
| `ClientView.StepDrains` | frontend/src/runtime/LupaClient.ts:734-747 | the phase is observing only when nothing is pending, after every callback |
| `ClientView.ConnectingIsSaidIff` | frontend/src/runtime/LupaClient.ts:208-214 | a new connection shows as connecting if and only if nothing, or one tile and no decode, was left to be painted |
| `ClientView.StepScheduled` | frontend/src/runtime/CanvasCompositor.ts:136-152 | an entry that waits has a frame scheduled, unless a frame found no context |
| `ClientView.FramePaintsAll` | frontend/src/runtime/CanvasCompositor.ts:174-193 | one frame brings the pending presentations to zero |
| `ClientRuns.NoCreditIsLost` | frontend/src/runtime/LupaClient.ts:569-721 | over every run, on an open link: a delivery is active exactly when it is in one of three places, and had one terminal ACK for each time it stopped being active |
| `ClientRuns.AcksAreFarApart` | frontend/src/runtime/LupaClient.ts:1005-1024 | over every run: on one connection two terminal ACKs of one delivery have at least 2048 others between them |
| `ClientRuns.AdmittedIff` | frontend/src/runtime/LupaClient.ts:569-585 | over every run, on an open link: a delivery is taken exactly when it was asked for again, or is neither in hand nor among the newest 2048 acknowledged |
| `ClientRuns.TilesAreAccounted` | frontend/src/runtime/LupaClient.ts:532-721 | received = drawn + discarded + failed + pending + waiting; ACKs and retry requests together are drawn + discarded + failed, so ACKs alone are exactly when no retry was requested |
| `ClientRuns.BudgetIsKept` | frontend/src/runtime/BitmapBudget.ts:11-45 | over every run: the limits, the sum of reservations, who has one, and stored bytes equal to those of the resident entries plus what leaked |
| `ClientRuns.AgreesUnlessOrphaned` | frontend/src/runtime/LupaClient.ts:657-690 | over every run: stored bytes are those of the resident entries exactly when no bitmap was orphaned since a connection was made or closed, and exceed them by the bytes of those that were |
| `ClientRuns.NothingStaleIsShown` | frontend/src/runtime/CanvasCompositor.ts:75-99 | over every run: what is resident is of the current image, fine tiles of the current epoch, one to a place |
| `ClientRuns.BitmapsAreClosedOnce` | frontend/src/runtime/LupaClient.ts:634-691 | over every run and all connections: every bitmap is closed once or resident once |
| `ClientRuns.SettledMeansDrained` | frontend/src/runtime/state.ts:12-22 | observing means nothing is being decoded, waits, or is reserved |
| `ClientRuns.NoTileIsForgotten` | frontend/src/runtime/CanvasCompositor.ts:136-149 | after every run a tile that waits has a frame coming, or an earlier frame found no drawing context while a tile waited |
| `ClientRuns.ScheduledIff` | frontend/src/runtime/CanvasCompositor.ts:136-149 | the only callback that leaves a waiting tile without a frame is a frame that finds no context while one waits |
| `ClientRuns.FailureIsRetriedIff` | frontend/src/runtime/LupaClient.ts:699-707 | a failed decode is asked for again if and only if its epoch is current and two requests have not been made; otherwise it is acknowledged |
| `ClientRuns.CurrentManifestIsUsed` | frontend/src/runtime/LupaClient.ts:537-539 | a tile of the current image is held against the current manifest |
| `ClientRuns.TileIsKnownIff` | frontend/src/runtime/LupaClient.ts:535-543 | a tile is let in exactly when it fits a remembered manifest and the agreed size |
| `ClientRuns.RememberKnows` | frontend/src/runtime/LupaClient.ts:723-732 | at most eight manifests, one for each version, the latest last |
| `ClientSystem.SystemStaysSound` | frontend/src/runtime/LupaClient.ts:618-638 | client and worker joined by two channels: every decode in flight is a pending one of its epoch and size, and the other way round, over every interleaving |
| `ClientSystem.AnswersFindTheirJobs` | frontend/src/runtime/LupaClient.ts:634-640 | an answer on a connection that is not closed finds its job, posted with that very header; others are of earlier connections |
| `ClientSystem.CurrentBitmapsCommit` | frontend/src/runtime/LupaClient.ts:656-661 | a bitmap of the current epoch is paid for by its own reservation; only the limit of detail can refuse it |
| `ClientSystem.NothingIsStuck` | frontend/src/runtime/LupaClient.ts:634-721 | once the worker rests and a frame has run, every tile is accounted as done, nothing is reserved, and what is active has been asked for again |
| `ClientProgress.StepLowersEffort` | frontend/src/worker/decodeWorker.ts:16-148 | every step that is not a callback lowers one measure of the work in both channels and the worker |
| `ClientProgress.CanGoOn` | frontend/src/worker/decodeWorker.ts:83-93 | a system that does not rest has such a step to take |
| `ClientProgress.ComesToRest` | frontend/src/runtime/LupaClient.ts:634-721 | from every sound system such steps lead to rest |
| `ClientProgress.EverythingIsServed` | frontend/src/runtime/LupaClient.ts:634-721 | with no callback in between only a bounded number of steps can happen, in any order; however far they have gone some more lead to rest, and then one frame leaves every tile received drawn, discarded or failed, nothing reserved, and active only what was asked for again |
| `ClientProgress.SystemReached` | frontend/src/runtime/LupaClient.ts:618-721 | every interleaving from a new client and an idle worker reaches a system of which all of this holds: flight and pending decodes match, messages are in order, level 0 is context, every resident tile has its place |
| `ClientProgress.ReachedIsServed` | frontend/src/runtime/LupaClient.ts:634-721 | so from each of them all that was received can still be served |
| `ClientOrder.SystemStaysOrdered` | frontend/src/runtime/LupaClient.ts:773-784 | over every interleaving: messages to the worker are in order, and the worker knows only what it was told |
| `ClientOrder.DecodesArriveCurrent` | frontend/src/worker/decodeWorker.ts:35-45 | a decode that reaches the worker is never stale: the check on admission never finds anything |
| `ClientOrder.EpochsOnlyGrow` | frontend/src/runtime/LupaClient.ts:980-987 | within a connection the epoch never falls, and rises by one at most |
| `ClientOrder.FirstViewIsRequested` | frontend/src/runtime/LupaClient.ts:434-462 | an image that is opened and heard of always has its first view requested, and the compositor is ready for that view |
| `ClientKinds.SystemKeepsKinds` | frontend/src/runtime/LupaClient.ts:955-957 | over every interleaving a level-0 tile is context, in flight and resident |
| `ClientKinds.NewViewFreesDetail` | frontend/src/runtime/CanvasCompositor.ts:52-65 | a new view starts with the whole detail budget, but for what had leaked, and only level 0 stays |
| `ClientPaint.SystemKeepsPlaced` | frontend/src/runtime/CanvasCompositor.ts:75-99 | over every interleaving, a resident tile is of a level the manifest on show has, and a fine one is a tile of that manifest |
| `ClientPaint.ResidentsAreDrawn` | frontend/src/protocol/viewMath.ts:54-55 | so painting finds a destination for every resident tile, whatever the view, and never throws |
| `ClientPaint.ResidentsDoNotOverlap` | frontend/src/runtime/CanvasCompositor.ts:180-188 | two resident tiles of one fine level are never drawn over the same point of the canvas |
| `ClientPaint.TakenFitsIff` | frontend/src/runtime/CanvasCompositor.ts:75-82 | a tile the compositor takes is one of the manifest on show exactly when it is fine or has the size of level 0 |
| `ClientExamples.BytesCanLeak` | frontend/src/runtime/LupaClient.ts:657-661 | a run without a canvas after which stored bytes are not those of the resident entries |
| `ClientExamples.ReleaseCanFallShort` | docs/A22.md:148-149 | a run after which RELEASE is 0 and drawn + discarded + failed is 1 |
| `ClientExamples.AttachingCanTurnAway` | frontend/src/runtime/LupaClient.ts:177-183 | a run in which a canvas is attached and a tile of the current view is then turned away by a started compositor |
| `ClientExamples.RepeatedManifestCanTurnAway` | frontend/src/runtime/LupaClient.ts:440-459 | the same with a repeated MANIFEST |
| `ClientExamples.LateViewportCanTurnAway` | frontend/src/runtime/LupaClient.ts:279-288 | a run in which the viewport follows the MANIFEST and a current tile even of level 0 is turned away |
| `ClientExamples.TileCanBeForgotten` | frontend/src/runtime/CanvasCompositor.ts:136-149 | a run after which a tile waits and no frame is coming |
| `ClientExamples.CoarseTileCanMisfit` | frontend/src/runtime/CanvasCompositor.ts:75-82 | a run in which a level-0 tile is stored under a manifest whose level 0 has another size |
| `ClientExamples.ConnectingCanShowProcessing` | frontend/src/runtime/LupaClient.ts:208-214 | a run after which connecting does not show as connecting |
| `ClientExamples.ErrorPhaseCanBeLost` | frontend/src/runtime/LupaClient.ts:505-509 | a run in which the error phase of an unsupported version gives way to observing at the next answer |

## Left out

- The React interface, styles, pointer and keyboard handling, the acceptance and visual probes: no protocol state.
- `WebSocketTransport`, the catalog fetch, `LupaApplication`, `StorageExecutors`, `ShutdownSupport`, `MonotonicScheduler`: thin wrappers around I/O.
- `SampleTransport`, `TransientBufferBudget`, metrics, the trace and its download, the tile digest, `snapshot` and `sizes`: reporting, or members that would only be easy.
- JSON, UTF-8 and JPEG decoding, regular expressions other than the image version, canvas drawing: inputs or outcomes of the steps. A control message is taken as already parsed, except for the checks of its fields.
- The navigation, settle, resize and notify timers: each is a request for a view, or a notification, at any moment. The other navigation commands are modelled by what they do to the pipeline: a repaint, a request for a view. The rectangle, viewport, offset and focus of a view are the signature's text and are not kept.
- `destroy` of the client: it ends the worker and the page's use of the client, after which nothing is claimed.
- The compositor calls back from inside its loops; here each operation returns the entries concerned, in the order of the calls, and the client runs the callbacks next. The callbacks touch nothing of the compositor, so the result is the same. Entries are values in a list kept in the order of insertion, not objects in a map.
- Bitmaps the worker itself closes (wrong size, or stale after decoding) never reach the client and are not counted.
- A callback handed a lease that throws: the source completes that lease with no bytes, which is another release in the model.
- Owners made up for callers that have none: they are owners like any other.
- `ViewMath.DestinationEdges`: over the reals, without the rounding of floating point; `computeFitLayout` and its square root are not modelled.
- `Admission.TileReadAdmission.SelectNextWaiter`: the flow objects are values in a map that is updated; the source updates the object the map holds.
- `WritePump.DeliversInOrder`: of the order of the bytes it speaks only if a write completes once, as the channel promises; that no more than one outcome is reported holds without it (`WritePump.ReportsOnce`).
