# Verification of the motion firmware

A Dafny model of the hard parts of a cutting machine's firmware and of the host code that feeds it, with the
properties the code is written for proved for every input, every interleaving and every run.

- **The motion planner and its executor** (`lib/planner`). A 64-slot ring of blocks is planned by two passes over
  squared speeds on one core and executed on the other; the running block's exit may still be raised through a one-slot
  mailbox. `Trapezoids` and `Kinematics` are the profile of one block; `LookAhead` the two passes; `PlanStates` and
  `ExecStates` what each operation of the planner and each pass of the executor does; `Systems` the two sides
  interleaved; `MotionTheorems` the results over every run, `Fastest`, `Junctions` and `Horizons` that profile, corner
  and replan are the fastest their limits allow, `QueueOrder` the order the queue is run in and `QueueTime` how long that
  takes, `Aborts` what leaves the ring, `HoldLag` a hold against the plan it interrupts, `HoldRises` when it can be late,
  `AxisLimits` what the motion asks of each axis, `Retries` when the producer's commit loop ends, `Feeds` a move without a
  feed. `PlannerRing.Planner` and `ExecutorLoop.Executor` are the classes as the
  source has them, fields and arrays updated in place, each method proved equal to its operation.
- **The Hall index finder** (`hall_index.cpp`). `Autoconvolution` proves that a symmetric window's autoconvolution
  peaks at its axis and nowhere else, `HallVertex` that the correction between lags is the vertex it is meant for;
  `HallResolver.Resolver` is the sliced search over it; `HallSweep` says what a
  whole trace of samples should give, `HallSampling` and `HallSampler.Sampler` that the step-by-step detector gives
  exactly that, and `HallTraces` what whole sweeps come to, from the samples to the index.
- **The leg pulser** (`leg.cpp`). `LegRamps` is the profile a leg is meant to draw, `LegPulser` the 16-bit ramp and
  the interrupt over whole legs, `LegIsr.Pulser` the interrupt in place.
- **Three protocols.** `GoBackN` is the stream receiver against the host's windowed session over lossy channels,
  `SeqReset` a new stream behind an old one, and `DataPlane.Plane` the receiver byte by byte, configuration transfers
  included; `Framing` and `FrameQueue.Bus` the 9-bit bus framer; `FactRing` the lock-free ring between the cores, one
  memory access at a time.
- **The geometry the planner trusts.** `CurveFit` (t(s) runs strictly forwards), `SpeedCaps` (no axis exceeds its
  limits), `Curves` and `Splitting` (the host's pieces retrace the curve exactly).

Floats are exact reals. `sqrtf` is a function parameter `sq` known only to be a square root of non-negative numbers.
Fixed-width integers wrap where the code's do: the 8-bit sequence numbers and ring indices, the 16-bit intervals, the
16-bit decimation and lag loop, the int32 accumulators (proved never to wrap) and the int32 vertex (proved exact though
a step of it may wrap).

How the two sides interleave (`Systems`): the producer pushes, replans and commits; the consumer takes an offer, ticks,
holds, releases, resumes, aborts. A tick lasts no longer than the planner's `guard` while an offer may be staged and
follows a take-over attempt, as `planner.h` asks of the consumer; a replan may read an older clock than its commit.
A commit may stage with a clock read before or during the last tick, until the next take-over attempt; one that reads
the clock and then lets that tick end, an `adopt()` and a further tick go by before it stages is excluded, and `late == 0`
rests on that.
Between a restart and the next commit nothing is claimed, as `planner.h:157-162` asks. A plan whose epoch has gone stale
is no plan: every operation that bumps the epoch drops it.

## Model

| member | source | states |
|---|---|---|
| MotionTheorems.SpeedNeverJumps | lib/planner/executor.cpp:78-158 | in every state any interleaving of both sides reaches, a tick of dt changes the speed by at most a·dt and moves on by between 0 and vCap·dt of the queued path: no jump, no path skipped or run twice, across switches, junctions, events, holds and aborts |
| MotionTheorems.OnlyTicksMove | lib/planner/planner.cpp:191-304 | no other action changes the speed, and none but a push or reset changes the path still to run: a stop and restart loses and repeats nothing |
| MotionTheorems.CommittedChain | lib/planner/planner/planner.h:26-29 | in every reachable state outside a restart each block's committed exit is the next one's entry, entries are within junction caps, every request is feasible, the claimed block hands over at its committed exit and the newest block ends at rest |
| MotionTheorems.OffersInTime | lib/planner/planner/planner.h:20-29 | no offer is ever found late; a standing one is for the claimed block, not yet reached, starts before the running piece ends and matches it in place and speed there, and is what adopt() takes |
| MotionTheorems.PinnedNeverTooFast | lib/planner/planner.cpp:152-163 | in every reachable state, restarts included, the entry pinned by the claimed block is one the reverse pass can still stop from |
| Horizons.ReplanIsFastest | lib/planner/planner.cpp:118-176 | with (s, v) the running block's motion at the instant a new piece may take over, in every reachable state and at every clock: an exit is planned to be raised if and only if one the block can still reach from (s, v), within its cap, and some feasible plan of the blocks behind enters at, is above the committed one by more than the threshold; it is then the fastest such exit, by a sound piece from (s, v) to the block's end; replan() waits exactly where a standing offer takes over within the guard |
| Horizons.PlanIsFastest | lib/planner/planner.cpp:178-188 | no feasible speeds behind the running block that enter no faster than the planned exit are above the planned ones anywhere |
| Horizons.CommittedIsFastest | lib/planner/planner.cpp:191-224 | so of what a replan and commit leave: nothing the running block could still hand over to is faster, but by less than the threshold |
| Horizons.RunsThere | lib/planner/executor.cpp:107-123 | (s, v) is where the executor is at that instant, the standing offer taken up |
| MotionTheorems.AlwaysCanBrake | lib/planner/executor.cpp:132-158 | in every reachable state the machine can brake to its block's committed exit before the block ends, and is under the block's speed cap |
| MotionTheorems.HoldFromAnywhere | lib/planner/planner/executor.h:13-16 | a hold begun in any reachable state with a committed plan is complete, at rest, given the time to shed its speed, and not past the first block the plan itself stops in |
| MotionTheorems.HoldNeverAhead | lib/planner/planner/executor.h:13-16 | begun at any reachable instant, at every later one it is no further along the path than the run it replaces, across switches, junctions and events, as long as no untaken offer comes due |
| MotionTheorems.HoldNoFaster | lib/planner/planner/executor.h:13-16 | where the accelerations queued up to the next event do not rise, it is no faster than that run either, so at rest by the time the run is |
| HoldRises.LateExactly | lib/planner/executor.cpp:132-158 | for any accelerations queued up to the next event or the end: a reachable clean state and an instant exist at which the run is at rest and a hold begun with it still moves if and only if some acceleration is higher than the one before it |
| HoldRises.Ride | lib/planner/executor.cpp:132-158 | the plan that shows it, at any rise of any queue: run and hold brake alike up to the rise, then the run speeds up and brakes on the harder block |
| HoldExample.HoldTakesLonger | lib/planner/executor.cpp:132-158 | in figures: 1 then 100 mm/s², after 0.96 s of which the run is at rest and the hold still moves |
| Retries.CommitsExactly | src/rp2350/core0/planner/queue.cpp:22-30 | a replan and commit at one clock succeeds if and only if no switch is due within the guard, and a raise, if there is one, finds the mailbox empty and takes over later than the guard |
| Retries.NeverCommits | src/rp2350/core0/planner/queue.cpp:22-30 | in a hold that stops in its block with a switch due within the guard, no replan and commit ever succeeds, whatever ticks and take-overs go by |
| Retries.StuckReached | src/rp2350/core0/planner/queue.cpp:22-30 | such a state is reachable |
| Feeds.FeedExactly | lib/planner/planner.cpp:33-50 | a move is run in no time, in any tick however short, and its profile unsound, if and only if its feed is zero |
| Feeds.UnfedJumps | lib/planner/trapezoid.cpp:10-40 | without a feed its whole length goes in one tick |
| HoldLag.LagInBlock | lib/planner/executor.cpp:132-158 | a hold in the same place as a run, no faster and with no more time, ends no further along, whatever is queued |
| HoldLag.ProfileLeads | lib/planner/trapezoid.cpp:42-61 | between any two instants a profile gains at least the distance and keeps at least the speed of braking all the way |
| AxisLimits.BlockCaps | lib/planner/executor.cpp:107-158 | in every reachable state, running or holding, the speed keeps the block's own cap, and over a tick in the block changes by at most the block's own acceleration |
| AxisLimits.LineAxes | lib/planner/line.cpp:17-28 | so on a line capped by its axis limits neither axis exceeds its feed, nor over a tick its acceleration, in any reachable state |
| AxisLimits.CurveAxes | lib/planner/bezier.cpp:226-240 | nor on a curve A follows: no axis its acceleration, tangential and centripetal together, and A neither its speed nor its own acceleration |
| MotionTheorems.TicksAdd | lib/planner/executor.cpp:78-174 | in every reachable state with a committed plan tick(d1); tick(d2) leaves the same ring, block, time, distance, speed and clock as tick(d1 + d2) |
| MotionTheorems.NeedsRingExact | lib/planner/executor.cpp:176-189 | in every reachable state with a committed plan, needsRing() false: the tick changes nothing the producer can see; true with a block claimed: the tick releases it |
| Aborts.AbortEmpties | lib/planner/executor.cpp:168-171 | in every reachable state with a committed plan a tick that finds or brings an aborting machine to a halt leaves the ring empty and both sides reset, and any other leaves the abort standing |
| Aborts.AbortCompletes | lib/planner/executor.cpp:214-218 | so an abort is complete after one tick long enough to shed the speed |
| Aborts.AbortStandsExactly | lib/planner/executor.cpp:195-218 | of all that either side may do only release() or resume() of the finished hold calls the abort off; anything else leaves it standing or the ring empty |
| Aborts.AbortStands | lib/planner/executor.cpp:214-218 | so over any run without those two |
| Aborts.DropsWhatRan | lib/planner/executor.cpp:78-158 | without an abort a tick drops blocks from the front only, an event only if it was stopped at and has run, and of the rest no more length than it moved over |
| Aborts.EventGoesOnceRun | lib/planner/executor.cpp:98-105 | stopped at an event a tick leaves the ring alone until eventDone() and releases the event after it |
| Aborts.LateNeverRuns | lib/planner/executor.cpp:62-76 | a piece found late would not be run: the machine holds |
| QueueOrder.FrontGoesFirst | lib/planner/planner.cpp:257-277 | pushed between beginFront() and endFront(), the items that leave anything to run are the head of the queue in the order pushed, with the kinds, tags and paths asked for, the old queue unchanged behind them, and the first entered from rest |
| QueueOrder.FirstInFirstOut | lib/planner/planner/planner.h:140-163 | over every run of the two sides without such pushes, restarts, commits and resets included, what is queued is what was queued and pushed since, in that order, less the oldest |
| QueueOrder.FrontRunsFirst | src/rp2350/core0/planner/queue.cpp:755-760 | so what was pushed to the front leaves before any of the queue it was pushed ahead of |
| QueueOrder.HandsOutOnce | lib/planner/planner.cpp:226-255 | the oldest block is handed out once, as planned from its start, and given back once; a staged piece is taken once |
| QueueTime.QueuedTimeExact | lib/planner/planner/planner.h:178-183 | with nothing claimed and no event queued, the queued time is the time after which, and not before, the executor has run the queue out |
| MotionTheorems.ReachedSafe | lib/planner/planner/planner.h:26-29 | every reachable state satisfies the planner's and the executor's invariant |
| Systems.PerformKeeps | lib/planner/planner/planner.h:140-163 | every action of either side, enabled as the header requires, keeps the invariant of the pair |
| Systems.RunKeeps | lib/planner/planner/planner.h:140-163 | so does every run, in any interleaving |
| Systems.CommitKeepsExec | lib/planner/planner.cpp:204-215 | a commit that raises the running block leaves the executor's motion untouched up to the switch |
| Systems.PushAllKeeps | lib/planner/planner.cpp:257-277 | pushes ahead of the oldest block keep the invariant and the queue they precede |
| ExecSafety.RunningKeeps | lib/planner/executor.cpp:107-130 | a pass in a running block, by coasting, switching or finishing, keeps the invariant and moves smoothly |
| ExecSafety.HoldingKeeps | lib/planner/executor.cpp:132-157 | a pass of a hold never speeds up, stays within the block or leaves it no faster than its committed exit |
| ExecSafety.BeginKeeps | lib/planner/executor.cpp:83-95 | a block is entered at exactly the speed it was planned for, or below it in a hold |
| ExecSafety.SwitchKeeps | lib/planner/executor.cpp:108-116 | a pending piece takes over where and as fast as the running one then is |
| ExecSafety.AdvanceKeeps | lib/planner/executor.cpp:78-158 | the whole loop keeps the invariant and is smooth over its time |
| ExecStates.TurnShrinks | lib/planner/executor.cpp:79-158 | every pass uses up a block, a pending piece or the time: the loop ends |
| Holds.HoldCompletes | lib/planner/executor.cpp:132-158 | a hold given time to shed its speed at the slowest queued acceleration ends held and at rest |
| Holds.HoldStopsByRest | lib/planner/planner/executor.h:13-16 | a hold never passes the end of a block that can be stopped in, however the time is cut |
| AdditiveTicks.TickAdds | lib/planner/executor.cpp:78-174 | ticking is additive wherever a pending piece starts before the running one ends |
| RingLock.NoRingNoChange | lib/planner/executor.cpp:176-189 | a tick that does not need the ring claims, releases and resets nothing |
| RingLock.NeededRingReleases | lib/planner/executor.cpp:176-189 | a tick that needs the ring for a claimed block releases it |
| LookAhead.PlannedChain | lib/planner/planner.cpp:152-188 | from any entry the reverse pass allows the two passes give a feasible plan: within caps, joined up, ending at rest |
| LookAhead.PlannedGreatest | lib/planner/planner.cpp:152-188 | no feasible plan over the same blocks from no faster an entry is anywhere above it |
| LookAhead.ChainBelowReverse | lib/planner/planner.cpp:152-160 | any feasible plan enters no faster than the reverse pass allows |
| LookAhead.PushOnlyRaises | lib/planner/planner.cpp:89-116 | planning again after a push lowers no committed speed |
| LookAhead.ChainJoins | lib/planner/planner/planner.h:26-29 | what a committed plan says block by block |
| PlanStates.PinnedCanStop | lib/planner/planner.cpp:163-188 | the pinned entry is between rest and the reverse pass's entry |
| PlanStates.ReplanKeeps | lib/planner/planner.cpp:118-189 | a replan from any clock keeps the planner's invariant, its output included |
| PlanStates.RaiseSound | lib/planner/planner.cpp:127-177 | an offer planned from the horizon is a sound profile over the rest of the block that takes over from what will then run, and never lowers the exit |
| PlanStates.CommitKeeps | lib/planner/planner.cpp:191-224 | after any accepted commit the committed speeds are a feasible plan again, whatever the restart before it broke |
| PlanStates.PushKeeps | lib/planner/planner.cpp:89-116 | a block pushed at rest joins any committed plan |
| PlanStates.ClaimKeeps | lib/planner/planner.cpp:226-237 | claiming keeps the invariant: the piece that runs ends at the speed the next block enters at |
| PlanStates.ReleaseKeeps | lib/planner/planner.cpp:239-246 | releasing keeps the plan behind the block |
| PlanStates.EndFrontKeeps | lib/planner/planner.cpp:263-277 | blocks moved to the front keep the invariant of a restart |
| PlanStates.RestartKeeps | lib/planner/planner.cpp:279-304 | a restart leaves the broken-chain state, at rest |
| PlanStates.RestartKeepsEnds | lib/planner/planner.cpp:279-304 | every surviving block keeps its end (s0 + length); only a claimed block run to its length is dropped, never an event |
| PlannerRing.Planner.constructor | lib/planner/planner/planner.h:185-215 | an empty ring |
| PlannerRing.Planner.Reset | lib/planner/planner.cpp:11-19 | is the operation on the queue read from the tail |
| PlannerRing.Planner.PushBlock | lib/planner/planner.cpp:89-116 | appends the block to the circular ring with its junction cap, at rest, dropping any plan |
| PlannerRing.Planner.PushMove | lib/planner/planner.cpp:33-50 | refuses mixed axes, a full ring and a turn A's limits do not allow, accepts a move to nowhere, touching nothing; otherwise queues the path |
| PlannerRing.Planner.PushCurve | lib/planner/planner.cpp:52-77 | trims a curve entered part-way, or queues nothing if none of it is left |
| PlannerRing.Planner.PushEvent | lib/planner/planner.cpp:79-87 | queues a zero-length block at rest |
| PlannerRing.Planner.Replan | lib/planner/planner.cpp:118-189 | the scratch arrays, read back, are the two passes' plan and the offer, which `ReplanIsFastest` and `PlanIsFastest` are about |
| PlannerRing.Planner.ReversePass | lib/planner/planner.cpp:152-160 | the loop from the newest block computes the reverse-pass entries |
| PlannerRing.Planner.ForwardPass | lib/planner/planner.cpp:179-188 | the loop from the oldest computes the planned entries, exits and profiles |
| PlannerRing.Planner.Horizon | lib/planner/planner.cpp:127-150 | where in the claimed block a new plan may take over |
| PlannerRing.Planner.Commit | lib/planner/planner.cpp:191-224 | accepts exactly a valid, fresh plan whose offer is neither refused, untaken nor too close, and then stages it and copies the speeds |
| PlannerRing.Planner.Claim | lib/planner/planner.cpp:226-237 | hands out the oldest block once |
| PlannerRing.Planner.Release | lib/planner/planner.cpp:239-246 | drops the oldest |
| PlannerRing.Planner.TakeStaged | lib/planner/planner.cpp:248-255 | hands over the staged piece once |
| PlannerRing.Planner.EndFront | lib/planner/planner.cpp:263-277 | the pushes since the mark go before the oldest block in order, at any tail and overlap: the queue `FrontGoesFirst` is about |
| PlannerRing.Planner.SlideBack | lib/planner/planner.cpp:267-270 | the last-first move through the ring overwrites nothing still to be read |
| PlannerRing.Planner.RestartFrom | lib/planner/planner.cpp:279-304 | is the restart operation, trims in place |
| PlannerRing.Planner.QueuedTime | lib/planner/planner/planner.h:178-183 | sums the durations of the unclaimed blocks |
| ExecutorLoop.Executor.Tick | lib/planner/executor.cpp:78-174 | the loop over the ring and its own fields computes the tick of the pair, and ends; a finished abort empties the ring (`AbortEmpties`) |
| ExecutorLoop.Executor.OnePass | lib/planner/executor.cpp:79-158 | one pass of the loop, with the time it leaves |
| ExecutorLoop.Executor.RunTurn | lib/planner/executor.cpp:107-130 | the running branch: switch, coast or finish |
| ExecutorLoop.Executor.HoldTurn | lib/planner/executor.cpp:132-157 | the holding branch: stop here, leave the block, or brake on |
| ExecutorLoop.Executor.Adopt | lib/planner/executor.cpp:62-76 | takes a staged piece, ignores it in a hold, and holds if it is late |
| ExecutorLoop.Executor.NeedsRing | lib/planner/executor.cpp:176-189 | computes the lock test |
| ExecutorLoop.Executor.Release | lib/planner/executor.cpp:195-205 | leaves a finished hold with the ring restarted where it stopped |
| ExecutorLoop.Executor.Resume | lib/planner/executor.cpp:207-212 | restarts, replans and commits |
| ExecutorLoop.Executor.Abort | lib/planner/executor.cpp:214-218 | holds, to empty the ring once held |
| ExecutorLoop.Executor.RanEvent | lib/planner/planner/executor.h:72-73 | marks only an event it is stopped at |
| Trapezoids.MakeExact | lib/planner/trapezoid.cpp:10-40 | a feasible request is met exactly: no end speed is clamped, the three phases add up to the length, the cruise is within the cap |
| Fastest.FastestEverywhere | lib/planner/trapezoid.cpp:10-40 | at every instant of a feasible profile v² is the least of the cap, what the entry can have reached and what can still brake to the exit |
| Fastest.Quickest | lib/planner/trapezoid.cpp:10-40 | no sound profile over the length between those speeds within the cap takes less time |
| Fastest.MovesAtSpeed | lib/planner/trapezoid.cpp:42-61 | between any two instants a profile covers what its speed at the first would, to within ½·accel·dt²: the position is the sum of the speeds |
| Kinematics.ProfileSmooth | lib/planner/trapezoid.cpp:42-61 | between any two instants the speed changes by at most accel and the position by at most cruise, never back |
| Kinematics.InRange | lib/planner/trapezoid.cpp:42-61 | position stays in [0, length] and speed between rest and cruise: the clamp is idle |
| Kinematics.Energy | lib/planner/trapezoid.cpp:42-61 | v² is within reach of the entry behind and of the exit ahead at every instant |
| Kinematics.Ends | lib/planner/trapezoid.cpp:42-61 | the profile starts and ends exactly at its ends |
| Paths.JunctionInRange | lib/planner/line.cpp:92-110 | a junction cap is never negative and never above either neighbour's |
| Junctions.JunctionExactly | lib/planner/line.cpp:92-110 | a squared speed is under a junction's cap if and only if both paths allow it, A's step of speed is within both jumps, and a circle no further from the corner than the deviation, run at that speed, needs no more than either acceleration; at rest for a change of axes or a reversal |
| Junctions.QueuedExactly | lib/planner/planner.cpp:102-105 | a block is queued with that cap with the newest block, and with rest where it is or follows an event or is the first |
| Junctions.MoveQueued | lib/planner/planner.cpp:33-50 | which moves queue a block, which are refused, and that nothing else changes |
| Junctions.CurveQueued | lib/planner/planner.cpp:53-77 | likewise of curves: refused for want of room alone, one at or past its end accepted with nothing queued, and what is queued ends where the curve does |
| Autoconvolution.OnePeak | src/node/types/stepper/hall_index.cpp:401-411 | on a non-zero window symmetric about c/2 every lag but c is strictly below lag c, whose value is the energy |
| Autoconvolution.PeakIsBalanced | src/node/types/stepper/hall_index.cpp:431-433 | the lags either side of c are equal |
| Autoconvolution.SecondDifference | src/node/types/stepper/hall_index.cpp:431-431 | twice a lag less its neighbours is the window's edges paired with its mirror's, by summation by parts |
| HallResolve.SymmetricCentre | src/node/types/stepper/hall_index.cpp:398-446 | so the resolve returns exactly that centre, with no vertex correction |
| HallVertex.VertexIs | src/node/types/stepper/hall_index.cpp:431-432 | the correction is where the parabola through the peak and its neighbours is highest, and the only such place |
| HallVertex.DeltaInRange | src/node/types/stepper/hall_index.cpp:431-432 | it is within half a lag, and towards the higher neighbour |
| HallVertex.SmallExactly | src/node/types/stepper/hall_index.cpp:431-432 | whatever three values it is taken from, it is within half a lag if and only if the middle one is between neither |
| HallVertex.TopsExactly | src/node/types/stepper/hall_index.cpp:413-418 | the lag found has no higher neighbour if and only if, where it is next to an end lag, the window's sample there is no deeper than its root |
| HallVertex.EdgeMisleads | src/node/types/stepper/hall_index.cpp:431-432 | a window where it has, and the correction leads away from it by more than half a lag |
| HallVertex.IndexAtVertex | src/node/types/stepper/hall_index.cpp:433-438 | the index is the vertex in steps, rounded, on the right side |
| HallResolver.VerdictExactly | src/node/types/stepper/hall_index.cpp:429-446 | the answer is taken if and only if something was found and the laps differ by at most an eighth of one |
| HallResolver.DepthIs | src/node/types/stepper/hall_index.cpp:378-382 | a depth is the drop below the baseline rounded down to fours |
| HallResolve.ScanFinds | src/node/types/stepper/hall_index.cpp:413-418 | the three-deep history finds the first of the largest interior lags with both neighbours |
| HallResolve.TotalWork | src/node/types/stepper/hall_index.cpp:406-411 | the lags' widths add up to n² |
| HallResolve.LagIsAC | src/node/types/stepper/hall_index.cpp:407-411 | the index bounds leave out only zero products |
| HallResolver.Resolver.Begin | src/node/types/stepper/hall_index.cpp:345-395 | refuses an overflow, then an incomplete sweep; otherwise sets lap length and spread and the 16-bit lag count and turns the window, empty or not, into depths in place |
| HallResolver.Resolver.Lag | src/node/types/stepper/hall_index.cpp:407-411 | one lag's sum, every partial sum inside int32 |
| HallResolver.Resolver.Step | src/node/types/stepper/hall_index.cpp:398-446 | a slice that leaves work has done at least 2048 products and none does more than 2047 + n; the last leaves the search's peak, its verdict and, no neighbour above the peak, the index of the vertex, the denominator computed in wrapping int32 |
| HallResolver.Resolver.Finish | src/node/types/stepper/hall_index.cpp:398-446 | so the slices to the end give exactly what one pass would, in at most n²/2048 + 1 calls: where no neighbour is above the peak the index is the nearest step to the place of its parabola's vertex, at most half a lag off the peak's own and on the side of the higher neighbour |
| HallResolver.PartialSumFits | src/node/types/stepper/hall_index.cpp:373-377 | on any window of at most 400 scaled 13-bit depths no accumulator leaves int32 |
| HallResolver.LagEnds | src/node/types/stepper/hall_index.cpp:406-411 | the 16-bit loop over a lag ends if and only if the window is not empty; over an empty one lag k's first product is of samples k + 1 and 65535 |
| HallResolver.VertexInt32 | src/node/types/stepper/hall_index.cpp:431-431 | on any window of at most 400 depths the vertex denominator itself is an int32, however deep the dip |
| HallResolver.FitsExactly | src/node/types/stepper/hall_index.cpp:373-375 | every step of it is, for every window of n samples at most d deep, if and only if 2nd² is: at n = 400 up to d = 1638 |
| HallTraces.DeepOverflows | src/node/types/stepper/hall_index.cpp:373-375 | a finished sweep, on a symmetric dip of the full sensor range, whose doubled peak is not |
| HallSweep.WatchSeen | src/node/types/stepper/hall_index.cpp:249-305 | whatever the samples, every dip found opens over 400 below the running maximum, stays at least 300 below, closes on the first sample that is not, holds its first minimum, and follows the last by more than 40 samples |
| HallSweep.WatchCounted | src/node/types/stepper/hall_index.cpp:274-274 | whatever the samples, the clear run is the number of clear samples since the last dip (up to 65535), and every dip was let in by at least 40 of them |
| HallSweep.DeclaredExactly | src/node/types/stepper/hall_index.cpp:289-289 | outside a dip the next sample opens one if and only if it is over 400 below and 40 clear samples have been counted |
| HallSweep.DipLetIn | src/node/types/stepper/hall_index.cpp:283-289 | the 40 that let a dip in followed each other, and a counter reset by other samples would have reached 40 with them, if and only if no sample between the first and the last of them is not clear |
| HallSweep.ClearNotConsecutive | src/node/types/stepper/hall_index.cpp:274-289 | it happens: 20 clear samples, one that is not and 20 more admit a dip although the trace holds no 40 clear samples in a row |
| HallSampling.HeadAtEntry | src/node/types/stepper/hall_index.cpp:283-296 | the final dip is entered with a full head if and only if 40 whole sampling periods passed since the dip before; at one sample a step, always |
| HallTraces.ShortHead | src/node/types/stepper/hall_index.cpp:283-296 | a sweep that enters it with half a head: one sample every two steps, 40 clear samples |
| HallSampling.WindowTags | src/node/types/stepper/hall_index.cpp:434-437 | slot j of the reported window holds the sample of its step, and the position the resolve takes it for, winStart + j·decim·sign, is that of an earlier step: by 1 to decim in the head, decim in the dip, decim to 2·decim − 1 in the tail; at one sample a step always by one |
| HallSweep.DipFits | src/node/types/stepper/hall_index.cpp:192-209 | a dip no wider than the one surveyed leaves room for a full tail |
| HallSweep.DecimLeast | src/node/types/stepper/hall_index.cpp:197-209 | the decimation is the least that lets in a dip as wide as the one surveyed |
| HallSampling.RunTells | src/node/types/stepper/hall_index.cpp:219-306 | after any trace every variable is what the whole trace says: the detector's dips and extremes, the ring, and a window whose slot j holds exactly the sample of its step; or the window overflowed, which takes a final dip wider than the one surveyed |
| HallSampling.SampleTells | src/node/types/stepper/hall_index.cpp:219-306 | one sample keeps that |
| HallSampling.OverIsComplete | src/node/types/stepper/hall_index.cpp:236-247 | a sweep that reports itself over has a non-empty complete window, a tail as long as its head, and laps between neighbouring lowest samples |
| HallSampling.EmptyWindow | src/node/types/stepper/hall_index.cpp:355-386 | an interrupted sweep looks complete with an empty window exactly when arming to entry, entry to exit and exit to the stop were all shorter than one sampling period |
| HallTraces.EmptyWindowReached | src/node/types/stepper/hall_index.cpp:355-386 | a sweep that ends so: a surveyed dip of 13300 steps, a final one of a single step, stopped at its exit |
| HallTraces.GoesOn | src/node/types/stepper/hall_index.cpp:219-306 | a sweep whose final dip is no wider than the surveyed one never overflows and is not over before its tail is complete |
| HallTraces.OverExactly | src/node/types/stepper/hall_index.cpp:236-247 | it is over on exactly the sample that completes it |
| HallTraces.UnitWindow | src/node/types/stepper/hall_index.cpp:236-304 | at one sample a step the finished window is the trace from 39 steps before the entry to 40 after the exit |
| HallTraces.SymmetricIndex | src/node/types/stepper/hall_index.cpp:398-446 | end to end at one sample a step: a trace whose depths are symmetric about step c/2 is given the index of the position one step short of it |
| HallSampler.Sampler.Arm | src/node/types/stepper/hall_index.cpp:168-190 | starts a sweep, keeping only the old buffers |
| HallSampler.Sampler.Sample | src/node/types/stepper/hall_index.cpp:219-306 | the in-place step, buffer and ring, is the step function; the object is the sweep over its trace |
| HallSampler.Sampler.ArmCapture | src/node/types/stepper/hall_index.cpp:200-215 | sizes the capture from the crossing just surveyed |
| HallSampler.Sampler.Unroll | src/node/types/stepper/hall_index.cpp:300-301 | copies the ring oldest first |
| LegRamps.ProfileProper | src/node/types/stepper/leg.cpp:314-320 | the profile a park is meant to draw stays in [floor, start], changes by at most one ramp step per step, starts and ends at start, and touches the floor when there is room |
| LegPulser.ParkExact | src/node/types/stepper/leg.cpp:321-334 | the 16-bit park follows that profile at every step if and only if none of its sums wraps: the step that reaches the floor does not pass zero and the last step back does not pass 65535 |
| LegPulser.SeekExact | src/node/types/stepper/leg.cpp:328-332 | a seek, retract or sweep follows its descent if and only if the step that reaches the floor is not taken or does not pass zero |
| LegPulser.SmallRampFits | src/node/types/stepper/leg.cpp:321-334 | a ramp step no larger than the floor, with start + step below 65536, never wraps |
| LegPulser.WrapsSometimes | src/node/types/stepper/leg.cpp:328-332 | 110 us to 10 us in 7 ramp steps is armed and wraps |
| LegPulser.ParkArrives | src/node/types/stepper/stepper.cpp:410-416 | a park takes exactly the distance to its target and ends there with no limit hit if and only if its switch never reads asserted three times running up to the overflow that ends it |
| LegPulser.SpendsBudget | src/node/types/stepper/leg.cpp:295-303 | a leg nothing stops takes exactly its budget and halts on the overflow after |
| LegPulser.StopsOnTrip | src/node/types/stepper/leg.cpp:279-293 | a tripped seek or park stops before that overflow's step and records the switch |
| LegPulser.StopsOnAnswer | src/node/types/stepper/leg.cpp:295-311 | a sweep stops on the step whose sample completes the answer, with that step taken |
| LegPulser.LegEnds | src/node/types/stepper/leg.cpp:264-311 | how every leg ends, mode by mode: a retract takes its whole budget whatever the switch and the detector read; a seek or park does if and only if its switch never reads asserted three times running, and else stops where it first has; a sweep, whatever the switch reads, unless it is answered |
| LegPulser.ArmsExactly | src/node/types/stepper/leg.cpp:108-149 | what is armed: an idle pulser, a budget, a floor no slower than the start, which fits 16 bits in ticks; anything else changes nothing, and only a moving one is busy |
| LegPulser.ArmReady | src/node/types/stepper/leg.cpp:108-133 | every leg armed with a ramp is within the 16-bit range its profile needs |
| LegIsr.Pulser.Arm | src/node/types/stepper/leg.cpp:108-149 | refuses a busy pulser and bad arguments, touching nothing; otherwise loads the leg |
| LegIsr.Pulser.NextInterval | src/node/types/stepper/leg.cpp:321-334 | the ramp in 16-bit arithmetic, in place |
| LegIsr.Pulser.Interrupt | src/node/types/stepper/leg.cpp:264-335 | one timer overflow: stop conditions before the step, then step, then ramp; the object is the armed leg after the overflows since |
| LegIsr.Parked | src/node/types/stepper/stepper.cpp:410-416 | so of the object: a park, its budget spent, is on target and off its switch if and only if that never tripped |
| GoBackN.ExactlyOnce | src/rp2350/core0/data_plane.cpp:163-180 | with at most 255 outstanding, whatever is lost, corrupted, refused or resent: packets are executed 0, 1, 2, … once each in order, every ACK byte is the count executed mod 256, every NACK leaves with nothing unconfirmed, and the host is never told of more than was executed |
| GoBackN.TickConfirms | src/rp2350/core0/data_plane.cpp:665-669 | after a tick nothing executed is unconfirmed |
| GoBackN.NeverStuck | src/rp2350/core0/data_plane.cpp:75-104 | from every reachable state some schedule executes the next packet |
| GoBackN.Repeats | src/rp2350/core0/data_plane.cpp:169-172 | with any larger window a run exists that executes packet 0 twice |
| GoBackN.WindowExact | web/src/wire/link/session.ts:402-417 | every run executes its packets in order, each once, if and only if the window is at most 255 |
| SeqReset.FaithfulExactly | web/src/wire/link/session.ts:945-955 | a new stream that starts with replies of the old one still to be heard executes in order, each once, with the host told of no more, in every run, if and only if none of them is an ACK of 1 to the window |
| SeqReset.ResetExactly | web/src/wire/link/session.ts:817-829 | so after a reset, taken for granted on any reply (a new stream) or on an ACK of 0 (a job's restart): if and only if no such ACK of the old stream follows a reply the host may take for its go-ahead; with the link drained, always |
| GoBackN.DeliverKeeps | src/rp2350/core0/data_plane.cpp:121-180 | delivering any packet with any verdict keeps the invariant |
| GoBackN.HearKeeps | web/src/wire/link/session.ts:945-955 | the host's 8-bit clamped advance is to exactly the count the ACK left with, or nowhere if fewer are in flight |
| GoBackN.SendKeeps | web/src/wire/link/session.ts:896-930 | a send within the window keeps the invariant, by which every packet in flight is within a window of what has been executed |
| GoBackN.DeliverAnswers | src/rp2350/core0/data_plane.cpp:75-180 | every packet's replies: a NACK, behind the ACK that is due, if and only if it is damaged, barred, or next and refused; one ACK of the count at once if it is out of sequence; silence if and only if it is executed and leaves one to seven unconfirmed |
| GoBackN.TickAnswers | src/rp2350/core0/data_plane.cpp:665-669 | a drained input is answered by one ACK of the count if anything is unconfirmed and else by nothing |
| DataPlane.WholePacket | src/rp2350/core0/data_plane.cpp:611-631 | a whole packet fed byte by byte to an idle receiver is judged once and leaves it idle |
| DataPlane.PacketAnswered | src/rp2350/core0/data_plane.cpp:121-180 | and answered as the protocol says: the new replies are those of `DeliverAnswers` |
| DataPlane.ResetAnswered | src/rp2350/core0/data_plane.cpp:655-659 | a reset starts an idle receiver at 0 and is answered by ACK 0; inside a packet or configuration it is a byte like any other |
| DataPlane.TextPassesBy | src/rp2350/core0/data_plane.cpp:611-661 | a byte left to the text commands changes nothing, and exactly which those are |
| DataPlane.PassSettles | src/rp2350/core0/data_plane.cpp:665-686 | what a pass acknowledges, what it gives up and what it leaves under way |
| DataPlane.HeaderAnswered | src/rp2350/core0/data_plane.cpp:525-541 | a configuration header is answered at its eighth byte: refused for its length, then for the machine's state, or let through |
| DataPlane.ConfigPassesBy | src/rp2350/core0/data_plane.cpp:525-571 | whatever bytes a configuration holds, the stream protocol's state and replies are untouched and the receiver is idle after exactly its last byte |
| DataPlane.Plane.FeedPacket | src/rp2350/core0/data_plane.cpp:121-180 | assembles in place and judges on the last byte |
| DataPlane.Plane.Judge | src/rp2350/core0/data_plane.cpp:130-180 | CRC, gates, sequence guard and handler in that order |
| DataPlane.Plane.SendNack | src/rp2350/core0/data_plane.cpp:97-104 | flushes a pending ACK first |
| DataPlane.Plane.MarkAck | src/rp2350/core0/data_plane.cpp:93-95 | flushes on the eighth |
| DataPlane.Plane.Take | src/rp2350/core0/data_plane.cpp:611-660 | dispatches a byte to the packet or configuration under way, or on its value, in place and within its buffers; false exactly for a text byte |
| DataPlane.Plane.Pass | src/rp2350/core0/data_plane.cpp:665-686 | flushes what is due, passes the jog's reply on, and drops a stalled packet silently and a stalled configuration with a NACK |
| Framing.FramesExactly | src/node/rs485/frame.h:13-46 | for any stream of tagged bytes the frames completed are exactly those a reference parser cuts from each run of command bytes, and those queued and taken, in order, are the wanted ones that found room |
| Framing.CutsFirst | src/node/rs485/frame.h:30-33 | a frame completed byte by byte is the one the parser would cut: dropping one never misaligns the next |
| Framing.CutAsSent | src/node/rs485/frame.h:13-39 | frames sent back to back are cut as they were sent, whatever part of another follows |
| Framing.QueuedExactly | src/node/rs485/frame.h:13-39 | a completed frame is queued if and only if it is for this node or all, at most 32 bytes long, and fewer than three are queued |
| FrameQueue.Bus.CommandByte | src/node/rs485/frame.h:13-39 | the in-place framer is the step, and writes no slot but the free head |
| FrameQueue.Bus.StreamReset | src/node/rs485/frame.h:43-46 | a stream or damaged byte drops the frame under way only |
| FrameQueue.Bus.Peek | src/node/main.cpp:69-76 | the loop reads the oldest queued frame |
| FrameQueue.Bus.Finish | src/node/main.cpp:83-83 | and frees it |
| FactRing.FirstInFirstOut | src/rp2350/ipc/core1_facts.cpp:18-38 | under every interleaving of single accesses popped facts are a prefix of those pushed, the byte indices differ by the number queued (0 to 8), `lost` is up exactly when a push was refused, and the slot being read is published and not being written |
| FactRing.ChecksExact | src/rp2350/ipc/core1_facts.cpp:20-32 | a push is refused only on a full ring, a pop empty-handed only on an empty one |
| FactRing.StoresFree | src/rp2350/ipc/core1_facts.cpp:24-26 | a store never writes a queued slot or the one being read |
| FactRing.ReadsPublished | src/rp2350/ipc/core1_facts.cpp:31-36 | a pop reads the oldest fact not yet popped |
| FactRing.Ring.Push | src/rp2350/ipc/core1_facts.cpp:18-28 | appends, or refuses a full ring and raises lost |
| FactRing.Ring.Pop | src/rp2350/ipc/core1_facts.cpp:30-38 | removes the oldest, or reports empty |
| CurveFit.MonotonicExact | lib/planner/bezier.cpp:40-47 | the test on the ends and the vertex accepts if and only if dt/du is positive on all of [0, 1] |
| CurveFit.Simpson | lib/planner/bezier.cpp:38-39 | the mean slope over any interval is exactly Simpson's combination of three slopes |
| CurveFit.Forwards | lib/planner/bezier.cpp:165-167 | t(s) with the derived coefficient runs strictly from exactly 0 to exactly 1 |
| CurveFit.ClampIdle | lib/planner/bezier.cpp:67-70 | the clamp changes nothing along the curve |
| SpeedCaps.MakeLine | lib/planner/line.cpp:17-28 | no axis exceeds its feed or acceleration on a line, and speed and acceleration are the highest that do not |
| SpeedCaps.CurveAxes | lib/planner/bezier.cpp:226-230 | with tangential and centripetal acceleration both at their caps no axis exceeds its acceleration on a curve |
| SpeedCaps.CurveCapExactly | lib/planner/bezier.cpp:226-230 | and the cap is no lower: a speed is under it if and only if it is within every feed and, at the sharpest point, the centripetal share |
| SpeedCaps.CurveTurn | lib/planner/bezier.cpp:233-240 | A following the tangent keeps within its speed, and κ·a + κ′·v² within its acceleration |
| SpeedCaps.TangentCapExactly | lib/planner/bezier.cpp:233-240 | and if and only if A keeps its speed and half its acceleration is enough for each share |
| SpeedCaps.RideTurn | lib/planner/line.cpp:70-79 | A turning along a line keeps within its limits |
| SpeedCaps.RideCapExactly | lib/planner/line.cpp:70-79 | and if and only if A is within them |
| SpeedCaps.BladeKeeps | lib/planner/line.cpp:63-67 | the knife axis ahead of the tip keeps to the path's caps, and d·ω² within the acceleration |
| SpeedCaps.BladeCapExactly | lib/planner/line.cpp:63-67 | and if and only if it does |
| SpeedCaps.MeshFollowed | lib/planner/mesh.cpp:85-94 | Z following the mesh keeps within its feed and acceleration |
| SpeedCaps.MeshCapExactly | lib/planner/mesh.cpp:85-94 | and if and only if its feed and half its acceleration are enough at the steepest and the most bent |
| Curves.SubRetraces | web/src/toolpath/geometry.ts:117-123 | the piece over [r, s] at u is the curve at r + u (s − r) |
| Curves.SplitSub | web/src/toolpath/geometry.ts:161-167 | splitting a piece gives exactly the two pieces either side |
| Splitting.SplitMany | web/src/toolpath/annotate.ts:150-161 | splitting at sorted parameters gives the pieces between them |
| Splitting.TilesRetrace | web/src/toolpath/annotate.ts:149-161 | piece k at u is the curve at t_k + u (t_k+1 − t_k), and neighbours share their joint |
| Splitting.TilesCover | web/src/toolpath/annotate.ts:149-161 | every point of the curve lies on a piece |
| Splitting.ByKappaRatioTiles | web/src/toolpath/annotate.ts:256-272 | whatever the tests answer the pieces tile the curve, at most 2^depth of them |
| Splitting.RatioKeepsLong | web/src/toolpath/annotate.ts:249-253 | every piece is the whole or long enough |
| Splitting.RatioKeepsDone | web/src/toolpath/annotate.ts:256-272 | reached by splitting only what is uneven, and even, split as often as may be, or with a half too short |
| Splitting.ByFitTiles | web/src/toolpath/annotate.ts:275-285 | likewise, and every piece kept is good, or a loose fit at the last depth (an exact 2^depth-th of the curve) or with a half too short to keep |
| Splitting.FitKeepsLong | web/src/toolpath/annotate.ts:249-253 | every piece is the whole or long enough |
| Splitting.RefusedExactly | web/src/toolpath/annotate.ts:275-285 | a curve is refused if and only if halving leads to a piece that cannot be halved further and is neither good nor merely loose |
| Splitting.FitKeepsFit | web/src/toolpath/annotate.ts:275-285 | otherwise every piece is reached by halving only what has to be halved, and is good, or loose with no split left |
| Splitting.SplittersTile | web/src/toolpath/annotate.ts:255-285 | from the top both tile all of [0, 1] |

Where the code and its comments differ, the code is modelled:

- `hall_index.cpp:38` and `:283` speak of consecutive clear samples; the counter is a count of them (`WatchCounted`), a
  run under exactly `DipLetIn`'s condition, and not always (`ClearNotConsecutive`).
- `hall_index.cpp:286` promises a full head at the entry; that holds at one sample a step, otherwise under exactly
  `HeadAtEntry`'s condition, and not always (`ShortHead`).
- `leg.cpp:305-308` and `hall_index.cpp:297` take the window's step tags for exact; they are early by about a sampling
  period (`WindowTags`), which puts the reported index of a symmetric dip one step short (`SymmetricIndex`).
- `hall_index.cpp:373-375` sizes the scaling so that int32 holds the autoconvolution. It holds every sum; doubling the
  peak in the vertex may leave it, exactly as `FitsExactly` says and as a full-range dip does (`DeepOverflows`). That is
  undefined in C; in two's complement the denominator still comes out exact (`VertexInt32`), and so the index.
- `hall_index.cpp:355-357` is meant to turn away every sweep without a complete window. A stop at the wrong step passes
  it with an empty one (`EmptyWindow`, `EmptyWindowReached`); the resolve then sets out to sum 65535 lags and never
  leaves the first, reading samples the window does not hold (`LagEnds`).
- `hall_index.cpp:431-432` fits the vertex to any lag found. Next to an end lag that need not be a peak, exactly as
  `TopsExactly` says, and the correction may mislead (`EdgeMisleads`); with clear samples at both ends it never does.
- `executor.h:15-16` can be read as a claim about time; a hold never gets ahead of the plan (`HoldNeverAhead`), but may
  come to rest after it, exactly where an acceleration queued before the next event rises (`LateExactly`,
  `HoldTakesLonger`).
- `executor.h:14-15` has abort() hold and then empty the ring. Calling release() or resume() on a hold already finished,
  before the next tick, calls it off (`AbortStandsExactly`); the firmware's own loop does neither while aborting.
- `queue.cpp:3-5` retries a refused commit with the clock read again. A hold stops that clock: with a switch due within
  the guard the loop does not end until the ring is restarted (`NeverCommits`, `StuckReached`).
- `pushMove` takes a feed of zero; such a move is run in no time (`FeedExactly`). The results about reachable states are
  about moves with a feed.
- `link.ts:297-302` takes any reply for a reset's ACK; a late reply of the old stream can then advance the new one, under
  exactly `ResetExactly`'s condition.
- `leg.cpp:330` says the ramp never overshoots the floor; it does when the subtraction wraps (`ParkExact`,
  `SeekExact`).

## Left out

- Float rounding, NaN and infinities; the planner's improvement threshold is kept as its constants.
- The planner's 32-bit epoch never wraps in the model; a plan that survives 2^32 pushes, claims and releases is not
  considered.
- The memory fences around the staging slot and the fact ring: accesses are sequentially consistent.
- Machine positions: `pointAt`, `pos_`, `Pos`, heading tracking and the A-miss count of tangent blocks; ticks are proved
  additive on everything else.
- PlannerRing.Planner.PushMove: what a target comes to (its axes, its length, whether A may ride along) and its path are
  inputs, and the caller's extra caps are part of the path.
- Systems.PushItem: pushes reach the pair as paths with a feed; a move refused changes nothing.
- Tags carried by a block (layer, record, lift, break distance) are one opaque tag.
- Systems.PerformKeeps: pushes ahead of the oldest block are one action; the source's interleaving of each such push with
  other producer calls happens under the same lock.
- Legs re-armed while an earlier finish is pending, span and latch bookkeeping, and `int32` position wrap-around.
- The constant interval of a leg armed with no ramp steps.
- ADC setup, registers, timers, serial writes and LEDs; the Hall sample, limit pin and packet bytes are inputs.
- The rounding of the reported Hall index is `lroundf` over reals.
- HallResolver.Resolver.Begin: positions are kept inside ±2^30 so that lap differences do not wrap.
- HallResolver.Resolver.Step: of a running resolve, one whose window holds a sample; on an empty one the code does not
  return (`LagEnds`).
- HallResolver.FitsExactly: a doubled peak beyond int32 is taken to wrap.
- MotionTheorems.HoldNeverAhead: the run compared with is the one committed and adopted so far; one that goes on to take a
  later offer is not.
- What an accepted packet or configuration does (layers, tools, jobs), the reply to a configuration read and the abort;
  the verdicts on a packet and on a configuration and a jog's replies are arbitrary.
- CRC arithmetic: a damaged packet is one judged corrupt.
- GoBackN.ExactlyOnce: the host's timers, fatal errors and preflight gate are arbitrary choices of when to send and go
  back.
- SeqReset.ResetExactly: the reset byte itself is not lost, and stays in order with the packets around it.
- Curvature, cusps, inflections and stop repair in `annotate.ts`, and the Gauss-Legendre and least-squares analysis;
  split tests and parameters are arbitrary.
- A-only moves of `bladeCaps`, `axisPath` and the consistency slack of `checkBezier`: single-branch bounds.
- Configuration decoding, text commands, the demo page and the bench tools.
