# Urmet gateway: concurrency and media core

A Dafny model of the concurrency and media core of the Urmet gateway add-on
(`addon/urmet-gateway/urmet_gateway`), with proofs of the ordering contracts its
docstrings state. `dafny verify dfyconfig.toml` checks everything.

The program is asyncio code fed by three foreign threads: pjmedia's clock thread, the
demux thread and the one SDK worker. It is modelled as step systems. One step is what
runs between two awaits; where a promise is about threads, one step is one statement.
The SDK worker runs its jobs in order, and cancelling an await never undoes a running
one. Each component has a machine over values (states, actions, runs, invariants), and
beside it the source's own objects: classes with its fields, whose methods are proved
equal to the machine's steps. History fields, marked as such, record what has happened
and are read by no step.

| files | what they model |
|---|---|
| `BoundedLane`, `BridgeProtocol`, `AudioBridge`, `Timings` | the audio bridge: bounded deques, the lock-free wake-up, the ring of timings |
| `G711`, `AudioTracks`, `Octets` | the A-law fold of section 3 of ITU-T Rec. G.711, carried as PCMA (section 4.5.14 of RFC 3551), the RTP timeline, the re-cut uplink |
| `VideoTrack` | packets on the 90 kHz clock of section 5.1 of RFC 6184, over a bounded queue |
| `VideoPipeline`, `VideoSession`, `VideoTap`, `VideoAsking`, `SessionObjects` | the generation counter, the watchdog, the retrying wait, the tap through the worker, losing and closing, and what each ending leaves behind |
| `SdkWorker` | the single crossing every SDK call takes |
| `Options` | what may be missing and what may fail |
| `Events`, `Audience` | the event bus, and the gateway publishing onto it |
| `Calls`, `Gateway`, `GatewayLaws`, `GatewayRuns`, `GatewayAccounts`, `GatewayLegs`, `Service` | the call book, the service, the browser legs and their reaping; every event, coroutine and leg of a run accounted for |
| `Supervision`, `SupervisionObjects`, `Microphone` | the reconnect loop, the holder, the factory, the microphone across reconnects |

## Where the words and the code part

The model follows the code. For each of these a lemma gives the exact condition under
which the promise holds, and another a run in which it does not.

- `busy` (`sip/worker.py:38-46`) is documented as "a call is queued or running"; it says
  whether an await is outstanding (`BusyIsAwaited`), and is false while the one call left
  runs with its await cancelled (`NotBusyYetRunning`, `BusyMissesExactlyWhen`).
- `SessionVideo.aclose` leaves early in two cases (`AcloseRaisesExactlyWhen`). The asking
  has just died of an unexpected error: the tap is shut by then and stays shut, what stays
  up is the pipeline's run (`RaisingLeavesTheRunUp`, `AcloseCanRaise`). Or the task closing
  the session is cancelled, which the shutdown does to every task still running: this and
  nothing else can leave the tap open, exactly when it takes a close with it that has not
  begun (`CutLeavesItOpenExactlyWhen`, `AnOpenTapWasCut`, `AcloseCanBeCut`).
- `PictureWait.waiting` (`media/picture_wait.py:49-52`) says whether a picture is still
  asked for; it stays up behind an asking that died of an unexpected error, until the
  watchdog fires or `aclose` begins (`ADeadAskingReadsWaiting`, `AnAskingCanDie`).
- The stall reaction dies the first way too, tap shut, its run killed and not reaped
  (`TheReactionClosesExactlyWhen`, `AReactionCanDie`).
- The generation counter does not cover a stall by itself (`AStallAloneSlipsThrough`,
  `ArmAnswersAliveExactlyWhen`); inside a session the cancelled wait closes the gap
  (`ArrivalIsLive`).
- A dialog can change sides after it was first seen, unpublished (`ADialogCanTurnUnseen`,
  `RecordTurnsExactlyWhen`, `StaysUpToDateExactlyWhen`).
- One leg per dialog needs an offer not to overlap a closing leg
  (`OverlappingOffersMakeTwo`, `OneLegPerCallExactlyWhen`).
- A hang-up does not wait for a leg somebody else is already closing
  (`AClosingLegIsNotWaitedFor`). Where no offer overlaps a closing leg that is the only way
  it goes out over one (`TheLegGoesFirst`); where two legs are on one dialog it waits for
  the first of them at most.
- A supervise loop that died takes the last release with it: `stop` raises and publishes
  nothing (`AHookThatRaisesLeaksTheBinding`, `ADeadLoopIsNeverReleased`); so does a last
  `client.stop` that breaks (`ALastStopThatBreaksIsNotPublished`). These are all the ways
  (`StopRaisesExactlyWhen`, `TheLoopDiesExactlyWhen`). A client is left live for good when
  the loop died in the hook or before the worker had begun the release, and at no other
  death (`DeathLeavesLiveExactlyWhen`, `ADeadLoopsClientStays`); a last release that breaks
  leaves one only if it had not begun (`ABrokenReleaseLeavesLive`).
- A mute whose await is cancelled after the worker began it parts the client from the owned
  state (`ACancelledMuteParts`) until the next mute that is heard (`AHeardMuteJoins`,
  `HeldClientsAreAligned`), and nothing else does (`AlignedUnlessCut`).

## Model

| member | source | states |
|---|---|---|
| BridgeProtocol.NoLostWakeUp | addon/urmet-gateway/urmet_gateway/media/audio/bridge.py:100-175 | In every statement-level interleaving of the clock thread and the loop, a reader asleep with the event unset is on an open bridge; if a frame is queued then a signal is queued on the loop or the producer is mid-frame and will queue one; handles scheduled never exceed the times the flag was raised |
| BridgeProtocol.SleeperIsServed | addon/urmet-gateway/urmet_gateway/media/audio/bridge.py:111-160 | From any state the protocol keeps, a reader asleep on a non-empty queue gets the frame at its head once the producer finishes its callback and the loop turns once |
| BridgeProtocol.BridgeConserves | addon/urmet-gateway/urmet_gateway/media/audio/bridge.py:100-170 | Both directions, at every instant: the queue is a suffix of what was appended, at most the backlog; appended = popped + evicted + queued, in order; the drop counter is the evictions plus exactly the appends whose check saw full and that a concurrent pop relieved; received and supplied count appends and pops |
| BridgeProtocol.EveryCallbackCounts | addon/urmet-gateway/urmet_gateway/media/audio/bridge.py:100-143 | In every interleaving, between callbacks: frames received are the calls of `on_frame`, frames supplied and underruns the calls of `next_frame`, and signals queued and loops unreachable the times a callback found the flag up; none is unreachable while the loop is open |
| BridgeProtocol.StepKeeps | addon/urmet-gateway/urmet_gateway/media/audio/bridge.py:100-175 | One statement of either thread keeps the wake-up invariant: flag or signal pending for a committed reader, and one handle per raise |
| BoundedLane.PushIs | addon/urmet-gateway/urmet_gateway/media/audio/bridge.py:162-170 | Check, count and append run together keep the newest frames up to the backlog, count one drop exactly when the queue was full, and lose no other frame |
| BoundedLane.AppendKeeps | addon/urmet-gateway/urmet_gateway/media/audio/bridge.py:77-78 | `deque(maxlen=...)` evicts only its head and only past the bound: conservation is kept |
| WholeCalls.OnFrameIsItsStatements | addon/urmet-gateway/urmet_gateway/media/audio/bridge.py:100-127 | `on_frame` with nothing cutting in is exactly the run of its statements, wake-up included |
| WholeCalls.NextFrameIsItsStatements | addon/urmet-gateway/urmet_gateway/media/audio/bridge.py:129-143 | `next_frame` is exactly the run of its statements |
| WholeCalls.NextDownlinkIsItsStatements | addon/urmet-gateway/urmet_gateway/media/audio/bridge.py:147-160 | `next_downlink` up to its return or its await is exactly the run of its statements; the second look never finds what the first did not |
| WholeCalls.PushUplinkIsItsStatements | addon/urmet-gateway/urmet_gateway/media/audio/bridge.py:162-170 | `push_uplink` is exactly the run of its statements |
| WholeCalls.CallbacksKeep | addon/urmet-gateway/urmet_gateway/media/audio/bridge.py:100-143 | The whole callbacks stay inside what every interleaving keeps |
| WholeCalls.ReadsKeep | addon/urmet-gateway/urmet_gateway/media/audio/bridge.py:147-160 | So do a read from its start and a read resumed from its wait |
| WholeCalls.ACancelledWaitCostsOneSignal | addon/urmet-gateway/urmet_gateway/media/audio/bridge.py:147-160 | A cancelled wait leaves its flag up: the next frame queues one signal for nobody, the one after it none |
| Bridge.AudioBridge.constructor | addon/urmet-gateway/urmet_gateway/media/audio/bridge.py:73-91 | A fresh bridge is the protocol's first state, with an empty 2000-slot ring of timings |
| Bridge.AudioBridge.OnFrame | addon/urmet-gateway/urmet_gateway/media/audio/bridge.py:100-109 | Every field after a frame is what the protocol says; the callback's duration joins the history |
| Bridge.AudioBridge.Wake | addon/urmet-gateway/urmet_gateway/media/audio/bridge.py:111-127 | The flag is lowered and one handle scheduled, or one unreachable loop counted |
| Bridge.AudioBridge.NextFrame | addon/urmet-gateway/urmet_gateway/media/audio/bridge.py:129-143 | The oldest uplink frame, or nothing at once and an underrun counted |
| Bridge.AudioBridge.NextDownlink | addon/urmet-gateway/urmet_gateway/media/audio/bridge.py:147-159 | The oldest frame; else the end if closed; else asleep with the event clear and the flag up |
| Bridge.AudioBridge.Resume | addon/urmet-gateway/urmet_gateway/media/audio/bridge.py:160 | Woken, the flag goes down and the same choice is made again |
| Bridge.AudioBridge.PushUplink | addon/urmet-gateway/urmet_gateway/media/audio/bridge.py:162-170 | Newest kept, oldest dropped and counted |
| Bridge.AudioBridge.Close | addon/urmet-gateway/urmet_gateway/media/audio/bridge.py:172-175 | Closed, and whoever sleeps can wake |
| Bridge.AudioBridge.Stopped | addon/urmet-gateway/urmet_gateway/media/audio/bridge.py:187-190 | The first reason is the one kept |
| OrderStatistics.P99IsAnOrderStatistic | addon/urmet-gateway/urmet_gateway/media/audio/bridge.py:57-63 | The percentile is one of the k samples; at least floor(0.99k)+1 of them (never more than k) are not above it, and the rest are not below it |
| OrderStatistics.Sorted | addon/urmet-gateway/urmet_gateway/media/audio/bridge.py:62 | An ascending permutation of the samples |
| OrderStatistics.AscendingIsUnique | addon/urmet-gateway/urmet_gateway/media/audio/bridge.py:62 | The only one |
| OrderStatistics.MaxIsLeastBound | addon/urmet-gateway/urmet_gateway/media/audio/bridge.py:54-55 | The running maximum bounds every duration ever recorded and is one of them, or 0.0 |
| CallbackTimings.RecordKeepsPlace | addon/urmet-gateway/urmet_gateway/media/audio/bridge.py:48-53 | Writing the next slot of the ring keeps it the last `window` durations of an unbounded history, oldest first from the moving index |
| CallbackTimings.Timings.Record | addon/urmet-gateway/urmet_gateway/media/audio/bridge.py:48-55 | The fixed ring, moving index and maximum refine the history with one more duration |
| CallbackTimings.Timings.SlotsAreTheLastOnes | addon/urmet-gateway/urmet_gateway/media/audio/bridge.py:48-53 | As multisets the filled slots are the last min(n, window) durations |
| CallbackTimings.Timings.P99S | addon/urmet-gateway/urmet_gateway/media/audio/bridge.py:57-63 | What is read off the ring is the percentile of exactly those durations |
| CallbackTimings.AReadInPieces | addon/urmet-gateway/urmet_gateway/media/audio/bridge.py:57-63 | Read while the clock thread goes on recording, the percentile is still one of the last `window` durations and an order statistic of the ones copied, none of them twice |
| G711.TableAgrees | addon/urmet-gateway/urmet_gateway/media/audio/g711.py:42-58 | The 8192 entries agree with `_companded` on every 16-bit sample, every index is in range, and the saturating branch is unreachable |
| G711.SegmentHolds | addon/urmet-gateway/urmet_gateway/media/audio/g711.py:49-51 | Every 12-bit magnitude lies in one of the eight segments, between its ends |
| G711.CodeOfInterval | addon/urmet-gateway/urmet_gateway/media/audio/g711.py:49-53 | A code is what every magnitude of its interval folds to |
| G711.IntervalOfCode | addon/urmet-gateway/urmet_gateway/media/audio/g711.py:49-53 | And a magnitude lies in the interval of its own code: the two together make the fold a partition |
| G711.FoldUndoesExpand | addon/urmet-gateway/urmet_gateway/media/audio/g711.py:61-75 | Folding the expansion of G.711 section 3 (Tables 1a and 1b) gives each of the 256 bytes back |
| G711.FoldIsExact | addon/urmet-gateway/urmet_gateway/media/audio/g711.py:61-75 | For byte sequences of any length, whole or with half a sample trailing, folding the expansion returns the original bytes |
| G711.FoldError | addon/urmet-gateway/urmet_gateway/media/audio/g711.py:42-58 | Expansion after folding errs by at most half the step of the sample's segment |
| G711.FoldIsMonotone | addon/urmet-gateway/urmet_gateway/media/audio/g711.py:42-58 | Expansion after folding never reorders two samples |
| G711.ToAlaw | addon/urmet-gateway/urmet_gateway/media/audio/g711.py:61-75 | One byte per whole sample; a trailing odd byte is dropped |
| G711.ToAlawAt | addon/urmet-gateway/urmet_gateway/media/audio/g711.py:72-75 | Byte i is the fold of sample i |
| Timeline.PacketsAreTheFolds | addon/urmet-gateway/urmet_gateway/media/audio/tracks.py:67-85 | Payloads end to end are the folds of the frames end to end, none is empty, and each timestamp is the total payload before it |
| Timeline.TimestampsIncrease | addon/urmet-gateway/urmet_gateway/media/audio/tracks.py:82-84 | The RTP clock only moves forward, past the whole of the packet before |
| Timeline.PartialsAreTheOdd | addon/urmet-gateway/urmet_gateway/media/audio/tracks.py:76-85 | The partial frames counted are those that end on half a sample |
| Recutting.CutLosesNothing | addon/urmet-gateway/urmet_gateway/media/audio/tracks.py:124-128 | Frames pushed and bytes pending are all the bytes, every frame is whole, less than a frame is pending |
| Recutting.CutInPieces | addon/urmet-gateway/urmet_gateway/media/audio/tracks.py:124-128 | Cutting as bytes arrive is cutting them all at once |
| AudioTracks.DoorphoneAudioTrack.Recv | addon/urmet-gateway/urmet_gateway/media/audio/tracks.py:51-65 | One packet, an error with its reason told to the bridge, or a wait; every frame taken off the bridge is accounted for in packets and partial frames |
| AudioTracks.DoorphoneAudioTrack.Fail | addon/urmet-gateway/urmet_gateway/media/audio/tracks.py:58-63 | Anything else raised tells the bridge too, the first reason kept |
| AudioTracks.DoorphoneAudioTrack.Resume | addon/urmet-gateway/urmet_gateway/media/audio/tracks.py:67-85 | The same, from the end of a wait |
| AudioTracks.DoorphoneAudioTrack.Carry | addon/urmet-gateway/urmet_gateway/media/audio/tracks.py:71-85 | The loop skips frames without a whole sample and hands over the next packet |
| AudioTracks.DoorphoneAudioTrack.Fold | addon/urmet-gateway/urmet_gateway/media/audio/tracks.py:76-85 | One frame folded: counted partial when it carries half a sample, handed over when it carries one |
| AudioTracks.BrowserAudioPump.Take | addon/urmet-gateway/urmet_gateway/media/audio/tracks.py:109-128 | The first 2 samples bytes of the plane of a frame of the wanted PCM, or all there are, are cut behind what was pending; any other frame is refused with nothing changed |
| AudioTracks.BrowserAudioPump.PumpLosesNothing | addon/urmet-gateway/urmet_gateway/media/audio/tracks.py:96-128 | Over any number of takes: pushed plus pending is everything received |
| Stamps.StampsAreLeast | addon/urmet-gateway/urmet_gateway/media/track.py:80-91 | The stamps rise strictly, are never behind the 90 kHz arrival clock, and are the least such sequence |
| PacketFlow.StampsOfARun | addon/urmet-gateway/urmet_gateway/media/track.py:80-91 | Over every run, rebuilds included, the stamps given are that least sequence |
| PacketFlow.PacketsLeaveInOrder | addon/urmet-gateway/urmet_gateway/media/track.py:80-121 | In every interleaving of demux thread, posted callbacks and reader: what `recv` returns was submitted, leaves in submission order, with strictly increasing timestamps |
| PacketFlow.QueueIsConserved | addon/urmet-gateway/urmet_gateway/media/track.py:101-127 | The queue never exceeds its depth; enqueued = queued + dropped + taken; the first `recv` after a stop took effect on the loop never blocks and raises |
| PacketFlow.EveryPacketIsAccountedFor | addon/urmet-gateway/urmet_gateway/media/track.py:80-127 | In every run each packet stamped and each sentinel posted is on its way or returned, or was lost in one of four cases: a closed loop, a queue holding its whole depth, an ended track, a cancelled reader |
| PacketFlow.OnlyAFullQueueDrops | addon/urmet-gateway/urmet_gateway/media/track.py:101-108 | A step drops a packet if and only if it puts one in a queue that holds its whole depth, and the oldest goes |
| PacketFlow.AStopEndsTheReading | addon/urmet-gateway/urmet_gateway/media/track.py:110-127 | Once the loop has run what was posted to it after a stop, a reader still waiting finds something there, and it ends the reading |
| VideoTrack.VideoPacketTrack.Submit | addon/urmet-gateway/urmet_gateway/media/track.py:80-99 | Stamped and posted while live, ignored once stopped |
| VideoTrack.VideoPacketTrack.RunPosted | addon/urmet-gateway/urmet_gateway/media/track.py:101-108 | The oldest callback runs; a full queue loses its oldest packet, and refuses a sentinel |
| VideoTrack.VideoPacketTrack.Recv | addon/urmet-gateway/urmet_gateway/media/track.py:110-121 | Blocks exactly on an empty queue, raises exactly on a sentinel or an ended track |
| VideoTrack.VideoPacketTrack.Taken | addon/urmet-gateway/urmet_gateway/media/track.py:112-114 | What `get` hands back |
| VideoTrack.VideoPacketTrack.Hand | addon/urmet-gateway/urmet_gateway/media/track.py:119-121 | After the yield the packet is counted and returned |
| VideoTrack.VideoPacketTrack.Stop | addon/urmet-gateway/urmet_gateway/media/track.py:123-127 | Ended, with a sentinel posted while the loop is there |
| SessionTap.TapStaysShut | addon/urmet-gateway/urmet_gateway/media/session_video.py:137-187 | Once `aclose` has returned or raised, or the watchdog's task is over in any way (its reaction at its end, broken off, or dead on its first step), in any interleaving and with an open still running on the worker when they began: the tap is closed, no open is queued and nobody can submit one, for good |
| SessionTap.CutLeavesItOpenExactlyWhen | addon/urmet-gateway/urmet_gateway/usecases/sessions.py:130-137 | When a cancellation makes `aclose` leave, the worker can come to rest with the tap open if and only if it found the close of `aclose` not begun, behind an open tap or an open still to be run, with no other close that will shut it |
| SessionTap.AnOpenTapWasCut | addon/urmet-gateway/urmet_gateway/usecases/sessions.py:130-137 | In every run at whose end `aclose` is over, in whichever way, and the queue can still leave the tap open, such a cancellation came |
| QueuedTap.LeftOpenKept | addon/urmet-gateway/urmet_gateway/sip/worker.py:59-69 | Whether the queued jobs can leave the tap open: nothing but a new open, or one more job given up, turns it from no to yes |
| SessionTap.AskedKept | addon/urmet-gateway/urmet_gateway/media/picture_wait.py:87-111 | Every step keeps what the asking leaves of the tap: shut with no open queued while it sleeps on the current run, no open but its own in flight, and shut when that one was anything but fine |
| VideoSession.ArrivalIsLive | addon/urmet-gateway/urmet_gateway/media/pipeline.py:110-128 | A picture is only reported on the run the tap was opened on, still the pipeline's own and not killed |
| SessionAsking.TheAskingEndsForAReason | addon/urmet-gateway/urmet_gateway/media/picture_wait.py:87-111 | In every run, if the asking is over or no longer waits, then a picture is shown, or an open came back with no video line or an unexpected error, or somebody outside told it to stop; a refusal never ends it |
| SessionAsking.TheAskingGoesOn | addon/urmet-gateway/urmet_gateway/media/picture_wait.py:87-111 | In every run a session that waits is asleep, has its open under way, or died of an error; asleep, its next step submits an open on the living run; refused, it sleeps again and still waits |
| SessionAsking.ADeadAskingReadsWaiting | addon/urmet-gateway/urmet_gateway/media/picture_wait.py:49-52 | Waiting and no longer asking is exactly an asking that died of an error, until the watchdog fires or `aclose` begins |
| SessionAsking.EndingsTakeItDown | addon/urmet-gateway/urmet_gateway/media/session_video.py:137-187 | A reaction at its end leaves no run, a stopped track and no picture; an `aclose` that returned no run, a stopped track and no watchdog that can fire; a run that is gone was killed, by a reaction before it waits for anything; a picture given up for want of a video line leaves no run and a stopped track |
| SessionAsking.WhereACancellationGoes | addon/urmet-gateway/urmet_gateway/media/session_video.py:137-145 | A cancellation of `aclose` is swallowed while it waits for the asking, goes on to the watchdog while it waits for that, and else makes it leave, its queued close abandoned |
| VideoSession.StateOnlyMovesForward | addon/urmet-gateway/urmet_gateway/media/session.py:223-239 | After its video is armed, the reported state only moves forward along waiting, open, degraded, closed, over every run |
| VideoSession.ALostPictureNeverReturns | addon/urmet-gateway/urmet_gateway/media/session_video.py:181-187 | A picture shown and then given up is never shown again in any run, whatever state the session reports |
| VideoSession.AcloseComesBack | addon/urmet-gateway/urmet_gateway/media/session_video.py:137-145 | From the moment `aclose` begins, in any run whatever: the tasks and the worker take only boundedly many steps, two more for each call others bring to the worker, however often it is cancelled, and do not run out before it has returned, raised or gone: no deadlock between `aclose`, the asking, the reaction and the FIFO |
| VideoSession.ReactionComesBack | addon/urmet-gateway/urmet_gateway/media/session_video.py:167-187 | The stall reaction comes to its end in the same way, with or without an `aclose` beside it |
| VideoSession.OwedStepsRunOut | addon/urmet-gateway/urmet_gateway/media/session_video.py:137-187 | In every run after the asking was told to stop, owed steps taken and steps left add up to at most what was left, and two for each foreign call |
| SessionTap.AcloseRaisesExactlyWhen | addon/urmet-gateway/urmet_gateway/media/session_video.py:137-145 | Over every run it leaves early if and only if, as it begins, the asking has just died of an unexpected error and its done-callback has not run, or a cancellation reaches it while it waits for the worker or the encoder; elsewhere a cancellation is swallowed |
| SessionTap.RaisingLeavesTheRunUp | addon/urmet-gateway/urmet_gateway/media/session_video.py:137-145 | An `aclose` that raises leaves the tap shut for good and the pipeline up: the run and its encoder alive and still the pipeline's, the watchdog on it, the track open, until something stalls |
| SessionTap.AnAskingCanDie | addon/urmet-gateway/urmet_gateway/media/picture_wait.py:87-111 | The run in which the first open fails in an unexpected way |
| SessionTap.AcloseCanRaise | addon/urmet-gateway/urmet_gateway/media/picture_wait.py:113-120 | Closed before the done-callback has run, the session raises out of `aclose` with the tap shut, nothing queued and the run up |
| SessionTap.AReactionCanDie | addon/urmet-gateway/urmet_gateway/media/pipeline.py:186-195 | And if the watchdog fires then, its reaction dies with the tap shut and the run killed and not reaped |
| SessionTap.APictureCanArrive | addon/urmet-gateway/urmet_gateway/media/picture_wait.py:87-111 | The run in which the first open goes well: the picture is shown and the tap is open |
| SessionTap.AcloseCanBeCut | addon/urmet-gateway/urmet_gateway/usecases/sessions.py:130-137 | From there the session is closed, its task is cancelled at shutdown, and the queued close is dropped: the worker rests with the tap open on a closed session |
| SessionTap.TheReactionClosesExactlyWhen | addon/urmet-gateway/urmet_gateway/media/pipeline.py:186-195 | Over every run the stall reaction dies on its first step if and only if the watchdog fires on an asking that has just died; the tap is shut for good by then, and the run stays the pipeline's, killed and not reaped. Else it goes on to close the tap |
| VideoSession.StepKeeps | addon/urmet-gateway/urmet_gateway/media/session_video.py:137-187 | Every step of every task keeps the asking hushed, the arm current and every close sealed |
| TapWorker.SealingKept | addon/urmet-gateway/urmet_gateway/sip/worker.py:59-69 | Nothing but a new open, or giving the close up, stops a queued close from being the last word on the tap |
| TapWorker.NewCloseSeals | addon/urmet-gateway/urmet_gateway/sip/worker.py:59-69 | A close just submitted is behind every open |
| TapWorker.QuietKept | addon/urmet-gateway/urmet_gateway/sip/worker.py:59-69 | Nothing but a new open disturbs a closed tap with no open queued |
| VideoSession.ForwardStep | addon/urmet-gateway/urmet_gateway/media/session.py:223-239 | No single step takes the reported state back |
| SessionObjects.PictureWait.Stop | addon/urmet-gateway/urmet_gateway/media/picture_wait.py:75-85 | The flag is lowered and the task given up; says whether there is one to cancel |
| SessionObjects.SessionVideo.OpenAnswered | addon/urmet-gateway/urmet_gateway/media/picture_wait.py:95-111 | What an answer leaves: the picture kept only on the current generation, given up when no video line is offered; after a refusal the asking sleeps again, waiting as before |
| SessionObjects.SessionVideo.Stalled | addon/urmet-gateway/urmet_gateway/media/session_video.py:167-177 | The reaction stops the asking before anything else |
| SessionObjects.SessionVideo.Lose | addon/urmet-gateway/urmet_gateway/media/session_video.py:181-187 | The picture is given up |
| SessionObjects.SessionVideo.Aclose | addon/urmet-gateway/urmet_gateway/media/session_video.py:137-143 | The asking is stopped first, and waited for if it runs |
| SessionObjects.MediaSession.State | addon/urmet-gateway/urmet_gateway/media/session.py:223-239 | Closed, then a lost voice, then waiting, then a missing picture: the state the machine reports |
| SessionObjects.MediaSession.Close | addon/urmet-gateway/urmet_gateway/media/session.py:129-134 | Closed once; a second call returns at once |
| SessionObjects.MediaSession.VoiceStopped | addon/urmet-gateway/urmet_gateway/media/session.py:233-234 | A stopped voice stays stopped and never takes the state back |
| Generations.ArmAnswersForTheCurrentRun | addon/urmet-gateway/urmet_gateway/media/pipeline.py:110-128 | Over any rebuilds and stops while it crossed, `arm` answers a geometry only for the run that is still the pipeline's |
| Generations.ArmCrossesExactlyWhen | addon/urmet-gateway/urmet_gateway/media/pipeline.py:110-119 | In every run an arm crosses, on the pipeline's own run, if and only if its generation is the current one and the run has a reader; for a generation that has passed it is stale and changes nothing |
| Generations.ArmSurvivesExactlyWhenUndisturbed | addon/urmet-gateway/urmet_gateway/media/pipeline.py:110-128 | It answers one if and only if nothing was built or taken down meanwhile |
| Generations.ArmAnswersAliveExactlyWhen | addon/urmet-gateway/urmet_gateway/media/pipeline.py:110-128 | It answers one for a run still alive if and only if, besides, the plug was not pulled meanwhile |
| Generations.AStallAloneSlipsThrough | addon/urmet-gateway/urmet_gateway/media/pipeline.py:186-195 | The counter alone does not cover a stall: a killed run still answers |
| VideoPipeline.VideoDownlink.Start | addon/urmet-gateway/urmet_gateway/media/pipeline.py:102-108 | The track is created once; the generation moves |
| VideoPipeline.VideoDownlink.StartRun | addon/urmet-gateway/urmet_gateway/media/pipeline.py:150-168 | The generation moves first, and stays moved when the build fails |
| VideoPipeline.VideoDownlink.BeginArm | addon/urmet-gateway/urmet_gateway/media/pipeline.py:114-119 | Stale if and only if its generation is not the current one; else crossing on the current run if and only if something drains it |
| VideoPipeline.VideoDownlink.EndArm | addon/urmet-gateway/urmet_gateway/media/pipeline.py:120-128 | Refused, and the tap closed again, exactly when the generation moved while it crossed; else the watchdog starts its budget again |
| VideoPipeline.VideoDownlink.Kill | addon/urmet-gateway/urmet_gateway/media/pipeline.py:191-192 | The run is killed and the generation is not moved |
| VideoPipeline.VideoDownlink.TakeRun | addon/urmet-gateway/urmet_gateway/media/pipeline.py:197-204 | The run is taken down once and the generation moves with it |
| Watchdogs.SilenceIsNoticedInTime | addon/urmet-gateway/urmet_gateway/media/watchdog.py:86-110 | When nothing moves after a beat or a rearm and the looks go on, one of them fires; the first that does comes after the budget of that mark and within one poll of it, none before it, whatever marks came earlier |
| Watchdogs.AGoneEncoderFires | addon/urmet-gateway/urmet_gateway/media/watchdog.py:99-103 | A look at an encoder that is gone fires, however fresh the last mark |
| Watchdogs.Watchdog.Look | addon/urmet-gateway/urmet_gateway/media/watchdog.py:99-110 | The two fields answer for the whole history of marks; a look fires if and only if the encoder is gone or silent past its budget |
| Watchdogs.Watchdog.Beat | addon/urmet-gateway/urmet_gateway/media/watchdog.py:59-62 | A mark that moves the stream onto the tighter budget |
| Watchdogs.Watchdog.Rearm | addon/urmet-gateway/urmet_gateway/media/watchdog.py:64-68 | A mark that starts the coming-up budget again |
| CrossingModel.CallsSerialise | addon/urmet-gateway/urmet_gateway/sip/worker.py:48-82 | Calls begin in submission order, one at a time; nothing begins after `aclose` began; nothing is queued or running once it returned |
| CrossingModel.ARunningCallFinishes | addon/urmet-gateway/urmet_gateway/sip/worker.py:59-82 | A call begun runs until its own finish, through any cancellation and through `aclose`, and `aclose` returns only after it |
| CrossingModel.CallsMoveAlone | addon/urmet-gateway/urmet_gateway/sip/worker.py:48-82 | A call changes by its own start, finish, cancellation and return alone, but for the stop, which drops the queued ones |
| CrossingModel.BusyIsAwaited | addon/urmet-gateway/urmet_gateway/sip/worker.py:38-46 | `busy` if and only if some await has not come back |
| CrossingModel.BusyMissesExactlyWhen | addon/urmet-gateway/urmet_gateway/sip/worker.py:38-46 | Something is queued or running on a worker that is not busy if and only if it is one call, running, whose await was cancelled, and nobody waits for any other |
| CrossingModel.NotBusyYetRunning | addon/urmet-gateway/urmet_gateway/sip/worker.py:38-46 | A call whose await was cancelled runs on behind a worker that is not busy |
| SdkWorker.Worker.Submit | addon/urmet-gateway/urmet_gateway/sip/worker.py:59-69 | Refused once stopped, else queued behind everything |
| SdkWorker.Worker.Resume | addon/urmet-gateway/urmet_gateway/sip/worker.py:68-69 | The count goes down as an await comes back |
| SdkWorker.Worker.Cancel | addon/urmet-gateway/urmet_gateway/sip/worker.py:55-69 | A queued call is dropped, a running one runs on |
| SdkWorker.Worker.Stop | addon/urmet-gateway/urmet_gateway/sip/worker.py:71-81 | Nothing queued is kept, and every call begun or over is left as it was; idempotent |
| SdkWorker.Worker.IsBusy | addon/urmet-gateway/urmet_gateway/sip/worker.py:38-46 | The counter says whether anybody waits |
| CrossingModel.TheWorkerIsAQueue | addon/urmet-gateway/urmet_gateway/sip/worker.py:48-69 | Of the calls not over: a submission goes to the back, the call begun and the call finished is the one at the front, a cancelled call leaves only if it had not begun, and nothing else moves; the queue the session and microphone machines cross |
| BusModel.SubscribersAreServed | addon/urmet-gateway/urmet_gateway/usecases/events.py:57-132 | In every run, for every subscriber: no put overflows, the queue stays within capacity + 1, what it accepted is a contiguous stretch of what was published since it subscribed, whole unless dropped, and what it read and still holds are that stretch in order; one sentinel, after every event, stands in its queue exactly from its closing until its iteration ends |
| BusModel.OnlyAStalledReaderIsDropped | addon/urmet-gateway/urmet_gateway/usecases/events.py:64-69 | In every run a subscriber is dropped if and only if some event was fanned out to it while it was open with exactly `capacity` events unread; any other accepted every event fanned out while it was on the bus |
| BusModel.DroppedExactlyWhen | addon/urmet-gateway/urmet_gateway/usecases/events.py:124-132 | The same of one step; any other event fanned out to an open subscriber is accepted |
| BusModel.ClosedExactlyWhen | addon/urmet-gateway/urmet_gateway/usecases/events.py:71-79 | An open subscriber is closed by leaving, by the bus closing or by being overrun, and by nothing else |
| BusModel.SubscribedExactlyWhen | addon/urmet-gateway/urmet_gateway/usecases/events.py:96-102 | A subscriber comes by subscribing to an open bus, with an empty queue and nothing of what went out before |
| BusModel.EveryPublicationGoesOut | addon/urmet-gateway/urmet_gateway/usecases/events.py:104-116 | In every run what went out is each publication on the loop and each hop as it ran, in order; each publication from another thread hopped once, in its turn, or is still on its way |
| BusModel.EveryTurnYields | addon/urmet-gateway/urmet_gateway/usecases/events.py:57-62 | In every run each turn of an iteration yields one event, and the last one ends it |
| BusModel.StallsHarmNobodyElse | addon/urmet-gateway/urmet_gateway/usecases/events.py:124-132 | Taking another subscriber's every read and leave out of a run changes nothing for anybody else |
| Subscriber.DeliveredKeeps | addon/urmet-gateway/urmet_gateway/usecases/events.py:57-71 | One fan-out keeps prefix, bound and the single sentinel |
| EventStream.Subscription.Offer | addon/urmet-gateway/urmet_gateway/usecases/events.py:64-69 | Accepted, behind what is queued, if and only if it is open with fewer than `capacity` queued |
| EventStream.Subscription.Close | addon/urmet-gateway/urmet_gateway/usecases/events.py:64-71 | One sentinel, once |
| EventStream.Subscription.Next | addon/urmet-gateway/urmet_gateway/usecases/events.py:49-55 | One turn of the iteration takes the oldest slot |
| EventStream.EventBus.FanOut | addon/urmet-gateway/urmet_gateway/usecases/events.py:124-132 | Each subscriber's new state is a function of its own old state and the event |
| EventStream.EventBus.Publish | addon/urmet-gateway/urmet_gateway/usecases/events.py:100-113 | Delivered at once from the loop; from another thread one hop, lost when the loop is gone |
| EventStream.EventBus.RunHop | addon/urmet-gateway/urmet_gateway/usecases/events.py:106-107 | The oldest hop is fanned out |
| EventStream.EventBus.Subscribe | addon/urmet-gateway/urmet_gateway/usecases/events.py:92-98 | A queue of its own, or refused once closed |
| EventStream.EventBus.Close | addon/urmet-gateway/urmet_gateway/usecases/events.py:115-122 | Every subscription ends; idempotent |
| CallEntries.StreamingIsTheBook | addon/urmet-gateway/urmet_gateway/usecases/calls.py:111-113 | Exactly the dialogs with media up, in order of appearance; the last of them is the newest |
| CallEntries.ViewsAreTheBook | addon/urmet-gateway/urmet_gateway/usecases/calls.py:115-120 | One view per live dialog, each saying what the book says |
| CallEntries.RecordTurnsExactlyWhen | addon/urmet-gateway/urmet_gateway/usecases/calls.py:61-73 | A report of a known dialog changes its side if and only if the guess differs and the panel has not rung on it |
| CallEntries.Forgotten | addon/urmet-gateway/urmet_gateway/usecases/calls.py:101-104 | The entry and its ring go, and nothing else; what is left keeps its order |
| Calls.CallBook.Record | addon/urmet-gateway/urmet_gateway/usecases/calls.py:44-73 | The book and the answer after a report, a refinement or a report of a gone dialog |
| Calls.CallBook.MarkIncoming | addon/urmet-gateway/urmet_gateway/usecases/calls.py:75-80 | The ring is remembered whether or not the dialog is in the book |
| Calls.CallBook.Handle | addon/urmet-gateway/urmet_gateway/usecases/calls.py:86-99 | The handle carrying its own id, or the unknown-call error |
| Calls.CallBook.Forget | addon/urmet-gateway/urmet_gateway/usecases/calls.py:101-104 | The dialog goes, and its ring with it |
| Calls.CallBook.Clear | addon/urmet-gateway/urmet_gateway/usecases/calls.py:106-109 | Nothing is left |
| Calls.CallBook.Streaming | addon/urmet-gateway/urmet_gateway/usecases/calls.py:111-113 | The loop finds exactly those entries, in order |
| Calls.CallBook.Shown | addon/urmet-gateway/urmet_gateway/usecases/calls.py:115-120 | The loop builds one view per entry, in order |
| GatewayLaws.OnlyTheTransportSaysSo | addon/urmet-gateway/urmet_gateway/usecases/calls.py:8-13 | No resurrection: whatever commands are in flight, the ids are exactly those reported and neither ended, hung up nor cleared; no entry is over; one the panel rang on reads incoming until forgotten |
| GatewayLaws.TrueKept | addon/urmet-gateway/urmet_gateway/usecases/service.py:112-209 | Every callback, command, resumption, teardown and clear keeps that |
| GatewayLaws.AStateFollowsEveryEvent | addon/urmet-gateway/urmet_gateway/usecases/service.py:227-234 | In every run a state shows the gateway as it was when it went out, and each event that is not a state is followed at once by one holding the snapshot of the instant the event itself went out (binding, dialogs, microphone, legs), which shows what the event said |
| GatewayLaws.WhatIsPublishedIsCurrent | addon/urmet-gateway/urmet_gateway/usecases/service.py:227-234 | What a step publishes, in any run, holds the binding and the microphone as they are at its end |
| Answers.EveryEventAnswers | addon/urmet-gateway/urmet_gateway/usecases/service.py:110-234 | In every run the events that went out, states apart, are the answers to what happened, one each and in order: a ring for a ring, news of a dialog with the side it is on, an open for an open that came back, an outcome for an outcome, a leg for a leg |
| Answers.OpensAreToldAsTheyWent | addon/urmet-gateway/urmet_gateway/usecases/service.py:157-175 | In every run the opens told are those that came back, in order: acknowledged if and only if the open returned, not acknowledged if and only if the panel gave no answer, none for one that raised or was cancelled |
| Coroutines.EveryCoroutineIsAccountedFor | addon/urmet-gateway/urmet_gateway/usecases/service.py:112-225 | In every run, and of every coroutine: as often as a command, a callback or a leg set it going, it is in flight, waits for a leg to go, came back, or was lost with a teardown that was cut |
| Coroutines.TheHangUpIsMade | addon/urmet-gateway/urmet_gateway/usecases/service.py:137-149 | When a leg closed for a hang-up is torn down, exactly one hang-up is submitted, on its dialog, and is in flight with what comes after it; with any other leg none is |
| Coroutines.MonitorsGoFirst | addon/urmet-gateway/urmet_gateway/usecases/service.py:120-128 | The INVITE of `place_call` goes out if and only if no dialog left to look at is outgoing, and else the first that is one is hung up, the rest kept for later |
| Legs.LegsMoveExactlyWhen | addon/urmet-gateway/urmet_gateway/usecases/sessions.py:73-169 | From every state of every run: a leg closes if and only if it is told to by its number, or is the first leg of a dialog hung up or offered another leg, and keeps what it closes for; it leaves the book at its teardown alone; one is made if and only if an answer sets out |
| Learning.TheLastWordIsOwned | addon/urmet-gateway/urmet_gateway/usecases/service.py:151-155 | In every run the microphone is what the last mute to return said, and muted before any did; the port's answers are its latest |
| Learning.ACallThatReturnedSharpens | addon/urmet-gateway/urmet_gateway/usecases/service.py:112-135 | A call placed or answered that returned leaves its entry, if there, streaming with its handle and on the right side, a ring outranking it; nothing else changes, and the state is published |
| GatewayLaws.StepGrows | addon/urmet-gateway/urmet_gateway/usecases/service.py:187-234 | Every step adds a whole block to the log, ending on a state, or nothing |
| GatewayLaws.LegsAgree | addon/urmet-gateway/urmet_gateway/usecases/sessions.py:202-212 | What is said of a leg is what the snapshot beside it shows of that leg |
| Reaping.OnlyOrphanedMonitorsAreReaped | addon/urmet-gateway/urmet_gateway/usecases/sessions.py:154-169 | Every hang-up the grace reaper submits hits a dialog that at that instant is outgoing, streams, has no leg in the book and was never rung by the panel, over any number of overlapping reap tasks |
| Reaping.GuessedOursExactlyWhileInviting | addon/urmet-gateway/urmet_gateway/usecases/service.py:213-225 | However commands end, a dialog first seen is guessed ours if and only if an INVITE of ours is in flight |
| LastView.StaysUpToDateExactlyWhen | addon/urmet-gateway/urmet_gateway/usecases/service.py:198-209 | A step leaves the dialogs and microphone last published behind if and only if a repeated report turns a dialog to the other side |
| LastView.UpToDateThrough | addon/urmet-gateway/urmet_gateway/usecases/service.py:187-234 | With no such report, they are those the gateway holds at every step of every run |
| LastView.ADialogCanTurnUnseen | addon/urmet-gateway/urmet_gateway/usecases/service.py:200-202 | One such run: a door opened on demand while an inbound dialog repeats its state |
| OneLeg.OneLegPerCallExactlyWhen | addon/urmet-gateway/urmet_gateway/usecases/sessions.py:73-100 | One leg per dialog is kept by every step except an offer on a dialog whose leg is already closing, and by none of those |
| OneLeg.OverlappingOffersMakeTwo | addon/urmet-gateway/urmet_gateway/usecases/sessions.py:83-92 | Three overlapping offers end with two live legs on one dialog |
| OneLeg.TheLegGoesFirst | addon/urmet-gateway/urmet_gateway/usecases/service.py:137-149 | In every run with no such offer, a hang-up is submitted with the dialog's leg gone from the book, its taps released, if and only if no leg on it was already closing as the hang-up was asked for |
| OneLeg.AClosingLegIsNotWaitedFor | addon/urmet-gateway/urmet_gateway/usecases/sessions.py:108-116 | A leg already closing is not waited for: the hang-up goes out over it |
| Audience.ASubscriberEndsOnAState | addon/urmet-gateway/urmet_gateway/usecases/events.py:57-132 | Between steps an undropped subscriber that was given anything was last given a state; one that has read all it was given has seen the newest there is |
| Audience.PublishFeeds | addon/urmet-gateway/urmet_gateway/usecases/events.py:100-132 | Publishing a block feeds each subscriber that block and nothing else |
| Service.MediaSessions.For | addon/urmet-gateway/urmet_gateway/usecases/sessions.py:199-200 | The first leg on a dialog, in the order made |
| Service.MediaSessions.PickCall | addon/urmet-gateway/urmet_gateway/usecases/sessions.py:176-197 | The dialog named if it streams, or the newest streaming: none after it is; and each error exactly for its input, beginning with no media tap |
| Service.MediaSessions.OrphanedMonitor | addon/urmet-gateway/urmet_gateway/usecases/sessions.py:154-163 | No leg left, outgoing and streaming |
| Service.MediaSessions.Close | addon/urmet-gateway/urmet_gateway/media/session.py:129-135 | A leg begins to close once |
| Service.DoorphoneService.StateNow | addon/urmet-gateway/urmet_gateway/usecases/state.py:34-43 | The snapshot: binding, dialogs, microphone, legs |
| Service.DoorphoneService.Publish | addon/urmet-gateway/urmet_gateway/usecases/service.py:227-230 | The event and then the state |
| Service.DoorphoneService.RegistrationOutcome | addon/urmet-gateway/urmet_gateway/sip/publisher.py:33-43 | The outcome and then the state; no word on a release reads as released |
| Service.DoorphoneService.RingArrived | addon/urmet-gateway/urmet_gateway/usecases/service.py:187-196 | The fields after a ring are the machine's step |
| Service.DoorphoneService.CallStateArrived | addon/urmet-gateway/urmet_gateway/usecases/service.py:198-209 | The fields after a report, a repeated one or a terminal one are the machine's step |
| Service.DoorphoneService.HangUpCall | addon/urmet-gateway/urmet_gateway/usecases/service.py:137-146 | The leg is closed first, or the hang-up goes out at once |
| Service.DoorphoneService.HangupReturned | addon/urmet-gateway/urmet_gateway/usecases/service.py:147-149 | Forgotten, published, and whoever waited goes on |
| Service.DoorphoneService.HangupMonitors | addon/urmet-gateway/urmet_gateway/usecases/service.py:120-128 | The loop drops the next monitor still in the book, or places the call |
| Service.DoorphoneService.PlaceACall | addon/urmet-gateway/urmet_gateway/usecases/service.py:112-118 | It begins with the monitors streaming at that instant |
| Service.DoorphoneService.Invited | addon/urmet-gateway/urmet_gateway/usecases/service.py:213-218 | The count goes down however it ended; a returned call only sharpens the book |
| Service.DoorphoneService.AnswerCall | addon/urmet-gateway/urmet_gateway/usecases/service.py:130-133 | The handle to answer, or the unknown-call error |
| Service.DoorphoneService.Answered | addon/urmet-gateway/urmet_gateway/usecases/service.py:134-135 | An answered call only sharpens the book |
| Service.DoorphoneService.RealignMic | addon/urmet-gateway/urmet_gateway/usecases/service.py:87-94 | What is submitted is the owned state |
| Service.DoorphoneService.MicSet | addon/urmet-gateway/urmet_gateway/usecases/service.py:151-155 | Owned only once the client was told |
| Service.DoorphoneService.OpenDoor | addon/urmet-gateway/urmet_gateway/usecases/service.py:157-171 | Inside the oldest streaming dialog if there is one, else by a call of its own, counted |
| Service.DoorphoneService.OpenedOnDemand | addon/urmet-gateway/urmet_gateway/usecases/service.py:172-175 | Published acknowledged if it returned, not acknowledged if the panel was silent, and not at all if it raised or was cancelled; the count goes down in each case |
| Service.DoorphoneService.OfferLeg | addon/urmet-gateway/urmet_gateway/usecases/sessions.py:73-92 | Refused with no tap, no such dialog or no media; else the leg on the dialog is replaced, or one is made at once |
| Service.DoorphoneService.CloseSession | addon/urmet-gateway/urmet_gateway/usecases/sessions.py:102-106 | A leg there and not closing begins to close; any other request changes nothing |
| Service.DoorphoneService.LegMoved | addon/urmet-gateway/urmet_gateway/usecases/sessions.py:171-174 | A picture that arrived or went is told, and then the state |
| Service.DoorphoneService.LegAnswered | addon/urmet-gateway/urmet_gateway/usecases/sessions.py:93-100 | Told when answered, closed when the offer could not be answered |
| Service.DoorphoneService.OpenedDuring | addon/urmet-gateway/urmet_gateway/usecases/service.py:166-175 | Published acknowledged if it returned, not acknowledged if the panel was silent, and not at all if it raised or was cancelled |
| Service.DoorphoneService.LegTornDown | addon/urmet-gateway/urmet_gateway/usecases/sessions.py:139-152 | The leg leaves, the world is told, an orphaned monitor gets its grace, and whoever waited goes on: a hang-up that waited is submitted, once |
| Service.DoorphoneService.GraceOver | addon/urmet-gateway/urmet_gateway/usecases/sessions.py:165-169 | Reaped exactly when still an orphaned monitor |
| Service.DoorphoneService.ClearAll | addon/urmet-gateway/urmet_gateway/runtime.py:55-56 | Nothing is left, and the last state says so |
| SupervisionLaws.OneLiveClient | addon/urmet-gateway/urmet_gateway/sip/supervision.py:128-187 | At most one built client has not had `stop` begun on it; each is handed over once, in order; the holder names the supervisor's client from the loop's first step until `stop` |
| SupervisionLaws.OutcomesComeInBlocks | addon/urmet-gateway/urmet_gateway/sip/supervision.py:150-239 | Outcomes are whole blocks (up any number of times, down, released), the beginning of one more, then the one release of `stop` |
| SupervisionLaws.OutcomesAreTheAnswers | addon/urmet-gateway/urmet_gateway/sip/supervision.py:150-239 | In every run the outcomes are the answers to what came back, one each and in order: up for a REGISTER taken or a refresh the client confirms, down for any other, a release with what the registrar gave; and the last one says where an uncancelled loop stands, held after an up, releasing after a down |
| SupervisionLaws.TheLoopGoesOn | addon/urmet-gateway/urmet_gateway/sip/supervision.py:150-216 | A loop not told to stop goes from the hook to holding, from each hold to a refresh, from a confirmed refresh back, from a release to one more sleep, and from a sleep that ends on an idle worker to a REGISTER of a client nobody was handed before |
| SupervisionLaws.LawfulExactlyWhenBegun | addon/urmet-gateway/urmet_gateway/sip/supervision.py:156-187 | A sequence is made of such blocks if and only if it has a release right after every loss and nowhere else |
| SupervisionLaws.WaitsFollowTheLosses | addon/urmet-gateway/urmet_gateway/sip/supervision.py:205-239 | The k-th loss since the binding was last up waits entry k of 5, 10, 20, 40, 60, the last repeating, the same again while the worker is busy |
| SupervisionLaws.StopLeavesNothingLive | addon/urmet-gateway/urmet_gateway/sip/supervision.py:128-146 | A `stop` that returned has left a client live if and only if the loop never took the first one, and has published its release if and only if it did |
| SupervisionLaws.DeathLeavesLiveExactlyWhen | addon/urmet-gateway/urmet_gateway/sip/supervision.py:150-187 | The resumption that kills the loop leaves its client live if and only if it stood in the hook or awaited a `client.stop` not begun; after a release broken in the middle, or a client not built, none is live |
| SupervisionLaws.ADeadLoopsClientStays | addon/urmet-gateway/urmet_gateway/sip/supervision.py:128-146 | Whatever follows the death of the loop, `stop` included, the client it left live stays live |
| SupervisionLaws.ABrokenReleaseLeavesLive | addon/urmet-gateway/urmet_gateway/sip/supervision.py:218-228 | A last release that breaks leaves live what was live, at most the client it was for, and nothing when the worker had begun it |
| SupervisionLaws.LivingKept | addon/urmet-gateway/urmet_gateway/sip/supervision.py:128-239 | Every step keeps live at most the client the loop stands on, from its build to the moment its `stop` begins |
| SupervisionLaws.StopRaisesExactlyWhen | addon/urmet-gateway/urmet_gateway/sip/supervision.py:128-146 | Over every run: when `stop` has come to its end it raised if and only if the loop had died or its own `client.stop` broke, and published its release if and only if neither happened and the loop had taken a client |
| SupervisionLaws.TheLoopDiesExactlyWhen | addon/urmet-gateway/urmet_gateway/sip/supervision.py:150-187 | The loop dies if and only if, not cancelled, the hook after a REGISTER does not return, a release breaks, or a client to retry with is not built |
| SupervisionLaws.ADeadLoopIsNeverReleased | addon/urmet-gateway/urmet_gateway/sip/supervision.py:138-146 | Once the loop has died nothing is ever published or built again, the last release included |
| SupervisionLaws.AHookThatRaisesLeaksTheBinding | addon/urmet-gateway/urmet_gateway/sip/supervision.py:171-177 | One run of the first kind: the hook after the first REGISTER raises |
| SupervisionLaws.ALastStopThatBreaksIsNotPublished | addon/urmet-gateway/urmet_gateway/sip/supervision.py:218-228 | One of the second: the loop ended well and the last `client.stop` breaks |
| SupervisionLaws.NothingFollows | addon/urmet-gateway/urmet_gateway/sip/supervision.py:128-146 | After `stop` and the loop have ended, nothing is published or built |
| Holder.RebuildingFactory.constructor | addon/urmet-gateway/urmet_gateway/sip/holder.py:21-30 | The first client is built and held at once |
| Holder.RebuildingFactory.Make | addon/urmet-gateway/urmet_gateway/sip/holder.py:32-37 | That one once, then a fresh one each time, which the holder names |
| Supervision.RegistrationSupervisor.Resolve | addon/urmet-gateway/urmet_gateway/sip/holder.py:50-54 | What a command reaches through the holder: never nothing, always the newest client built, the supervisor's own whenever it has one, and the only one that can be live |
| Supervision.RegistrationSupervisor.Begin | addon/urmet-gateway/urmet_gateway/sip/supervision.py:150-157 | The loop's first step |
| Supervision.RegistrationSupervisor.StartReturned | addon/urmet-gateway/urmet_gateway/sip/supervision.py:156-172 | Up, the backoff reset and on to the hook, if and only if the REGISTER was taken; else down and on to the release |
| Supervision.RegistrationSupervisor.Refreshed | addon/urmet-gateway/urmet_gateway/sip/supervision.py:189-203 | Held only when the refresh returned and the client says so too |
| Supervision.RegistrationSupervisor.Released | addon/urmet-gateway/urmet_gateway/sip/supervision.py:205-228 | Whether the registrar took it, and the delay that follows |
| Supervision.RegistrationSupervisor.Waited | addon/urmet-gateway/urmet_gateway/sip/supervision.py:205-216 | The same again while busy, else one step further and try again |
| Supervision.RegistrationSupervisor.Stop | addon/urmet-gateway/urmet_gateway/sip/supervision.py:128-140 | Stopped once; says whether there is a loop to cancel |
| Supervision.RegistrationSupervisor.Joined | addon/urmet-gateway/urmet_gateway/sip/supervision.py:141-146 | The client is taken back, or what killed the loop is raised |
| Supervision.RegistrationSupervisor.LetGo | addon/urmet-gateway/urmet_gateway/sip/supervision.py:218-228 | The last release |
| Microphone.HeldClientsAreAligned | addon/urmet-gateway/urmet_gateway/usecases/service.py:87-94 | Over every interleaving of mutes, rebuilds, realigns and cancellations: while the supervisor holds, its client's mute is what the last mute that took on it said; with nothing run still unheard it equals the owned state if and only if the last mute that took on this client and the last one heard on it said the same, so always when that last one was heard |
| Microphone.AlignedUnlessCut | addon/urmet-gateway/urmet_gateway/usecases/service.py:87-94 | In every run in which no await is cancelled on a mute already begun, dropped mutes, lost bindings and fresh clients included: a held client's mute equals the owned state once nothing run is still unheard |
| Microphone.StepKeeps | addon/urmet-gateway/urmet_gateway/usecases/service.py:151-155 | Every step, each kind of cancellation included, keeps owned state and client tied to the mutes run so far |
| Microphone.SinceRealigned | addon/urmet-gateway/urmet_gateway/usecases/service.py:87-94 | After a realign that took and was heard, with nothing since but on its client, what the service owns is what the last mute heard on that client said |
| Microphone.QuietIsReached | addon/urmet-gateway/urmet_gateway/sip/supervision.py:171-177 | The first connect reaches the aligned, muted state |
| Microphone.ACancelledMuteParts | addon/urmet-gateway/urmet_gateway/sip/worker.py:55-58 | A mute cancelled after the worker began it parts the client from its owner |
| Microphone.AHeardMuteJoins | addon/urmet-gateway/urmet_gateway/usecases/service.py:151-155 | The next one heard brings them together, on the same client |
| Microphone.ARealignKeepsWhatWasOwned | addon/urmet-gateway/urmet_gateway/usecases/service.py:87-94 | From every state of every run: a connect queues one mute, for the client it connected, saying what is owned; whatever is asked, cancelled or heard meanwhile, the binding is held if and only if that mute took and was heard, the owned state is then what it was at the connect, and else the loop is over |
| Microphone.ThePhaseMovesExactlyWhen | addon/urmet-gateway/urmet_gateway/sip/supervision.py:171-187 | A binding is held from the realign that was heard to its loss; a realign dropped or failed ends the loop |

## Left out

Assumptions, each a promise of something the model does not see:

- `on_connected` and the `publish` hook: `publish` returns normally. `on_connected` may raise, and that is modelled.
- `close_video`, `close_video_tap` and the encoder's own `stop` never raise.
- Nobody cancels the supervisor's `stop`, nor the asking or the watchdog but through `PictureWait.stop` and `Watchdog.aclose`.
- `Watchdog._look` is one step against `beat`, and the clock it reads never goes back between the two.
- One clock thread, one reader of the downlink and one submitting demux thread at a time. `AudioBridge.close` is one step, as everything else the loop runs without an await.
- asyncio and `concurrent.futures` do what their documentation says: posted callbacks run in order, a cancelled task sees its cancellation at its next step, one worker thread takes jobs in order, a job not yet begun is dropped when its future is cancelled.
- Microphone.HeldClientsAreAligned: a client comes up with the near end open, a mute that raises had no effect, and a realign that raises or is cancelled ends the loop.
- A TrackedCall kept by `place_call` while it drops monitors is read through the book, so an id given to a second dialog within one `place_call` is read as the second one.
- The SDK's `CallState` is not part of this repository: a state is early, streaming or over, which is all the gateway asks of one.

Not modelled:

- Watchdogs.Watchdog.Look: the asyncio task that polls, which `VideoSession` has as one firing; `SilenceIsNoticedInTime` takes the poll interval as the most that lies between two looks.
- The instants, reasons and log lines of events, and the packet and frame counters of a session view.
- Floating point: durations and elapsed times are exact reals and 0.99 is 99/100.
- The host's byte order: samples are taken as little-endian where the source takes the host's own order.
- The length of the grace: a reap may come back at any time, so nothing is said of five seconds.
- The whole of `MediaSession.answer` (codec pinning, offer and answer): an offer is answered, fails or is cancelled.
- The order of `MediaSession.aclose` around the video (uplink, audio tap, peer connection): foreign calls with nothing between them to prove.
- ffmpeg, named pipes, PyAV, aiortc, aiohttp, pjsua2, and the Home Assistant integration.
- SIP itself: a REGISTER, its refresh and its removal (sections 10.2.4 and 10.2.2 of RFC 3261) are a client's `start` and `stop`, which return or raise.
- `GatewayRuntime.shutdown` as one coroutine: its steps are in the machines, closing the legs, stopping the supervisor, clearing the calls, closing the bus, stopping the worker.
