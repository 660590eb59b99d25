# Verified models of the UDP file transfer and of BBR

The project models two parts of the repository in Dafny and proves properties of them.

**The reliable file transfer** (`protocol/file_udp.cpp`). A sender cuts a file into packets of 1464 bytes and
a receiver writes them out in blocks of 2048; the network between them may lose, repeat, delay and reorder
datagrams, and lose ACKs.

- `AckTable` reads an ACK (a mark and at most 16 NAKs) as a set of received packets; `DatagramAcks` is the
  record itself, with its 16 slots updated in place.
- `FileRing` is the ring of 4096 cells over a flat memory, with the byte arithmetic of `fread` and `fwrite`;
  `Windows` is the class.
- `Receivers` and `Senders` hold, for each endpoint, a state with one function per step of its loop, and the class
  whose methods do the same in place and are proved equal to those functions.
- `Protocol` joins both with the network into one state machine: a run is a sequence of events, `Leads` says that a
  run leads from one state to another, and `Reachable` that some run leads there from the start. A datagram on the wire
  may be delivered at any time, in any order and more than once, or be lost for good; the sender may read any reply from
  a cursor on, which moves on when a reply is read or the oldest one is lost, so replies are lost and repeated but not
  reordered.
- `Invariant` proves what every step keeps, `Wires` what each of the sender's steps puts on the wire, `Safety`, `LostQueue`, `Capacity`, `Liveness`, `Completion` and `WriteOut`
  draw the conclusions, `Scenarios` builds reachable states step by step, and `Capacity`, `Completion` and `QueueOrder`
  use them to show that bounds are reached and orders broken.

A failed assertion of the window is a state of its own (`Failed`, `Aborted`) in the step functions, and the theorem is
that it is never reached; the methods of the classes `require` what the assertion demands. The alignment that
`raw_ptr` asserts is part of the endpoints' own invariants, `SndOk` and `RcvOk`, which every step function returns.

**BBR** (`reference/tcp_bbr.c`), a reference copy in the repository. `Bbr` holds the state and the functions on
unbounded numbers, with the 32- and 64-bit wrap-around of the source written out where it can happen (`U32`, `U64`,
`S32`); `BbrSocks` is the structure updated in place, with fields of 3, 7, 10 and 32 bits, each method proved equal to
its function: no store is cut short, because the invariant `Good` bounds every counter.

- `BbrRuns` proves the mode machine, the gains and the long-term sampler over all runs of ACKs, transmit starts, loss
  recovery, RTOs and changes by the TCP core.
- `BbrCalls`, `BbrMinRtt`, `BbrCwnd` and `BbrPacing` say what one call makes of the state before it: the model of the path
  and the mode, the minimum round-trip time (also over runs), the congestion window and the pacing rate; `BbrWindow`
  bounds what one ACK may do.
- `BbrFullPipe` and `BbrIntervals` say what a run must contain before the pipe is taken to be full and before BBR
  believes that it is policed, `BbrRounds` that packet-timed rounds do not overlap.
- `BbrProbeRtt` follows a whole PROBE_RTT episode and the windows that it and loss recovery give back, `BbrSaves` what a
  second save does to them.
- `BbrLongTerm` says when two rates pass for the same, `BbrPolicer` shows a run that takes up a wrong one, and `BbrArith`
  bounds the fixed-point arithmetic.

Findings, each with its exact condition:

- The receiver flushes at most one block per accepted packet (an `if`, not a loop). If the last block holds 1 to 19
  packets, a run exists in which the receiver holds every packet and the sender has nothing left to say, yet the tail is
  never written. `Completion.CompletionIff` proves that this is possible exactly for such files, `WriteOut.WritableIff`
  from which states it can still be avoided: exactly as long as a packet of the last block is missing.
- The receiver's closing loop ends after 500 ms without data. If the replies to the last packets are lost until then,
  the file is written whole and the sender times out for ever: such a run exists for every file
  (`Completion.SenderStranded`). `Liveness.CanReturnIff` gives the exact states from which the sender can still return.
- The order of the lost queue that the scan's early exit relies on breaks after one timeout and one reply: a due packet
  then waits behind one that is not due, and is queued twice (`QueueOrder.OneTimeoutDisorders`). In files of 2^32 - 4
  packets or more a trigger wraps and it breaks without a timeout (`QueueOrder.TriggerWraps`). `QueueOrder.OrderIff`
  proves that it holds in all runs with at most n timeouts exactly when n is 0 and the file is smaller than that.
  Retransmission does not depend on it: a timeout pass sends exactly what is unacknowledged
  (`Safety.TimeoutResendsUnacked`) and sorts the queue again (`LostQueue.PassSorts`).
- The window saved by PROBE_RTT does not come back when growing it wraps at 2^32 (`BbrWindow.EpisodeLosesWindow`;
  `BbrProbeRtt.CallRestores` has the exact condition), or when the call that leaves the mode acks nothing and loss
  recovery starts before one does: a new connection with a window of 100 can come out with at most 5
  (`BbrSaves.EpisodeForgetsWindow`). Exactly such saves shrink the saved window (`BbrProbeRtt.SavedFallsIff`); without one
  the window comes back unless the sum wraps (`BbrProbeRtt.EpisodeRestores`), with one it stays under a bound that does
  not depend on it (`BbrSaves.EpisodeForgets`).
- The test for two consistent long-term rates wraps: a rate of 0 passes for the same as 2^24 (12 Gbit/s), and any new
  connection can be led to take up half of that as its bandwidth while the path stands still
  (`BbrPolicer.StandstillTaken`). The test is right for all pairs of rates up to a bound exactly when the bound is below
  2^24 (`BbrLongTerm.ConsistencyIff`).

Lemmas that require `Inv` hold in every reachable state by `Invariant.ReachableInv`, those that require `Good` in every
state of a run from a new connection by `BbrRuns.InitGood` and `BbrRuns.RunKeeps`.

## Model

| member | source | states |
|---|---|---|
| AckTable.UpdateExact | protocol/file_udp.cpp:99-146 | `update` returns true exactly when the packet is new and the enlarged received set can be written with 16 NAKs; then the set gains that packet only, otherwise no field changes |
| AckTable.AcceptedIffHolesFit | protocol/file_udp.cpp:112-132 | a packet is accepted exactly when it is new and at most 16 packets below it are missing |
| AckTable.HistoryIndependent | protocol/file_udp.cpp:84-147 | after any calls the mark is one past the largest accepted packet, the NAKs are the holes in increasing order, and histories accepting the same set end in the same record |
| AckTable.CanonicalUnique | protocol/file_udp.cpp:80-83 | the record is determined by the set it stands for |
| AckTable.BottomIsLeastMissing | protocol/file_udp.cpp:84 | `bottom_ack` is the least packet not received |
| DatagramAcks.DatagramAck.Update | protocol/file_udp.cpp:99-146 | the in-place update of mark and slots computes the update of the set representation, refusals included |
| DatagramAcks.DatagramAck.OpenHoles | protocol/file_udp.cpp:112-132 | the branch above the mark opens all the holes or none, although it tests in every round |
| DatagramAcks.DatagramAck.FillHole | protocol/file_udp.cpp:133-145 | the branch below the mark removes exactly the found NAK and shifts the rest |
| DatagramAcks.DatagramAck.IsAcked | protocol/file_udp.cpp:90-98 | membership in the received set |
| DatagramAcks.DatagramAck.BottomAck | protocol/file_udp.cpp:84 | the first slot or the mark is the least missing packet |
| DatagramAcks.DatagramAck.constructor | protocol/file_udp.cpp:85-89 | a new record stands for the empty set |
| FileRing.FirstFill | protocol/file_udp.cpp:262-268 | the first read fills both halves of the ring with the first 4096 packets |
| FileRing.Refill | protocol/file_udp.cpp:364-371 | a block read over the lower half makes the ring hold the next window of the file, the short last packet included |
| FileRing.BlockIsFile | protocol/file_udp.cpp:217-220 | when every cell of the block holds its packet, the written bytes are that stretch of the file |
| FileRing.StoreCellFacts | protocol/file_udp.cpp:158-166 | storing a cell changes the cells with the same slot and no other |
| Windows.Window.Store | protocol/file_udp.cpp:158-166 | copying a packet into the flat memory is the store of its cell |
| Windows.Window.Load | protocol/file_udp.cpp:158-166 | reads the cell of a packet in the window |
| Windows.Window.ReadFrom | protocol/file_udp.cpp:173-176 | `fread` through `raw_ptr` overlays the file's next bytes and nothing else |
| Windows.Window.WriteTo | protocol/file_udp.cpp:173-176 | `fwrite` through `raw_ptr` yields the contiguous bytes of the block |
| Receivers.Receiver.constructor | protocol/file_udp.cpp:188-196 | the initial state of the receiver, with its uncapped first edge |
| Receivers.Receiver.Receive | protocol/file_udp.cpp:213-237 | one round of the main loop is the step function: accept or refuse, store, flush at most one block, reply |
| Receivers.Receiver.FlushBlock | protocol/file_udp.cpp:217-230 | writes the block, moves both edges, leaves the loop when the window is empty |
| Senders.Sender.constructor | protocol/file_udp.cpp:260-280 | the initial state of the sender with two blocks read |
| Senders.Sender.ScanLost | protocol/file_udp.cpp:282-321 | the scan and the timeout pass send, in order, exactly the indices of the step function and leave its queue |
| Wires.ScanPutsOut | protocol/file_udp.cpp:285-308 | without a timeout a scan puts on the wire exactly the packets of the due entries at the front of the queue that are not acknowledged, and queues exactly those again |
| Wires.ScanClosedForm | protocol/file_udp.cpp:285-308 | the counted loop with its early exit, in closed form: the due prefix is taken, its unacknowledged entries are resent in order and queued behind |
| Wires.OrderedScanSendsOnce | protocol/file_udp.cpp:285-308 | in an ordered queue these are all due unacknowledged packets, each once |
| Wires.PassPutsOut | protocol/file_udp.cpp:285-339 | a timeout and its pass put on the wire exactly what is sent and not acknowledged |
| Wires.AckPutsOut | protocol/file_udp.cpp:346-359 | reading a reply puts on the wire exactly its NAKs at or above the old mark |
| Wires.SendPutsOut | protocol/file_udp.cpp:379-384 | the main step puts on the wire the next packet and nothing else |
| Senders.Sender.DrainQueue | protocol/file_udp.cpp:285-308 | the counted loop over the queue with its early exit is the recursive scan |
| Senders.Sender.ResendOutstanding | protocol/file_udp.cpp:310-320 | after a timeout everything from the mark to the last packet sent goes out again and is queued |
| Senders.Sender.IsBlocked | protocol/file_udp.cpp:324-326 | the sender waits when the soft or the hard window or the file is exhausted |
| Senders.Sender.Advance | protocol/file_udp.cpp:379-384 | the next packet is sent from the ring |
| Senders.Sender.Timeout | protocol/file_udp.cpp:330-340 | a timeout only sets the flag |
| Senders.Sender.Acknowledge | protocol/file_udp.cpp:341-377 | an ACK resends new NAKs, replaces the record, refills a block, returns when complete |
| Senders.Sender.FastResend | protocol/file_udp.cpp:346-359 | NAKs at or above the old mark are resent and queued when the mark jumps by two; the difference and the trigger are 32-bit |
| Senders.Sender.ReadBlock | protocol/file_udp.cpp:364-371 | one block is read and both edges move |
| Invariant.NewHolesQueued | protocol/file_udp.cpp:346-361 | every NAK of an accepted reply is queued afterwards, although only those at or above the old mark are enqueued and only on a jump of two or more |
| Invariant.ScanQueueFacts | protocol/file_udp.cpp:285-308 | the scan resends only unacknowledged packets and never drops one from the queue |
| Invariant.AckKeeps | protocol/file_udp.cpp:341-377 | an ACK keeps the joint invariant of sender, receiver and network |
| Invariant.DataKeeps | protocol/file_udp.cpp:213-237 | a datagram keeps the joint invariant |
| Invariant.RunKeeps | protocol/file_udp.cpp:185-386 | the joint invariant holds after every run |
| Safety.WrittenIsFile | protocol/file_udp.cpp:185-253 | in every reachable state the written bytes are the file's first min(length, base * 1464) bytes, and the whole file once the main loop is left |
| Safety.DatagramsCarryFile | protocol/file_udp.cpp:301-305 | every datagram ever sent with index i carries packet i of the file |
| Safety.WindowsAreSafe | protocol/file_udp.cpp:158-176 | from every reachable state no step fails an assertion of the window, no accepted and unwritten cell is overwritten, and every unacknowledged packet stays in the sender's ring |
| Safety.SenderViewIsSound | protocol/file_udp.cpp:361-375 | the sender's record is part of the receiver's, and when the sender returns the receiver holds every packet |
| Safety.ViewsGrow | protocol/file_udp.cpp:341-361 | along every run both records and the written prefix only grow |
| Safety.TimeoutResendsUnacked | protocol/file_udp.cpp:285-320 | a timeout pass sends exactly the packets sent before and not acknowledged |
| Safety.HolesAreQueued | protocol/file_udp.cpp:346-361 | in every reachable state each NAK of the last reply is in the lost queue |
| Safety.HolesInFlight | protocol/file_udp.cpp:57-59 | at most 18 packets below any sent packet are missing at the receiver; with at most 2 NAKs in the sender's last reply nothing new is refused |
| Capacity.RefusalIff | protocol/file_udp.cpp:112-121 | with h NAKs in the sender's last reply a new packet can be refused in some reachable state exactly when h is 3 to 16 |
| Capacity.EighteenHoles | protocol/file_udp.cpp:57-59 | the bound of 18 holes is reached |
| LostQueue.QueueIsOrdered | protocol/file_udp.cpp:285-308 | in runs without timeouts all entries lie below the mark; unless a trigger wraps, the queue is sorted by trigger and free of repetition, and after each scan every entry waits for a later mark |
| LostQueue.ScanKeepsOrder | protocol/file_udp.cpp:289-306 | the early exit of the scan misses no due entry |
| LostQueue.PassSorts | protocol/file_udp.cpp:285-320 | whatever the order was, a timeout pass leaves the queue sorted by trigger |
| LostQueue.TwoPassesRepeat | protocol/file_udp.cpp:310-320 | two timeout passes in a row leave a packet in the queue twice |
| QueueOrder.OneTimeoutDisorders | protocol/file_udp.cpp:285-358 | for every file a run with one timeout reaches a scanned queue that is unsorted, repeats a packet and hides a due entry behind one that is not due |
| QueueOrder.TriggerWraps | protocol/file_udp.cpp:306 | for every file of 2^32 - 4 packets or more a run without timeouts reaches a scanned queue with a due entry, since its trigger wrapped |
| QueueOrder.OrderIff | protocol/file_udp.cpp:285-358 | the order holds in all states reached with at most n timeouts exactly when n is 0 and the file has fewer than 2^32 - 4 packets |
| Liveness.PassCatchesUp | protocol/file_udp.cpp:285-339 | after one timeout pass whose datagrams all arrive the receiver holds every packet sent so far without a hole, whatever it held or refused before |
| Liveness.RoundAdvances | protocol/file_udp.cpp:285-378 | if also its last reply arrives, the sender knows all it sent and sends up to 15 packets more, or returns |
| Liveness.RoundsFinish | protocol/file_udp.cpp:281-378 | one loss-free round and one more for each 15 packets left finish the sender |
| Liveness.CanReturnIff | protocol/file_udp.cpp:240-252 | in a reachable state the sender can still return exactly when it has returned, the receiver still answers, or a complete reply is in flight and not lost |
| Completion.OneEdgePerPacket | protocol/file_udp.cpp:216-231 | if the last block is full or holds at least 20 packets, the least missing packet is always before the write edge, and holding all packets means having written the file |
| Completion.TailStalls | protocol/file_udp.cpp:217-231 | otherwise a reachable state holds every packet and has not written the last block |
| Completion.StalledForever | protocol/file_udp.cpp:214-237 | from there no run ever writes it |
| Completion.CompletionIff | protocol/file_udp.cpp:196-231 | in all reachable states holding every packet implies having written the file, exactly when the last block is full or holds at least 20 packets |
| Completion.TransferCompletes | protocol/file_udp.cpp:185-386 | for such files the transfer can be completed from every reachable state in which the receiver still answers, whatever the network has lost |
| Completion.SenderStranded | protocol/file_udp.cpp:240-252 | for every file a run writes it whole and leaves the sender in a state from which no run lets it return |
| WriteOut.WritableIff | protocol/file_udp.cpp:213-231 | in a reachable state, whatever has been lost, the whole file can still be written exactly when the receiver has left its loop, or the last block fits, or the receiver lacks a packet of the last block |
| BbrSocks.BbrSock.constructor | reference/tcp_bbr.c:801-833 | the initial state, in fields of the widths of `struct bbr` |
| BbrSocks.BbrSock.OnAcked | reference/tcp_bbr.c:789-799 | `bbr_main` on the structure with its field widths is the function on unbounded counters: no bit field overflows, and the invariant that says so is kept |
| BbrSocks.BbrSock.LtBwSampling | reference/tcp_bbr.c:561-630 | the sampler with its early returns is its function; its 7-bit round counter never overflows |
| BbrSocks.BbrSock.EndLtInterval | reference/tcp_bbr.c:596-629 | the end of a sampling interval, in 32-bit arithmetic |
| BbrSocks.BbrSock.UpdateBandwidth | reference/tcp_bbr.c:633-674 | round detection and the bandwidth filter |
| BbrSocks.BbrSock.UpdateMinimumRtt | reference/tcp_bbr.c:735-779 | the RTT filter and entry into PROBE_RTT |
| BbrSocks.BbrSock.MaintainProbeRtt | reference/tcp_bbr.c:757-777 | the clock and the exit of PROBE_RTT |
| BbrSocks.BbrSock.SetCwndToRecoverOrRestore | reference/tcp_bbr.c:361-401 | losses, recovery and restoring |
| BbrSocks.BbrSock.SetCongestionWindow | reference/tcp_bbr.c:406-430 | the new window |
| BbrRuns.RunKeeps | reference/tcp_bbr.c:684-787 | after every run STARTUP means a count below 3, DRAIN and PROBE_BW a count of 3; gains and sampler counters are in range; once the count is 3 it stays and STARTUP is not entered again |
| BbrRuns.StepKeeps | reference/tcp_bbr.c:17-32 | every event keeps the invariants and follows the mode diagram; PROBE_RTT is left to STARTUP or PROBE_BW, never to DRAIN; the long-term rate is dropped only in PROBE_BW on its 48th round |
| BbrRuns.LtSamplingKeeps | reference/tcp_bbr.c:561-630 | the sampler's round counter stays at most 16 while sampling and at most 47 while its rate is used |
| BbrRuns.CycleIsNeutral | reference/tcp_bbr.c:147-156 | any eight consecutive phases have gain 1 on average and return to the same phase |
| BbrRuns.CycleStart | reference/tcp_bbr.c:494-502 | a cycle can start in exactly the phases that do not yield bandwidth |
| BbrFullPipe.FullPipeIsEarned | reference/tcp_bbr.c:676-699 | in every run from a new connection the pipe is full only after a recorded bandwidth and then three such rounds in a row, begun by ACKs not limited by the application, whose estimate was less than a quarter above it |
| BbrFullPipe.CountIsEarned | reference/tcp_bbr.c:684-699 | at any time the count is the number of rounds not limited by the application since the one that set the record, up to 3, and none of them found growth, RTOs included |
| BbrLongTerm.ConsistencyIff | reference/tcp_bbr.c:541-543 | the 32-bit test is right about "within an eighth or 4 kbit/s" for all pairs of rates up to a bound exactly when the bound is below 2^24 |
| BbrLongTerm.StandstillIsConsistent | reference/tcp_bbr.c:541-543 | a rate of 0 passes for consistent with a rate of 2^24 |
| BbrPolicer.StandstillTaken | reference/tcp_bbr.c:533-630 | any new connection can take up 2^23 as its long-term bandwidth after an interval that delivered 4 packets in 68 seconds |
| BbrLongTerm.PolicedIff | reference/tcp_bbr.c:533-552 | below 2^24 the long-term rate is taken up exactly when two intervals are close, lies between their rates and is paced at with gain 1; otherwise the new rate is kept for the next comparison |
| BbrIntervals.PolicedIsEarned | reference/tcp_bbr.c:554-630 | in every run from a new connection, with counters below the wrap, a long-term rate is taken up only after two adjoining intervals of 4 to 16 rounds and at least 1 ms, each ended by a loss and with at least 50 packets lost per 256 delivered; it is the mean of their rates, which pass for the same |
| BbrIntervals.SampleOutcome | reference/tcp_bbr.c:587-629 | exactly which samples end an interval with a rate, clear the sampler, or let the interval go on |
| BbrIntervals.StartOutcome | reference/tcp_bbr.c:577-592 | an interval starts exactly with a loss not limited by the application |
| BbrProbeRtt.MainEpisode | reference/tcp_bbr.c:740-777 | PROBE_RTT is entered exactly when the filter has expired without a pending restart, its clock starts when in-flight is at most 4, and it is left exactly when the clock has run out and a round is done |
| BbrRounds.RoundsDoNotOverlap | reference/tcp_bbr.c:638-648 | in every run the ACK that begins a round acknowledges a packet sent after all deliveries at the beginning of every earlier round |
| BbrCalls.RoundRule | reference/tcp_bbr.c:633-648 | a round begins exactly when a valid sample acks a packet sent after the mark; the mark moves exactly then, when recovery starts and when the clock of PROBE_RTT starts |
| BbrCalls.FilterRule | reference/tcp_bbr.c:650-673 | a valid sample enters the bandwidth filter exactly unless the application limited it below the estimate |
| BbrCalls.PhaseRule | reference/tcp_bbr.c:433-484 | the gain cycle moves on exactly when its phase is over: after the minimum round-trip time, for gain 5/4 also not before losses or enough in flight, for gain 3/4 as soon as the queue is drained |
| BbrCalls.DrainRule | reference/tcp_bbr.c:702-714 | STARTUP ends with the third round without growth, and DRAIN exactly when no more is in flight than the path holds |
| BbrCalls.PolicedRounds | reference/tcp_bbr.c:568-574 | a long-term rate in use stands for exactly 48 rounds of PROBE_BW |
| BbrCalls.PolicedStandsStill | reference/tcp_bbr.c:477-484 | meanwhile the gains stand still outside PROBE_RTT |
| BbrCalls.IdleRule | reference/tcp_bbr.c:291-303 | the mark of a restart from idle is set exactly by a limited transmit start and cleared by every ACK |
| BbrCalls.LimitRule | reference/tcp_bbr.c:757-759 | in PROBE_RTT the connection counts as limited by the application up to what is delivered and in flight, and the count is never 0 |
| BbrCalls.RtoRule | reference/tcp_bbr.c:872-883 | an RTO erases the recorded bandwidth but not the count of rounds, and marks a round |
| BbrMinRtt.MinRttIsLeast | reference/tcp_bbr.c:735-746 | while it does not expire the minimum round-trip time is the least of the initial one and all samples of the run |
| BbrMinRtt.MinRttRises | reference/tcp_bbr.c:740-746 | it rises only on an ACK that finds it more than 10 seconds old, to that ACK's sample |
| BbrMinRtt.MinRttRule | reference/tcp_bbr.c:735-779 | when a sample is taken, and when the stamp moves |
| BbrProbeRtt.ClockIsExplained | reference/tcp_bbr.c:757-769 | in every run a running clock was started by an ACK of the same episode that saw at most 4 packets in flight |
| BbrProbeRtt.ExitIsEarned | reference/tcp_bbr.c:716-734 | PROBE_RTT is left only after more than 200 ms and a full round since in-flight was 4 or less, within the episode |
| BbrProbeRtt.SavedWindowHolds | reference/tcp_bbr.c:281-289 | during an episode the saved window is never below the one held on entry |
| BbrProbeRtt.CallRestores | reference/tcp_bbr.c:389-429 | leaving PROBE_RTT or loss recovery, or with a restore pending, a call that acks anything brings back any window up to the saved one, under the clamp and, with a full pipe, the target, exactly unless the grown window wraps and what is left is smaller |
| BbrProbeRtt.RecoveryRestores | reference/tcp_bbr.c:382-393 | over a whole loss recovery the window in use when it was entered comes back in the same sense, unless another save overwrites it |
| BbrProbeRtt.WrapLosesWindow | reference/tcp_bbr.c:418-424 | the wrap happens: a saved window of 2^32 - 1 comes back as 4 |
| BbrWindow.EpisodeLosesWindow | reference/tcp_bbr.c:418-424 | a whole episode of a new connection with a window of 2^32 - 1 ends with a window of 4 |
| BbrProbeRtt.SavedFallsIff | reference/tcp_bbr.c:281-289 | of all events exactly a save on entry into recovery, outside recovery and PROBE_RTT and with a smaller window in use, shrinks the saved window |
| BbrProbeRtt.SavedStaysIff | reference/tcp_bbr.c:281-289 | along a run the saved window never shrinks exactly when the run has no such save |
| BbrProbeRtt.EpisodeRestores | reference/tcp_bbr.c:361-430 | over a whole episode, up to the first call from its end on that acks anything and with no overwriting save in between, the window on entry comes back, exactly unless the sum wraps as above |
| BbrProbeRtt.EpisodeExists | reference/tcp_bbr.c:740-777 | there are such episodes: two ACKs of a new connection make one |
| BbrSaves.OverwrittenIsLost | reference/tcp_bbr.c:281-289 | after an overwriting save, however many events later, a call that acks something gives a window bounded by those in use since the save and by what is in flight |
| BbrSaves.EpisodeForgets | reference/tcp_bbr.c:361-430 | with an overwriting save between the exit of an episode and the first call that acks anything, and no change of the window by the TCP core in between, the window after it is bounded by the one in use at the save and by what is in flight |
| BbrSaves.EpisodeForgetsWindow | reference/tcp_bbr.c:851-854 | a run of a new connection with a window of 100 and a clamp of 1000 does so and ends with a window of at most 5 |
| BbrWindow.AckAddsAtMost | reference/tcp_bbr.c:369-424 | an ACK for P packets leaves the window at most P above the largest of the old one less the losses, what was in flight before, and the saved one if it is being restored |
| BbrWindow.AckReleasesAtMostTwice | reference/tcp_bbr.c:369-386 | with the window in full use and nothing restored, an ACK for P packets releases at most 2P |
| BbrCwnd.OrdinaryAck | reference/tcp_bbr.c:406-430 | an ACK for P packets without losses, recovery or conservation grows the window by P: up to the target with a full pipe, by exactly P below the target or early on, and it never shrinks it below clamp and target |
| BbrCwnd.GrowthRule | reference/tcp_bbr.c:369-424 | the exact new window, losses deducted, whenever nothing is restored or conserved |
| BbrCwnd.RecoveryStarts | reference/tcp_bbr.c:376-381 | the first ACK of recovery sets the window to what was in flight before it |
| BbrCwnd.ConservedRound | reference/tcp_bbr.c:395-398 | while packets are conserved the window is the larger of that and the old one less the losses |
| BbrCwnd.ConservationRule | reference/tcp_bbr.c:376-398 | packets are conserved from the start of recovery exactly to the next round or the end of recovery |
| BbrCwnd.ProbingWindow | reference/tcp_bbr.c:426-429 | in PROBE_RTT the window is 4 under the clamp |
| BbrWindow.WindowBounds | reference/tcp_bbr.c:418-429 | clamp, PROBE_RTT cap, minimum of 4 and the target as bounds of the new window |
| BbrPacing.PacingRule | reference/tcp_bbr.c:252-261 | with a full pipe the pacing rate is that of bandwidth and gain; before, it is the larger of that and the old one, or that of the first round-trip time in the call that first sees one |
| BbrPacing.PacesAtBandwidth | reference/tcp_bbr.c:210-261 | with a full pipe the rate is bandwidth times gain in bytes per second, at most two below, under the limit |
| BbrPacing.FirstRate | reference/tcp_bbr.c:228-243 | the rate from the first round-trip time is the largest gain times a window per smoothed round-trip time, or per ms |
| BbrPacing.RestartRule | reference/tcp_bbr.c:291-303 | a restart from idle in PROBE_BW paces at the bandwidth itself, and no other transmit start changes the rate |
| BbrPacing.BurstRule | reference/tcp_bbr.c:270-278 | the segment goal follows the new pacing rate and fits 7 bits |
| BbrArith.RateFitsIff | reference/tcp_bbr.c:205-216 | with MTU 1500 and the largest gain the conversion overflows 64 bits exactly above rate 4260141166 |
| BbrArith.RateSafeUpTo | reference/tcp_bbr.c:205-216 | up to 2.9 Tbit/s no intermediate overflows with any gain in use |
| BbrArith.RateAccuracy | reference/tcp_bbr.c:210-216 | the result is within two units of the exact rate |
| BbrArith.TargetExact | reference/tcp_bbr.c:325-351 | without overflow the target is the path's part plus room, rounded up to even |
| BbrArith.BdpAccuracy | reference/tcp_bbr.c:339-342 | the path's part is the exact ceiling, or one packet less exactly when the excess is below 2^-24 packets |
| BbrArith.TargetMonotone | reference/tcp_bbr.c:325-351 | the target grows with bandwidth, round-trip time and gain |
| BbrArith.TargetIsEven | reference/tcp_bbr.c:347-350 | the target is even even when sums wrap, unless there is no RTT sample and it is 10 |
| BbrArith.NoSampleTarget | reference/tcp_bbr.c:336-337 | without an RTT sample the target is 10 |

## Left out

- Sockets, threads, file handles, `Jam` and the loss simulation: the network is the event structure of `Protocol`, a file is a byte sequence, a timeout is an event.
- The handshake on the first datagram, `naive_hash`, log output, and the unused fields `awnd`, `wind` and `flags`.
- Reordered ACKs, which the sender assumes away (protocol/file_udp.cpp:343).
- A network that always delivers in the end: progress is stated for rounds without loss, and as what remains possible from every reachable state.
- Files shorter than two blocks, on which the sender's assertion at its start fails, and files of 2^32 - 1 packets or more, on which indices meet INACTIVE.
- Sender and receiver are driven by events: the `while (true)` around their steps is the sequence of events of a run, not a loop of a method.
- Receivers.Receiver.Receive: the closing loop's 500 ms without data is the event `DoClose`, and the sender's 200 ms `DoTimeout`; how many passes fit between them is not counted.
- Jiffies and the packet counters `delivered` and `lost` are unbounded numbers; their differences are taken modulo 2^32 as in the source, comparisons do not wrap.
- BbrWindow.AckReleasesAtMostTwice: speaks of calls that restore nothing and find the window in full use; the other calls are bounded by `BbrWindow.AckAddsAtMost`.
- BbrSocks.BbrSock.UpdateBandwidth: the windowed maximum filter is an input, and intervals of 2^32 microseconds or more are not cut to 32 bits by the division.
- `tcp_tso_autosize`, the TCP core's counters, the congestion-avoidance state and kernel registration are inputs or absent; `bbr_get_info`, `bbr_undo_cwnd` and `bbr_sndbuf_expand` only report values.
- The chat client, the message structs and the server actions: framing, console and database calls.
