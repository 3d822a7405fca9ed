# A verified model of synplay

synplay streams one audio file from a master to several clients that are to play it together. The master
first measures every client's clock in ten rounds of time packets, then releases all of them at a barrier and
sends the file in packets stamped with master time; a client turns those stamps into its own stream time and
plays them from an audio callback. This project models that protocol, the arithmetic under it, the packets and
buffers that carry it, and the parts of the vendored asio headers that move bytes, and proves properties of
them for all inputs and all runs.

How it is laid out:

- `TimePackets`, `MasterModel`, `ClientModel`, `PlaybackModel`: the values of the protocol and what each handler
  does to them, as functions. `Master` and `Client` (modules `Masters`, `Clients`) and `Playback` hold the classes
  whose methods change their fields the way the C++ handlers do; each method is proved against its function.
- `MasterRuns`: the master alone, under any sequence of packets, timeouts and completions from any endpoints.
  `Barriers`: when streaming can begin. `Streaming`, `StreamingRuns`: what it streams. `StreamEnding`: when the
  stream can end.
- `SyncNetwork`: master and clients on a network that loses, duplicates and reorders. `Timers`: when retry timers
  fire. `LateReplies`: an answer that comes after its endpoint was given up. `LockStep`, `LockStepTermination`: the
  runs in which nothing is duplicated and a timer fires only after its packet was lost. `PromptNetworks`: the
  networks that answer within a second.
- `Exchanges`: one request, its answer and the offset it yields, in terms of when they happen. `OffsetStatistics`,
  `SampleMath`: mean, deviation and the outlier filter, and the loops that compute them. `SettledOffsets`: the offset
  a client settles on.
- `Sessions`, `BufferFilling`: packets arriving between callbacks, in order and in any order. `OutOfOrder`: what one
  callback makes of a queue in any order.
- `EndToEnd`: from the file to the samples written, for one client. `SynchronizedPlayback`: the same inside a
  lock-step run, from the first clock sample on. `PlayingInstants`: when, in true time, a stamp is really played.
- `Arithmetic`, `ByteTypes`, `ByteBuffers`, `Codec`: packets as bytes.
- `BufferSequences`, `BuffersIterator`, `BufferCopy`, `StreamBuf`: the asio buffer code.

What the model takes for granted:

- Doubles are reals. The square root enters as a function whose results are non-negative and square back. Signed
  division and double-to-integer conversion truncate toward zero.
- Every clock reading is a parameter of the handler that takes it; readings never go back, and a client's clock is
  the master's plus a fixed number, `theta`. The stream's own clock is never negative and runs at the same rate.
  `stream_start` begins at 0: the code tests for that without setting it (synplay/master/master.h:50). `synced` and
  `outstanding_packets` are kept to their 16 bits. Stamps are unbounded integers; `MachineSampleIsSample` shows that
  64-bit arithmetic agrees below 2^61 ms.
- A handler runs to its end before another starts. A cancelled timer does not fire. When the process panics the run
  ends; what it leaves in memory does not matter.
- The machine is little-endian, as the code's casts assume.
- A read of the file takes as many samples as remain, up to a packet.
- A `for` loop over the connection map visits every connection once, in no particular order; the logs of what was
  sent are therefore kept per destination.

Findings, each a theorem below:

- A stale packet costs the callback one frame beyond the host's buffer (synplay/client/client.cc:43-56 goes on with
  the packet it has popped). Whatever size the buffer has, all sequences of callbacks fill it exactly if and only if
  the queue is in order (`FillsExactlyIffInOrder`); with arrivals in any order the excess is exactly the number of
  stale packets, and still no frame sounds twice (`SessionAccounting`, `NothingSoundsTwice`). What such a packet
  sounds is its first frame alone (`StaleSoundsOnce`; `StaleOverflows` is the smallest case).
- Among five or more offsets a single one that differs from the others does not count: the client settles on their
  value (`SettledIgnoresOutlier`, `RunSettlesOn`). An exchange whose two delays are equal gives the true offset;
  otherwise twice the error is the difference of the delays, to within one (`ExchangeOffset`).
- The barrier waits for more than "every connection synced or given up". A listening master can still come to stream
  if and only if no unknown endpoint has entered its map and fewer than 2^16 connections are pending
  (`BarrierCanOpenIff`); one packet takes that away exactly when its sender is not in the map
  or when it makes a 2^16th connection pending (`PacketClosesBarrierIff`). A network that loses and duplicates
  nothing can do it, with every timer firing exactly when it is due: an endpoint whose answer takes three seconds
  is given up at its third timeout, and its answer then enters it as a stranger (`AnHonestLateReply`,
  `LateReplyClosesBarrier`). If every answer comes within the second its timer waits and nothing is lost, nobody is
  given up, every client settles on exactly ten samples, and streaming has begun exactly when each connection has
  carried its forty messages (`StreamsAfterFortyMessages`).
- A stream that has begun can still end if and only if no send of the packet in flight has failed and a completion
  is still to come (`StreamCanEndIff`); at the barrier that means somebody listens or the file is empty.
- A failing `prepare` has already moved the readable bytes but not the pointers to them; it is harmless for every
  content if and only if nothing was consumed since the last compaction or at least as much as is still readable
  (`SlipHarmlessIff`). The documentation of `prepare` does not mention this.
- The filter leaves all lists of n samples alone exactly when n is at most four (`FilterKeepsAllIffFourOrFewer`).
- The last packet is always sent full: past the end of the file each sample repeats the one a packet earlier
  (`CarriesFile`, in `Streaming.ReadMore`). A finished stream has sent exactly the file if and only if the file's
  length is a multiple of 882 samples (`ExactlyTheFileIff`).
- `commit` and `consume` move the pointer by the right amount if and only if the count is below 2^31, because they
  convert it to `int` (`Commit`, `Consume`; `CommitTooMany` shows it fail).

## Model

| member | source | states |
|---|---|---|
| TimePackets.SampleBound | synplay/master/master.cc:72-80 | an offset computed from causally ordered stamps is within half the round trip of the true one, truncation included |
| TimePackets.HalfTowardZero | synplay/master/master.cc:75-79 | the half of a sum is rounded toward zero |
| TimePackets.MachineSampleIsSample | synplay/master/master.cc:75-79 | with every cast and intermediate kept to 64 bits the sample is the same, for stamps below 2^61 |
| TimePackets.TwoClientsAgree | synplay/client/client.cc:73-77 | two offsets within their bounds put one stamp at instants no further apart than both bounds together |
| OffsetStatistics.PassesIsKeeps | synplay/client/client.cc:143-146 | the coded test with its square root is the test on squares |
| OffsetStatistics.CopyIfPassingIsFilter | synplay/client/client.cc:140-146 | `copy_if` with the coded test keeps the samples the test on squares keeps, in order |
| OffsetStatistics.Cauchy | synplay/util/math.h:21-22 | the squared sum is at most n times the sum of squares |
| OffsetStatistics.DeviationBound | synplay/util/math.h:15-24 | no squared deviation exceeds n - 1 variances |
| OffsetStatistics.DiscardedWeigh | synplay/client/client.cc:143-146 | every discarded sample accounts for four variances of the sum of squares |
| OffsetStatistics.FilterKeepsThreeQuarters | synplay/client/client.cc:143-152 | at most a quarter of a non-empty list is discarded, so the division by the number kept is always defined and the guard always taken |
| OffsetStatistics.FilterKeepsAllIffFourOrFewer | synplay/client/client.cc:143-146 | every list of n samples survives whole if and only if n is at most four |
| OffsetStatistics.CleanedMeanNearMean | synplay/client/client.cc:136-149 | with a non-zero deviation the cleaned mean is strictly within two deviations of the raw mean |
| OffsetStatistics.CleanedMeanBetween | synplay/client/client.cc:148-151 | the cleaned mean lies in the range of the samples |
| OffsetStatistics.CleanedMeanShift | synplay/client/client.cc:136-149 | adding a constant to all samples keeps the same ones and moves the cleaned mean by that constant |
| Masters.Master.constructor | synplay/master/master.cc:19-31 | a new master knows its endpoints and has sent nothing |
| Masters.Master.ReceiveEverything | synplay/master/master.cc:38-115 | the receive handler refines `MasterModel.Receive`: look-up, timer, attempts, dispatch, re-arming |
| Masters.Master.Demultiplex | synplay/master/master.cc:52-63 | the sender's connection, inserted when unknown, has no timer and no attempts |
| Masters.Master.Dispatch | synplay/master/master.cc:66-108 | the switch on the connection's state refines `MasterModel.Dispatch`, panics included |
| Masters.Master.TrySendData | synplay/master/master.cc:117-131 | the barrier refines `MasterModel.TrySendData` |
| Masters.Master.ReleaseAll | synplay/master/master.cc:120-126 | all connections start sending data, or the check fails exactly when one is not pending |
| Masters.Master.SendTimesync | synplay/master/master.cc:134-138 | every connection has been sent its first request and waits for the reply |
| Masters.Master.SendInitialTimesync | synplay/master/master.cc:155-187 | an initial timesync refines `MasterModel.SendInitial`: the third retry gives up |
| Masters.Master.SendFinalTimesync | synplay/master/master.cc:189-230 | a final timesync refines `MasterModel.SendFinal`: the tenth round's is marked FINAL |
| Masters.Master.OnTimer | synplay/master/master.cc:140-152 | a timer that fires re-sends what it was armed for |
| Masters.Master.SendToAll | synplay/master/master.cc:270-272 | one packet goes to every connection, once |
| Masters.Master.ReadFile | synplay/master/master.cc:255-255 | a read overwrites the first samples of the buffer and leaves the rest of it |
| Masters.Master.SendData | synplay/master/master.cc:248-273 | the next packet, or the end of the file, refines `MasterModel.SendData` |
| Masters.Master.OnSendCompleted | synplay/master/master.cc:232-246 | the completion handler refines `MasterModel.Completion` |
| Masters.Master.Run | synplay/master/master.cc:275-277 | start-up leaves the state every run begins in |
| MasterRuns.BarrierSafe | synplay/master/master.cc:117-131 | the barrier opens exactly when all connections are pending and their number fits 16 bits; the check inside never fails |
| MasterRuns.GiveUpOnlyUnsynced | synplay/master/master.cc:169-176 | a timer erases its connection exactly after the third attempt, only while it syncs, and no other |
| MasterRuns.TimeoutStep | synplay/master/master.cc:155-230 | a timeout sends once more and counts, or settles the connection by giving it up |
| MasterRuns.ReceiveSyncing | synplay/master/master.cc:66-95 | a reply moves a syncing connection to the next of its twenty phases, or out of the last |
| MasterRuns.FinalIsRepeated | synplay/master/master.cc:189-230 | a final timesync that is not answered is sent again as it was, twice |
| MasterRuns.ReceiveStep | synplay/master/master.cc:66-108 | a packet makes the master panic exactly when its connection is pending or streaming; otherwise the invariant is kept |
| MasterRuns.StepSafe | synplay/master/master.cc:38-131 | every event keeps the barrier's invariant, and only an unexpected packet panics |
| MasterRuns.StepBounded | synplay/master/master.cc:62-95 | every effective event lowers the rank of its connection; none raises another's |
| MasterRuns.RunBounded | synplay/master/master.cc:62-230 | over a run the ranks pay for all effective events |
| MasterRuns.SyncPhase | synplay/master/master.cc:85-211 | in every run without a panic: the counter equals the pending connections, each of which has done ten rounds; at most 79 effective events and 60 time packets per endpoint |
| MasterRuns.NoDeadlock | synplay/master/master.cc:140-176 | before streaming some timer is armed, unless a stranger or 2^16 pending connections block the barrier |
| Barriers.TimersOpenBarrier | synplay/master/master.cc:140-211 | from any state of the sync phase without these, the timers alone, one a second from any time on, lead to streaming |
| Barriers.BarrierCanOpenIff | synplay/master/master.cc:117-131 | streaming can still begin if and only if no stranger is in the map and fewer than 2^16 connections are pending |
| Barriers.PacketClosesBarrierIff | synplay/master/master.cc:53-69 | a packet leaves no way to streaming exactly when its sender is not in the map, or when it makes a 2^16th connection pending |
| MasterRuns.StreamingStartsOnce | synplay/master/master.cc:110-131 | once streaming began no timer is armed, and packets neither touch the stream nor send anything |
| MasterRuns.StrangerBlocksBarrier | synplay/master/master.cc:53-69 | a stranger in the map stays, and keeps the barrier closed, in every run that does not panic |
| Barriers.StrangerArrives | synplay/master/master.cc:53-69 | one packet from an endpoint not in the map, and no run that does not panic comes to stream |
| Streaming.ReadMore | synplay/master/master.cc:255-264 | one more packet keeps the audio equal to the file, with the stale samples of the buffer past its end |
| Streaming.SendKeeps | synplay/master/master.cc:248-273 | a send stamps, counts and logs one packet for every connection, or finds the end of the file |
| Streaming.CompletionKeeps | synplay/master/master.cc:234-244 | a new packet goes out exactly at the last completion of the previous one, and never after a failed send |
| Streaming.StreamIsFile | synplay/master/master.cc:248-273 | two samples are sent for every frame counted, 88200 for every second the stamps advance; they are a prefix of the file or the file and less than a packet more |
| Streaming.ExactlyTheFileIff | synplay/master/master.cc:255-264 | a finished stream carries the file and nothing else if and only if the file fills its last packet |
| Streaming.StreamEnds | synplay/master/master.cc:232-273 | without send errors the stream ends after one completion per listener and packet, neither earlier nor later, with the whole file sent |
| StreamingRuns.RunStreams | synplay/master/master.cc:85-273 | the streaming invariant holds in every run of the master |
| StreamingRuns.ListenersHearTheFile | synplay/master/master.cc:232-273 | in every run from start-up all listeners have been sent the same packets, stamped in order, two samples for every frame counted and 88200 for every second of stamps, carrying the file, at its end exactly the file if and only if it fills the last packet |
| StreamEnding.StreamCanEndIff | synplay/master/master.cc:232-273 | a stream that has begun can still reach the end of its file if and only if it is there, or no send in flight has failed and a completion is still to come |
| StreamEnding.OpenedStreamCanEndIff | synplay/master/master.cc:248-273 | right after the barrier this is so exactly when the file is empty or somebody listens |
| ClientModel.CleanOffsetBetween | synplay/client/client.cc:148-151 | the settled offset lies in the range of the samples, truncation included |
| ClientModel.TruncateTowardZero | synplay/client/client.cc:148-151 | a mean becomes an offset by truncation toward zero |
| SettledOffsets.SettledIgnoresOutlier | synplay/client/client.cc:134-152 | of five or more samples all but one equal to v, the client settles on v |
| SettledOffsets.SettledPlainMean | synplay/client/client.cc:134-152 | of four samples or fewer, or without deviation, it settles on their truncated mean |
| SettledOffsets.SettledNearMean | synplay/client/client.cc:134-152 | with a deviation it settles strictly within two deviations of the mean, truncation included, and between two samples |
| SettledOffsets.SettledIsMeanOfNear | synplay/client/client.cc:134-152 | it settles on the truncated mean of exactly the samples strictly within two deviations |
| ClientModel.PaTimeExact | synplay/client/client.cc:73-77 | the stream time is the true one exactly for sums that do not wrap |
| ClientModel.PaTimeOrder | synplay/client/client.cc:73-77 | later stamps play later while neither sum wraps |
| SampleMath.CalculateMeanStddev | synplay/util/math.h:15-24 | the accumulated mean, and from the transformed and multiplied differences the one non-negative root of their variance |
| SampleMath.CopyIf | synplay/client/client.cc:140-146 | the loop keeps, in order, the samples the test on squares keeps |
| Clients.Client.ReceiveTimesync | synplay/client/client.cc:116-167 | the handler refines `OnTimesync`, division by the kept samples defined, and echoes the packet with its two stamps |
| Clients.Client.ReceiveData | synplay/client/client.cc:107-114 | the packet joins the end of the queue under its stream time |
| SyncNetwork.CompletedIsGood | synplay/master/master.cc:70-83 | a reply in causal order, even to an old or duplicated request, yields an offset within its own bound |
| SyncNetwork.ClientStaysInRange | synplay/client/client.cc:120-158 | a client's offset and samples stay in the range of the offsets it has heard |
| SyncNetwork.NextInv | synplay/master/master.cc:38-230 | every step of master, client or network keeps stamps causal and offsets in range |
| SyncNetwork.RunInv | synplay/master/master.cc:38-230 | at every point of every run, with loss, duplication and reordering, stamps are causal and every client is in the range of what it heard |
| SyncNetwork.EverySampleIsGood | synplay/master/master.cc:66-83 | in every run, any offset on its way to a client is within the bound of its own stamps |
| Exchanges.StampsAreMoments | synplay/master/master.cc:70-80 | the four stamps of a completed exchange are the moments of its four events, on the clocks of its two ends |
| Exchanges.ExchangeOffset | synplay/master/master.cc:75-80 | twice the error of the offset is the difference of the delays there and back, to within one; with equal delays there is none |
| Exchanges.AnyExchange | synplay/master/master.cc:66-83 | whatever the delays, some run has an exchange with them |
| SyncNetwork.OffsetAccuracy | synplay/client/client.cc:120-152 | in every run, from its first offset on, a client is within the worst bound of those it heard |
| SettledOffsets.RunRemembers | synplay/client/client.cc:120-158 | in every run a client holds the offsets heard since its last FINAL, in order, and goes by the one it settled on or the last heard since |
| SettledOffsets.RunSettlesOn | synplay/client/client.cc:134-152 | in every run, of five or more offsets since the FINAL before all but one equal to v, a client settles on v |
| SettledOffsets.RunSettlesNear | synplay/client/client.cc:134-152 | in every run a client settles strictly within two deviations of the mean of these offsets, on the truncated mean of those that are |
| SyncNetwork.ClientsPlayTogether | synplay/client/client.cc:73-77 | in every run, two clients' instants for one stamp differ by at most both bounds together |
| PlayingInstants.ClockIsAsSet | synplay/client/client.cc:126-132 | in every run a client's stream offset is the one its last FINAL set |
| PlayingInstants.PlayedInTime | synplay/client/client.cc:73-77 | in every run, a stamp is really played at its time, to within half the worst round trip, the delay between the readings of the two clocks, and the millisecond truncation costs |
| PlayingInstants.ReallyPlayTogether | synplay/client/client.cc:73-77 | in every run, two clients really play one stamp no further apart than both bounds, the longer delay and a millisecond |
| LateReplies.AnHonestLateReply | synplay/master/master.cc:140-176 | a run without loss or duplication, every timer firing one second after the send before it, in which an endpoint is given up and then answers, three seconds after the first request |
| LateReplies.LateReplyClosesBarrier | synplay/master/master.cc:53-69 | in every run, once an endpoint answers that was given up, streaming never begins |
| LockStep.LinkAnswered | synplay/client/client.cc:116-167 | the client's answer keeps the two ends of its link in step |
| LockStep.LinkAdvances | synplay/master/master.cc:66-95 | the master's handling of a reply keeps the two ends in step |
| LockStep.InStepKeeps | synplay/master/master.cc:38-230 | every lock-step event keeps every link |
| LockStep.LockStepInv | synplay/master/master.cc:38-230 | at every point of every lock-step run the two ends of every link are in step |
| LockStep.LockStepSafe | synplay/master/master.cc:66-108 | in every lock-step run: no panic, at most one message alive per connection, FINAL only in the tenth round |
| LockStep.SamplesAtFinal | synplay/client/client.cc:120-157 | in every lock-step run a client holds 10 to 28 samples at its first FINAL |
| LockStep.ListenersHaveSettled | synplay/client/client.cc:126-158 | in every lock-step run each client the stream goes to has processed a FINAL and collected nothing since |
| LockStep.LockStepProgress | synplay/master/master.cc:140-176 | in every lock-step run, before streaming a message can be delivered or a timer can fire if and only if some connection is not pending; all are pending only when they are 2^16 or more |
| LockStepTermination.LockStepTerminates | synplay/master/master.cc:62-230 | a lock-step run has at most 239 steps per client besides waiting and streaming |
| PromptNetworks.PromptIsLockStep | synplay/master/master.cc:140-152 | when no message is still under way as its timer comes due, and nothing is duplicated, the run is a lock-step run |
| PromptNetworks.RunExact | synplay/master/master.cc:62-230 | if besides nothing is lost, no timer ever fires, nobody is given up, and each connection is as far as the messages delivered on it |
| PromptNetworks.TenSamples | synplay/client/client.cc:120-157 | then a client holds exactly ten samples at its first FINAL |
| PromptNetworks.NobodyIsGivenUp | synplay/master/master.cc:169-176 | then nobody is given up and the master does not panic |
| PromptNetworks.StreamsAfterFortyMessages | synplay/master/master.cc:85-131 | then, with fewer than 2^16 endpoints, streaming has begun exactly when every connection has carried its forty messages |
| PlaybackModel.IterationAccounting | synplay/client/client.cc:29-68 | counts to go plus queue length drop by exactly one per iteration |
| PlaybackModel.PlayAccounting | synplay/client/client.cc:29-68 | whatever the stamps, frames written are those asked for plus one per stale packet met |
| PlaybackModel.PlayInOrder | synplay/client/client.cc:29-68 | on a queue in order the callback writes the frames that are due, as many as fit, then silence |
| PlaybackModel.PlayConserves | synplay/client/client.cc:29-68 | every queued frame is played, in order, or still queued |
| OutOfOrder.StaleSoundsOnce | synplay/client/client.cc:40-66 | a stale packet that is due sounds its first frame and nothing else, uncounted; one that is not due gives silence |
| OutOfOrder.StaleOverflows | synplay/client/client.cc:40-66 | asked for one frame, a callback that meets a single stale packet writes two |
| OutOfOrder.NewestIsGreatest | synplay/client/client.cc:40-48 | staleness is measured against the greatest stamp met |
| OutOfOrder.PlayDropsTheStale | synplay/client/client.cc:36-66 | on a queue in any order the packets dropped are exactly those met whose stamp is below one met before |
| OutOfOrder.PlayRenders | synplay/client/client.cc:29-68 | the output on a queue in any order: the frames of each packet in turn, of a stale one the first alone, until the frames asked for are counted or a packet waits, then silence |
| OutOfOrder.SilentWhenNothingIsDue | synplay/client/client.cc:50-55 | it is silent in the end only when the queue is empty or its front is not due |
| BufferFilling.FillsExactlyIffInOrder | synplay/client/client.cc:40-48 | whatever the buffer size, all sequences of callbacks fill the host's buffer exactly if and only if the queue is in order |
| BufferFilling.SessionAccounting | synplay/client/client.cc:15-114 | over any interleaving with arrivals in any order the callbacks write what was asked for and one frame per stale packet; all fill exactly if and only if none is met |
| BufferFilling.NothingSoundsTwice | synplay/client/client.cc:15-114 | over any interleaving with arrivals in any order every frame sounds at most once |
| Sessions.SessionConserves | synplay/client/client.cc:15-114 | over any interleaving of in-order arrivals and callbacks every frame sounds once, in order, only after its stamp, and each callback fills its buffer |
| Playback.MPacket.Remaining | synplay/net/mpacket.cc:13-15 | the samples not yet played |
| Playback.MPacket.GetInt16 | synplay/net/mpacket.cc:17-21 | takes the next sample |
| Playback.CounterWraps | synplay/client/client.cc:29-45 | a decrement at zero wraps the 64-bit counter and the increment wraps it back |
| Playback.StreamState.Pass | synplay/client/client.cc:31-66 | one pass through the loop body refines `Iterate`, on the packet already popped when it was stale |
| Playback.StreamState.PaCallback | synplay/client/client.cc:15-71 | the callback refines `Play` and terminates; it writes the closed form of its queue, two samples per frame asked for or stale packet met |
| EndToEnd.StreamIsInOrder | synplay/client/client.cc:107-112 | a stream received in order by a client with a settled clock is a queue in order |
| EndToEnd.PacketCarriesPart | synplay/master/master.cc:255-264 | the i-th packet carries the i-th part of the file, as far as the file goes |
| EndToEnd.ClientPlaysTheFile | synplay/client/client.cc:15-114 | whichever packets came, in order: what a client with a settled clock has sounded, followed by what it has queued, is the audio of exactly these, each its part of the file; with none missing it is the file as far as it goes |
| SynchronizedPlayback.RunPlayInv | synplay/client/client.cc:126-132 | at every point of every lock-step run each settled clock began in the past, and the stream begins a second after the clocks of its listeners were set |
| SynchronizedPlayback.ClocksStand | synplay/client/client.cc:120-158 | from the barrier on no client's clock and no connection changes in a lock-step run |
| SynchronizedPlayback.StreamIsAfterClockStart | synplay/client/client.cc:73-77 | in every lock-step run, a listener whose samples are good to a second has no stamp before the start of its stream clock |
| SynchronizedPlayback.ListenerPlaysTheFile | synplay/client/client.cc:15-158 | in every lock-step run such a listener plays the file, whichever packets have come, in order, between whichever callbacks |
| ByteTypes.FromToBytes | synplay/util/bytebuffer.cc:7-8 | an integer read back from its memory is the same |
| ByteTypes.ToFromBytes | synplay/util/mutable_byte_buffer.cc:25-27 | writing an integer read from memory restores the memory |
| ByteTypes.ByteAt | synplay/util/mutable_byte_buffer.cc:25-27 | byte i in memory is digit i of the integer to base 256, lowest first |
| ByteTypes.FromBytesAt | synplay/util/bytebuffer.cc:7-8 | digit i of an integer read is byte i of its memory |
| ByteTypes.UnsignedByte | synplay/util/mutable_byte_buffer.cc:29-31 | a negative integer has the bytes of its two's complement |
| ByteBuffers.MutableByteBuffer.constructor | synplay/util/mutable_byte_buffer.cc:6-8 | an empty buffer of a positive capacity |
| ByteBuffers.MutableByteBuffer.IncreaseSize | synplay/util/mutable_byte_buffer.cc:57-63 | twice the capacity, the same contents |
| ByteBuffers.MutableByteBuffer.Write | synplay/util/mutable_byte_buffer.cc:41-49 | appends; capacity is the initial one doubled some times and at most twice what was written, growth copied less than that |
| ByteBuffers.MutableByteBuffer.WriteUint8 | synplay/util/mutable_byte_buffer.cc:21-23 | appends one byte |
| ByteBuffers.MutableByteBuffer.WriteUnsignedLong | synplay/util/mutable_byte_buffer.cc:25-27 | appends the eight bytes of an unsigned integer |
| ByteBuffers.MutableByteBuffer.WriteSignedLong | synplay/util/mutable_byte_buffer.cc:29-31 | appends the eight bytes of a two's complement integer |
| ByteBuffers.MutableByteBuffer.WriteNShorts | synplay/util/mutable_byte_buffer.cc:37-39 | appends two bytes per sample |
| ByteBuffers.MutableByteBuffer.Data | synplay/util/mutable_byte_buffer.cc:51-55 | a copy of all that was written |
| ByteBuffers.ByteBuffer.GetUnsignedLong | synplay/util/bytebuffer.cc:3-10 | eight bytes are read, or none when fewer remain |
| ByteBuffers.ByteBuffer.GetShort | synplay/util/bytebuffer.cc:12-19 | two bytes are read, or none when fewer remain |
| ByteBuffers.ByteBuffer.GetNShorts | synplay/util/bytebuffer.cc:21-29 | the samples asked for, or as many whole ones as remain; reading goes on behind them |
| ByteBuffers.ShortsRoundTrip | synplay/net/mpacket.cc:43-59 | samples survive writing and reading |
| ByteBuffers.ShortAt | synplay/util/mutable_byte_buffer.cc:37-39 | sample i is written at bytes 2i and 2i + 1, the low one first |
| ByteBuffers.ShortFrom | synplay/util/bytebuffer.cc:21-29 | sample i is read from bytes 2i and 2i + 1, the low one first |
| ByteBuffers.BytesRoundTrip | synplay/net/mpacket.cc:43-59 | an even number of bytes survives reading and writing |
| Codec.PackTime | synplay/net/time_packet.cc:7-17 | byte 0 is 0, byte 1 the type, bytes 2 + 8k + i the i-th byte of the k-th of the five integers; 42 bytes in all |
| Codec.UnpackTime | synplay/net/time_packet.cc:19-43 | the type and the five integers whose bytes stand in these places |
| Codec.PackData | synplay/net/mpacket.cc:43-49 | byte 0 is 1, bytes 1 to 8 the stamp, bytes 9 + 2i and 10 + 2i sample i, the low byte first |
| Codec.UnpackData | synplay/net/mpacket.cc:51-59 | the stamp and the samples whose bytes stand in these places; a body too short for a stamp is taken for samples |
| Codec.Unpack | synplay/net/packet.cc:16-27 | the tag selects the decoder; an unknown tag gives no packet |
| Codec.DecodeEncode | synplay/net/packet.cc:16-27 | unpacking a packed packet returns it, for all field values and payload lengths; sizes are 42 and 9 + 2n |
| Codec.EncodeDecode | synplay/net/packet.cc:16-27 | packing what a well-formed datagram holds returns its bytes |
| BufferSequences.FlatAt | synplay/lib/asio-1.10.6/include/asio/buffers_iterator.hpp:300-304 | a byte of a buffer is the byte of the flat sequence at its position |
| BufferSequences.PlacesAgree | synplay/lib/asio-1.10.6/include/asio/buffers_iterator.hpp:306-310 | a position has one place only, empty buffers or not |
| BufferSequences.MovesAddUp | synplay/lib/asio-1.10.6/include/asio/buffers_iterator.hpp:313-363 | a move back undoes the move forward, and moves add up |
| BufferSequences.AdvanceIsSteps | synplay/lib/asio-1.10.6/include/asio/buffers_iterator.hpp:366-445 | advancing by n is n increments or n decrements |
| BuffersIterators.BuffersIterator.Begin | synplay/lib/asio-1.10.6/include/asio/buffers_iterator.hpp:127-144 | stands at position zero |
| BuffersIterators.BuffersIterator.End | synplay/lib/asio-1.10.6/include/asio/buffers_iterator.hpp:147-163 | stands behind the last byte |
| BuffersIterators.BuffersIterator.Dereference | synplay/lib/asio-1.10.6/include/asio/buffers_iterator.hpp:301-304 | the byte of the flat sequence at the position |
| BuffersIterators.BuffersIterator.Equal | synplay/lib/asio-1.10.6/include/asio/buffers_iterator.hpp:307-310 | iterators over one sequence compare equal exactly when they stand at the same place, and then dereference the same byte |
| BuffersIterators.BuffersIterator.DistanceTo | synplay/lib/asio-1.10.6/include/asio/buffers_iterator.hpp:448-451 | the one distance by which advancing leads to the other iterator |
| BuffersIterators.BuffersIterator.Increment | synplay/lib/asio-1.10.6/include/asio/buffers_iterator.hpp:313-333 | moves to the place of the next byte, over empty buffers |
| BuffersIterators.BuffersIterator.Decrement | synplay/lib/asio-1.10.6/include/asio/buffers_iterator.hpp:336-363 | moves to the place of the byte before, over empty buffers |
| BuffersIterators.BuffersIterator.Advance | synplay/lib/asio-1.10.6/include/asio/buffers_iterator.hpp:366-445 | moves to the place n bytes away in either direction; it terminates, and its out-of-bounds assertions hold |
| BuffersIterators.EqualIteratorsAgree | synplay/lib/asio-1.10.6/include/asio/buffers_iterator.hpp:307-310 | two iterators over one sequence compare equal exactly when they stand at the same place, so they dereference the same byte |
| BufferCopying.CopyBuffer | synplay/lib/asio-1.10.6/include/asio/buffer.hpp:1295-1304 | copies the lesser of both sizes and the limit, nothing else changes |
| BufferCopying.AddressAt | synplay/lib/asio-1.10.6/include/asio/buffer.hpp:2186-2231 | byte p of buffer i stands at its place in the flattened sequence |
| BufferCopying.BufferCopy | synplay/lib/asio-1.10.6/include/asio/buffer.hpp:2186-2231 | copies exactly the least of both totals and the limit, cut up in any way; all other memory is unchanged |
| BufferCopying.CopiedFlat | synplay/lib/asio-1.10.6/include/asio/buffer.hpp:2186-2231 | the copied prefix of the flattened target equals the source's, the rest and the source are unchanged |
| StreamBufs.StreamBuf.constructor | synplay/lib/asio-1.10.6/include/asio/basic_streambuf.hpp:131-141 | nothing committed, nothing readable, room for 128 bytes or as many as the maximum size allows |
| StreamBufs.StreamBuf.Size | synplay/lib/asio-1.10.6/include/asio/basic_streambuf.hpp:158-161 | the number of readable bytes, never above the maximum |
| StreamBufs.StreamBuf.Reserve | synplay/lib/asio-1.10.6/include/asio/basic_streambuf.hpp:299-337 | fails exactly when the maximum size is exceeded; otherwise makes room and keeps the readable bytes; a failure leaves them slipped |
| StreamBufs.StreamBuf.Prepare | synplay/lib/asio-1.10.6/include/asio/basic_streambuf.hpp:204-209 | as reserve; the room it returns begins at the put pointer and holds n bytes |
| StreamBufs.StreamBuf.Commit | synplay/lib/asio-1.10.6/include/asio/basic_streambuf.hpp:223-229 | the readable bytes gain what was prepared, up to n bytes, if and only if their number fits an `int` |
| StreamBufs.StreamBuf.Consume | synplay/lib/asio-1.10.6/include/asio/basic_streambuf.hpp:238-245 | the readable bytes lose their first n, or all, if and only if their number fits an `int` |
| StreamBufs.CommitTooMany | synplay/lib/asio-1.10.6/include/asio/basic_streambuf.hpp:223-229 | 2^31 bytes prepared, filled and committed move the put pointer back |
| StreamBufs.StreamBuf.Underflow | synplay/lib/asio-1.10.6/include/asio/basic_streambuf.hpp:254-265 | the first readable byte, or the end |
| StreamBufs.StreamBuf.Overflow | synplay/lib/asio-1.10.6/include/asio/basic_streambuf.hpp:274-297 | appends a byte, or fails exactly when the buffer is full and changes nothing readable; makes room for 128 bytes at once, or as many as the maximum allows; the end of file is not appended |
| StreamBufs.SlipHarmlessIff | synplay/lib/asio-1.10.6/include/asio/basic_streambuf.hpp:312-331 | a failed reserve is harmless for all contents exactly when nothing, or at least as much as is readable, was consumed |

## Left out

- Sockets, the io_service loop, PortAudio, libsndfile, printing and the `main` functions: they enter as parameters and events.
- Object lifetimes, references captured by handlers, and races between the callback's thread and the receive handler.
- A timer whose handler was already queued when it was cancelled: asio lets it run; here it does not fire.
- Datagrams that are too short or carry an unknown packet type: the code reads past them or leaves the type unset. Data packets sent to the master, which make it exit.
- Codec.UnpackTime: a body shorter than 41 bytes, which the code reads past, and an unknown type byte, which leaves the type unset, are excluded.
- Codec.Unpack: the same, and a datagram without a byte.
- PlaybackModel.PlayAccounting: a stale packet with fewer than two samples, which would make the callback pop twice, from a queue that may be empty, is excluded by `ShortOnTime`. The master never sends such packets.
- Playback.StreamState.Pass: the same.
- Playback.StreamState.PaCallback: the same.
- BufferFilling.FillsExactlyIffInOrder: the same; such a packet can also end a callback early, when the counter wraps below zero.
- BufferFilling.SessionAccounting: the same, for arrivals.
- ByteBuffers.MutableByteBuffer.constructor: an initial size of zero is excluded, because doubling zero makes no room and the first write would go out of bounds.
- BufferCopying.BufferCopy: overlapping target buffers are excluded, since then no flattened result is well defined; the form without a limit is the same loop without the limit's test and is not repeated.
- Masters.Master.Run: the loop around the io_service that follows start-up is the runs of `MasterModel.IsRun`.
- Barriers.BarrierCanOpenIff: it says that streaming can begin, not that the timers run.
- SynchronizedPlayback.ListenerPlaysTheFile: packets that arrive out of order are in `BufferFilling`, not here; a last stamp beyond 2^64 on the stream clock is excluded by `GoodClock`.
- SyncNetwork.OffsetAccuracy: rounding of doubles and clocks that drift or step are not modelled.
- LockStepTermination.LockStepTerminates: it bounds the steps; that an enabled step is eventually taken is up to the network and the timers.
- The ring buffer of synplay/util/ringbuf.h, which nothing uses; the copy constructor of the byte buffer; the benchmark directory; the other asio headers.
