# Verification of the course projects MP2, MP3 and MP4

A Dafny model of three programs and proofs about it:

- **MP4**, a client and a server that share out `JOB_NUM` jobs. Jobs travel through four bounded queues, two
  byte streams and the hands of eight threads; either node may send uncomputed jobs to the other at any time.
  `Protocol.dfy` is the step machine: a schedule names the thread that takes the next step, and a step is one
  test, pull, push, send or receive, or half of a store or a computation. The main result is that in every schedule
  the client's array ends up as one sequential loop would leave it. The number of jobs, the transfer policy, the
  slot values and the computation are parameters.
- **MP2**, a rate-monotonic scheduler with integer admission control.
- **MP3**, a profiler that samples and resets page-fault counters into a shared buffer, and the monitor that
  drains the buffer.

Run `dafny verify dfyconfig.toml`.

## Modules

| files | content |
|---|---|
| `Protocol`, `Ownership`, `TokenMoves`, `ClientSteps`, `ServerSteps`, `Invariant` | the step machine and its inductive invariant: every job id is in one place, and the place fixes what the slots hold |
| `Theorems`, `EarlyOffloadRun` | what follows for every schedule, and why the one hypothesis is needed |
| `Hearing`, `Endings` | what a reader has heard and decides on it, when threads end, and where their sentinels go, over every execution |
| `Reactions` | what a thread does in any state, reachable or not |
| `Progress`, `Flow` | the rank of a state, the potential of the flow of jobs, and the end of all work in any interleaving |
| `Completion`, `Fairness`, `Jams` | which states are stuck, that fair runs without jams count every job, and that jams happen |
| `OffloadLoop`, `Fifo`, `Outbox`, `Rounds` | an offload while other threads run, the order of jobs through all four queues, and what a balancing round leaves |
| `Slots`, `Result`, `Adaptor`, `Loops` | the array, the load balancer and the computing loops in place, tied to the step machine |
| `Queue`, `QueueMonitor` | the linked queue in memory, and its monitor with any number of threads |
| `Wire`, `Senders`, `Socket` | the byte format, the mutex of the senders, the socket loops |
| `Sending`, `ByteStreams`, `ByteLevel`, `ByteProgress` | the protocol over byte streams, its refinement of the protocol on frames, and that it holds up no thread the frames would not |
| `RateMonotonic`, `Dispatching`, `Turns`, `Priorities`, `Crashes`, `Arithmetic`, `Admission`, `Releases`, `Sleepers`, `Mishaps` | MP2: handlers on values, cut where they hold no lock; their theorems, and runs that go wrong |
| `SchedulerModule` | the same handlers in place |
| `Drain`, `Profiler`, `Registry`, `Conservation`, `Sampler`, `Samples`, `ProfilerModule` | MP3: the drain loop in place, sampling on values and its theorems, and sampling in place |

## Hypotheses

- *Client main pulls first* (`Protocol.MainPullsFirst`). Job 0 is the head of the client's queue after
  `bootstrap`. Two decoders test `> JOB_NUM` and one tests `>= JOB_NUM`, so job 0 cannot be offloaded:
  `create_message` would read the slot after the last one. The theorems about MP4 assume of a schedule only that the
  client's offload loop pulls nothing before client main has. `OffloadOfZero`, `FaultNeedsEarlyOffload` and
  `EarlyOffloadFaults` show that this is exact, and `FaultReachable` that the code itself does not ensure it.
- *An even number of jobs, at least two*, as `JOB_NUM` is 1024.
- *True sizes* (`Flow.TrueSizes`), for the end of all work and for completion only: every offload is decided on the
  queue size the peer has at that moment. Neither is claimed for decisions on stale sizes.
- *No jams* (`Completion.Jammed`), for completion only. `StuckExactly` and `JamIsForever` say what a jam is,
  `JamReachable` that it happens.
- MP2's bounds hold for periods above zero and processing times up to 2147 ms; `ShareExactly` shows that beyond that
  the share is wrong for every period, and `OverflowAdmits` that admission then accepts what it must refuse. With
  overlapping registrations the bound grows by their number, and `RunBoundedExactly` says when it holds as it is.
- *Memory of MP2*: a freed record keeps its contents, and its memory is not handed out again.

## Where code and comments differ

- MP2/mp2.c:317-320 says that a yield makes the task READY; the code makes it SLEEPING. The code is modelled.
- MP4/client.c:83 speaks of queues of half the size; they are created with the full size.
- MP3/monitor.c:13 calls 48000 a number of samples; the code uses it as a number of words.
- MP3/mp3.c:286-288 reports a full buffer; `OverrunExactly` shows the test is true only after a write outside it.

## Model

| member | source | states |
|---|---|---|
| Theorems.EndToEnd | MP4/client.c:108-121 | in every schedule, when the counter has reached the number of jobs, every slot of the client's array is what one sequential loop leaves |
| Theorems.SequentialAt | MP4/utils.c:120-126 | that loop applies the computation exactly once to each slot it has passed and to no other |
| Result.SameAsOneMachine | MP4/client.c:134-139 | the same result entry by entry: 6000 additions to each of the 4096 entries of each slot of the initial array |
| Result.FinalEntries | MP4/utils.c:120-126 | where a constant d is added, every one of the 4096 entries of every slot of the client's final array is its initial value plus 6000 d, in every schedule |
| Result.RunOnOneMachine | MP4/client.c:109-120 | running the sequential loop on the initial array in memory gives the client's final array |
| Theorems.UniqueOwner | MP4/client.c:144-151 | in every reachable state each job is in exactly one queue, channel or hand, or is counted, and nothing else is there but sentinels |
| Theorems.CounterCounts | MP4/client.c:221-227 | the counter is the number of distinct finished jobs, each counted once, and never exceeds the number of jobs |
| Theorems.NeverTorn | MP4/client.c:215-234 | computing and storing take two steps each, with any value in between; at any time a client slot that no thread is computing or storing holds its result if its job is counted and its initial value if not |
| Theorems.CapacitySuffices | MP4/client.c:85-86 | no push on any of the four queues, sentinels included, finds its queue full |
| Theorems.SentinelSafety | MP4/client.c:200-206 | a sentinel in any queue, channel or hand means that every job is counted |
| Theorems.SentinelNotPulled | MP4/server.c:220 | neither an offload loop nor the server's worker ever has a sentinel in the queue it pulls from |
| Theorems.SentinelMeansFinished | MP4/client.c:121-125 | a sentinel, or client main having left its loop, means that the counter is full |
| Theorems.SlotIsolation | MP4/utils.c:25-34 | no two threads of a node compute, store or send the same slot, and the slot lies inside the array and is not counted |
| Hearing.AskedExactly | MP4/server.c:199-200 | over every execution, on either node, `rebalance_requested` is set if and only if the node's reader has taken a request to rebalance |
| Hearing.RequestsArrive | MP4/utils.c:203-207 | over every execution the requests one node's reader has sent are those the other's has taken and those still in its channel |
| Hearing.SizesArrive | MP4/server.c:228-239 | over every execution the queue sizes a state manager has read are, in order, those the other node's reader has taken, those in its channel, and the one about to be sent |
| Hearing.PeerExactly | MP4/utils.c:174-177 | over every execution a node believes in the last size its reader has taken, and in none as long as all of them were 0 |
| Hearing.DecidesExactly | MP4/utils.c:174-220 | over every execution, under every policy: a reader that takes a size does nothing on zeros at the start, asks if its own queue is less than 5 longer and the policy is above 0, offers half of the difference if that is above 5 and the policy is 0 or 2 or it has taken a request before, and otherwise reads on |
| Hearing.OffersIfAsked | MP4/utils.c:209-219 | with the default policy, a reader that takes a size smaller than its queue's by more than 5 offers half of the difference if and only if it has taken a request to rebalance before |
| Endings.GoneExactly | MP4/client.c:121-206 | over every execution a thread has ended if and only if it has made one of the steps named: client main its sentinel, the client's writer or reader a test that found the counter full, the client's reader the receipt of a sentinel, the server's writer its sending, the server's worker a pull of one |
| Endings.NoStepAfter | MP4/server.c:145-149 | and takes no step after it |
| Endings.LeavesExactly | MP4/client.c:108-121 | client main has left its loop if and only if it has found the counter full at the loop's head |
| Endings.SentinelsAccounted | MP4/server.c:157-161 | in every state the sentinels the client has made are those in queues, channels and hands and those client main has pulled or its reader has taken: none is lost or copied, and the server sends back each it gets |
| Reactions.WaitsExactly | MP4/queue.c:18-40 | in any state a thread has no step if and only if it pulls from an empty queue, pushes into a full one, reads from an empty channel or has ended, or a slot outside an array has been touched |
| Reactions.ReceivesExactly | MP4/client.c:215-234 | in any state, for any id: which data a reader stores and under which slot, which it queues as a job, and which it drops |
| Reactions.OffloadAlone | MP4/utils.c:210-219 | in any state, an offload that nobody interferes with sends exactly the leading jobs of its queue, in order, as shifted frames, loses a negative id it meets and ends there, and waits for the rest if the queue is too short |
| Theorems.OffloadOfZero | MP4/utils.c:210-219 | the job an offload of the client would take is job 0, and its frame would be read outside the array, if and only if client main has not pulled yet |
| Theorems.FaultNeedsEarlyOffload | MP4/utils.c:28-29 | a run that touches a slot outside an array has an offload pull before client main's first pull |
| EarlyOffloadRun.EarlyOffloadFaults | MP4/utils.c:28-29 | and conversely: after such a pull the next step of that thread touches a slot outside the array, in every interleaving |
| EarlyOffloadRun.FaultReachable | MP4/utils.c:201-219 | with the default policy and 14 jobs or more, some schedule of the code makes such a pull and faults |
| Invariant.ExecutionInv | MP4/client.c:112-118 | the ownership and slot invariant holds in every state of every execution |
| Invariant.StepInv | MP4/server.c:154-227 | every step of every thread keeps it |
| ClientSteps.ClientStepKeeps | MP4/client.c:193-246 | a client step touches no slot outside the array, keeps the client's slots right, and sends only uncomputed data |
| ClientSteps.ClientStepBalanced | MP4/client.c:107-125 | a client step neither loses nor copies a job, and changes the number of sentinels exactly by those it makes, on leaving a loop, and those it uses up |
| ServerSteps.ServerStepKeeps | MP4/server.c:187-227 | a server step keeps received data in raw slots and results in finished ones, and sends results under raw and raw data under shifted ids |
| ServerSteps.ServerStepBalanced | MP4/server.c:130-150 | a server step neither loses nor copies a job, and changes the number of sentinels exactly by those it makes and uses up |
| Progress.StepRank | MP4/client.c:109-120 | a step that moves a job lowers the rank of the state, an offload pull raises it by 5, any other step keeps it |
| Progress.MovesBounded | MP4/utils.c:210-219 | in every run the steps that move jobs, plus the rank, are at most 26 for each pair of jobs, plus 29, plus 5 for each offload pull |
| Flow.StepPotential | MP4/utils.c:190-220 | in every reachable state and for every thread, if an offload decided in the step sees the peer's true queue size, a potential does not rise, and an offload pull lowers it |
| Flow.PullsBounded | MP4/utils.c:190-220 | in every execution all of whose offloads are decided on true sizes, however the threads interleave, the offload pulls and the potential are together at most 9(n+2)^2 + 9(n+2) + 1 |
| Flow.WorkEnds | MP4/utils.c:190-220 | so the steps that move jobs in such an execution are bounded by a polynomial in the number of jobs: offloading back and forth comes to an end |
| Completion.StuckExactly | MP4/utils.c:213-219 | a reachable state with jobs still to be counted has no step but the state managers' if and only if all hands and queues are empty, each reader waits for frames with none there or is jammed in an offload loop that has jobs left to send and an empty queue, and at least one is jammed |
| Completion.JamIsForever | MP4/utils.c:213 | a jammed thread takes no further step in any continuation |
| Jams.JamReachable | MP4/utils.c:210-219 | jams do happen with the default policy and 14 jobs or more, even if client main pulls first and every offload is decided on the true size: client main empties the queue meanwhile |
| Fairness.FairRunsComplete | MP4/client.c:108-142 | in every infinite fair run in which client main pulls first, every offload is decided on the true size and none is ever jammed, all jobs are counted, and the client's array is the sequential loop's |
| Sending.SendPersists | MP4/utils.c:235-243 | in every reachable state the frame a thread is about to send is not changed by a step of any other thread, so that its bytes can be read from memory while they are written |
| ByteLevel.BytesRefineFrames | MP4/utils.c:224-250 | every run of the protocol over two byte streams, with the senders of a node under its mutex, writes and reads cut into any pieces and the threads interleaved in any way, follows an execution of the protocol on frames with the same nodes, its streams being the encoding of the frames on the way |
| ByteLevel.EndToEndOnBytes | MP4/client.c:108-142 | so over byte streams too a full counter means the array of the sequential loop |
| ByteLevel.SendersLock | MP4/utils.c:36-48 | in every such run a thread that is about to send can take the mutex whenever it is free: every frame fits the format |
| ByteStreams.WantsExactly | MP4/utils.c:88-101 | inside a frame a reader asks for exactly the rest of the word, the state record or the body it is in |
| ByteProgress.HolderMoves | MP4/utils.c:103-117 | whoever holds the mutex can always write the next byte of its frame, or release the mutex |
| ByteProgress.ReaderMoves | MP4/utils.c:88-101 | a reader that waits can take the next byte whenever there is one |
| ByteProgress.BytesLive | MP4/utils.c:224-250 | in every run over byte streams, whichever thread can make a step over frames, that thread or the holder of its mutex can act |
| OffloadLoop.LoopOffloads | MP4/utils.c:210-219 | on either node, while its computing thread pulls nothing, whatever the other threads of both nodes do, the offload loop never blocks, has taken exactly the leading jobs of its queue, and has sent them in order as shifted frames with their initial values |
| Fifo.ServerFifo | MP4/server.c:154-185 | in every execution the jobs the client sent are, in order, those pulled from the server's queue followed by those in the queue, in the reader's hand and on the wire |
| Fifo.ClientFifo | MP4/client.c:198-233 | in every execution the first half of the ids, the jobs the server sent back and the sentinel the client's reader leaves behind are, in order, the ids pulled from the client's queue followed by those still on their way through it |
| Outbox.OutboxFifo | MP4/client.c:168-180 | in every execution, on either node, the ids that went into the queue of jobs to send, the second half of the client's first, are, in order, those whose frames the writer has sent, the one in its hand, and those in the queue |
| Outbox.WriterSends | MP4/server.c:129-133 | and the frame it sends is that of the id in its hand |
| Rounds.RoundSettles | MP4/utils.c:190-220 | after an offload decided on the true size, in any interleaving without pulls by the computing threads and without other decisions, once the offer has arrived the queues differ by at most one and neither node would offload on learning the other's size |
| Slots.SlotsApart | MP4/utils.c:121 | slots of different ids are disjoint ranges |
| Slots.PutIsUpdate | MP4/utils.c:162-167 | replacing one range of the array replaces one slot of the sequence of slots and leaves the others |
| Slots.ComputeEntry | MP4/utils.c:122-124 | the inner loop applies the addition 6000 times to one entry |
| Slots.EntryAdds | MP4/utils.c:122-124 | where the constant d is added, that is the old value plus 6000 d |
| Slots.Compute | MP4/utils.c:120-126 | `compute` replaces its slot by the computed one and changes nothing else |
| Slots.ComputeAdds | MP4/utils.c:120-126 | and `compute` adds 6000 d to each of the 4096 entries of its slot and changes no other |
| Slots.StoreLocal | MP4/utils.c:162-167 | `storeLocal` replaces the 4096 entries of one slot by the received data |
| Slots.SequentialLoop | MP4/client.c:109-120 | computing every id in turn computes every slot of the initial array |
| Adaptor.Bootstrap | MP4/client.c:144-151 | fills the two queues with the first and second half of the ids, the protocol's initial queues, without waiting |
| Adaptor.Balancer.OffloadLoop | MP4/utils.c:210-219 | sends the leading jobs of the queue in FIFO order as shifted frames, counts them, and loses a negative id it meets |
| Adaptor.Balancer.Adapt | MP4/utils.c:190-222 | what `adaptor` sends, takes and counts for every difference of the queues |
| Adaptor.Balancer.StateHandle | MP4/utils.c:169-188 | `state_handle` with `adaptor` decides as the protocol's reader does and carries an offload out without blocking |
| Loops.ComputeWorker | MP4/server.c:216-227 | the worker's loop on the linked queues and the 4096-entry slots in memory, until it leaves or would wait, has the specified effect on queues and array |
| Loops.WorkerComputesOnce | MP4/server.c:220-225 | that effect: every job before the first negative id is computed exactly once, and the ids are queued to be sent in the order of the queue; no other slot changes |
| Loops.RunClient | MP4/client.c:109-121 | client main's loop in memory, sentinels thrown away included, until the counter is full or it would wait |
| Loops.MainComputesOnce | MP4/client.c:109-121 | that loop's effect: if no job is queued twice, the fewest leading ids that fill the counter leave the queue, every job among them is computed once and counted, no other slot changes, and the loop ends with a full counter or waiting with an empty queue |
| Loops.WorkerAlone | MP4/server.c:216-227 | the protocol's worker, left alone with any queue, reaches exactly the state the loop in memory reaches, and can do no more |
| Loops.MainAlone | MP4/client.c:109-121 | the same for the protocol's client main |
| Queue.BoundedQueue.constructor | MP4/queue.c:59-68 | an empty valid list |
| Queue.BoundedQueue.Push | MP4/queue.c:13-31 | the list keeps head, tail, links and size right; the item goes to the end unless the queue is full; when it broadcasts |
| Queue.BoundedQueue.Pull | MP4/queue.c:38-53 | the head leaves the list and its node is freed; when it broadcasts |
| Queue.BoundedQueue.Destroy | MP4/queue.c:73-86 | frees every remaining node once |
| QueueMonitor.HistoryInv | MP4/queue.c:13-53 | after every history of any threads: the bound, first in first out, and nobody asleep without reason |
| QueueMonitor.NoLostWakeup | MP4/queue.c:17-51 | a thread asleep in a pull means an empty queue, one asleep in a push a full one, so the two never coexist |
| QueueMonitor.ConcurrentFifo | MP4/queue.c:21-52 | pushed items are the pulled ones followed by the contents, and a bound above zero is kept |
| QueueMonitor.CallsAccounted | MP4/queue.c:13-53 | after every history, for every thread: the items it has called `queue_push` with are, in order, those its passes have pushed and the one of a call under way; and so are its pulls |
| QueueMonitor.RunExactly | MP4/queue.c:18-51 | a pass puts its thread to sleep if and only if a push finds a bounded queue full or a pull an empty one, and wakes the others if and only if the queue was empty before a push or full before a pull |
| Wire.BeRoundTrip | MP4/utils.c:70-75 | every 32-bit integer survives `htonl` and `ntohl` (Appendix B of RFC 791) |
| Wire.BeOnto | MP4/utils.c:50-58 | every four bytes are the encoding of what is read from them |
| Wire.BeDigits | MP4/utils.c:70-75 | the four bytes are the digits of the 32-bit pattern to the base 256, the most significant first |
| Wire.FromBeDigits | MP4/utils.c:50-58 | and reading them gives the number with these digits, less 2^32 if the first is 128 or more |
| Wire.BeOrdered | MP4/utils.c:70-75 | integers of one sign are in the order of their bytes, the first byte that differs deciding, and the first byte is at least 128 exactly for negative ones |
| Wire.FrameBytes | MP4/utils.c:224-250 | the bytes of every kind of frame: ff ff ff ff and 16 bytes, 00 00 00 02, 00 00 00 00 with the id and 32768 bytes, and 00 00 00 00 ff ff ff ff |
| Wire.HostRoundTrip | MP4/utils.c:36-42 | the state record survives between hosts of one byte order |
| Wire.MixedByteOrder | MP4/utils.c:169-176 | between hosts of different byte order the size survives if and only if its bytes are a palindrome |
| Wire.HostDigits | MP4/utils.c:36-42 | in the state record the size has its least significant byte first exactly if the sender's host has |
| Wire.ParsesExactly | MP4/server.c:154-205 | for any bytes: how many the frame at the front takes, that a reader waits for exactly these, and which types it does not know |
| Wire.SeesExactly | MP4/client.c:209-244 | and what it makes of them: ids below 0 are not results, and only -1 is the server's sentinel |
| Wire.FrameRoundTrip | MP4/utils.c:224-250 | a frame of any kind is read back as sent, whatever follows it |
| Wire.StreamRoundTrip | MP4/server.c:192-203 | so is every sequence of frames; on the client's side without the final -1 |
| Senders.LineInv | MP4/utils.c:230-248 | with the mutex the bytes sent are whole frames and a prefix of the holder's, each thread's in its own order |
| Senders.MutexKeepsFrames | MP4/utils.c:203-207 | however threads and partial writes interleave, the stream parses to the frames in the order of their locks |
| Senders.PartIncomplete | MP4/utils.c:88-101 | no proper prefix of a frame is read as a frame |
| Senders.FramesInFlight | MP4/utils.c:103-117 | while a frame is being written a reader sees all frames before it and nothing else |
| Socket.Connection.ReadAll | MP4/utils.c:88-101 | with any short reads and interrupts, reads exactly the bytes asked, or reports the end or a failure |
| Socket.Connection.GetValue | MP4/utils.c:50-59 | reads one big-endian integer, or -2 |
| Socket.Connection.ServerReceive | MP4/server.c:154-205 | takes one frame off the stream exactly as the parser says |
| Socket.Connection.ProcessClient | MP4/server.c:192-205 | from the bytes of any frames, in any pieces, the server's loop sees those frames in order |
| Socket.Connection.ClientReceive | MP4/client.c:209-244 | takes one frame off the stream exactly as the parser says, with a body after every id |
| Socket.Connection.ReadFromServer | MP4/client.c:198-246 | from the bytes of any frames, in any pieces, the client's loop sees those frames in order, counts exactly the results, and stops reading with the one that fills the counter |
| Socket.ResultsCounted | MP4/client.c:221-227 | the results counted are the data frames with an id below the number of jobs, at whatever place in the stream |
| Socket.Connection.ServeThreads | MP4/server.c:192-205 | if any threads wrote the stream under the mutex, in any partial writes, the server's loop sees their frames in the order of the locks |
| Socket.Connection.ReadThreads | MP4/client.c:198-246 | so does the client's loop, up to the result that fills the counter |
| Socket.Connection.WriteAll | MP4/utils.c:103-117 | writes all bytes in order, or reports a failure |
| Socket.Connection.Transfer | MP4/utils.c:224-250 | unless a write fails, writes exactly one data frame, or the bare sentinel |
| Socket.Connection.SendState | MP4/utils.c:36-48 | unless a write fails, writes exactly one state frame |
| Admission.OverflowBound | MP2/mp2.c:145-151 | the product fits an `int` if and only if the processing time is at most 2147 |
| Arithmetic.WrapsExactly | MP2/mp2.c:145-151 | a product keeps its lowest 32 bits, as an `int` |
| Arithmetic.DividesExactly | MP2/mp2.c:145-151 | a quotient is rounded towards zero, whatever the signs |
| Arithmetic.TotalModulo | MP2/mp2.c:145-152 | the sum is that of all shares modulo 2^64, negative and overflowing ones included |
| Arithmetic.RegistersExactly | MP2/mp2.c:144-182 | for every list and request that divides without a fault, `registration` goes on to add the task if and only if that sum is at most 693000 |
| Admission.ShareExactly | MP2/mp2.c:145-151 | the share charged, quotient included, is the true truncated one if and only if the processing time is at most 2147, for every positive period of type `int` |
| Admission.OverflowAdmits | MP2/mp2.c:145-155 | a task that needs 4295 processors is admitted |
| Admission.TotalExact | MP2/mp2.c:145-152 | within the bounds the sum is that of the truncated shares, without wrap-around |
| Admission.AdmitsExactly | MP2/mp2.c:144-157 | a task is admitted if and only if its truncated share and those of the listed tasks add up to at most 693000 |
| Admission.OvertakenExactly | MP2/mp2.c:178-187 | adding an admitted task takes the list beyond 693000 if and only if what other events added to the list since its admission, less what they took off, exceeds the room that was left when it was admitted |
| Admission.RunBoundedExactly | MP2/mp2.c:178-187 | in any run the list keeps within 693000 all the time if and only if no admitted task is so overtaken before it is added |
| Mishaps.RegistrationsOverload | MP2/mp2.c:178-187 | that does happen: two registrations are admitted before either is added, and the list reaches 800000 |
| Admission.RunBounded | MP2/mp2.c:164-221 | in every run with at most m registrations between admission and insertion at a time, the list stays within m times 693000 |
| Admission.ShareReal | MP2/mp2.c:145 | a truncated share is less than a millionth below the real one |
| Admission.AdmissionBound | MP2/mp2.c:144-157 | in every such run n tasks use less than (693000 m + n) / 10^6 of the processor, and if registrations do not overlap up to 147 tasks use less than ln 2 |
| Admission.AdmissionComplete | MP2/mp2.c:144-157 | in every reachable state a candidate that keeps the real utilisation at or below 0.693 is admitted |
| Dispatching.ReferencesHold | MP2/mp2.c:204-219 | in every reachable state the addresses of all records are distinct, the running task is null or listed with a process, and no listed share is a division that faults |
| Dispatching.CrashesExactly | MP2/mp2.c:144-350 | in every reachable state an event dereferences null or is a divide error if and only if a registration has period 0, or period -1 with a product that wraps to INT_MIN, a command names a pid no listed task has, a yield ends for a record without a process, a callback finds no task of its pid, or a pass picks a task without a process |
| Crashes.EveryRecordBorn | MP2/mp2.c:164-174 | every record, listed, freed or about to be added, comes from a registration with its pid, period, processing time and process pointer |
| Crashes.NullExactly | MP2/mp2.c:305-347 | over every run: a pass crashes if and only if the task it picks was registered for a pid that no process had, and the last step of a yield if and only if its task was |
| Crashes.ProcessesSuffice | MP2/mp2.c:173 | so if every registration names a process no run dereferences a null process pointer |
| Mishaps.NullProcessCrashesYield | MP2/mp2.c:173-347 | a run, one registration and one yield, that does |
| Mishaps.NullProcessCrashesPass | MP2/mp2.c:173-305 | a run whose pass does |
| Mishaps.DivideError | MP2/mp2.c:145 | the first registration with period -1 and processing time 33554432 is a divide error |
| Crashes.StrandsExactly | MP2/mp2.c:204-236 | a step dooms a callback of a pid if and only if it de-registers the only listed task of the pid while the callback is in flight, or it is the expiry of a freed record's timer while no task of the pid is listed |
| Crashes.CallbackCrashesExactly | MP2/mp2.c:232-236 | over every run: a callback crashes if and only if it has been doomed by such a step and no task of the pid has been listed since |
| Crashes.FreedTimers | MP2/mp2.c:328-342 | in every run a freed record has its timer armed only after a yield found the record, then a de-registration freed it, and then a yield armed it |
| Mishaps.DeregistrationCrashesCallback | MP2/mp2.c:208-236 | a run, from the initial state, in which a de-registration dooms a callback in flight |
| Mishaps.FreedTimerCrashesCallback | MP2/mp2.c:328-342 | a run in which the timer of a freed record does, though no callback was in flight at any de-registration |
| Dispatching.PickIsFirstMinimum | MP2/mp2.c:270-282 | the loop finds the first READY task of the smallest period, and nothing if and only if no READY period is below INT_MAX |
| Turns.PassExactly | MP2/mp2.c:284-308 | over every run a pass that picks a task makes it RUNNING and the running one, makes the one that was READY exactly if its period is larger, and changes nothing else; a pass that picks none changes nothing |
| Turns.RunningExactly | MP2/mp2.c:209-307 | over every run `running_mptask` is the task that the last pass that picked one has picked, unless it was de-registered since |
| Priorities.DemotesExactly | MP2/mp2.c:284-300 | a pass lowers the priority of the running task's process if and only if no task is READY with a period below INT_MAX or one is with a smaller period than its own |
| Priorities.RunningElevated | MP2/mp2.c:284-307 | over every run, after a pass the running task's process has real-time priority if and only if some task was READY with a period below INT_MAX; otherwise it goes on running without |
| Priorities.SoleExactly | MP2/mp2.c:295-306 | over every run with unique pids a pass keeps "only the running task's process has real-time priority" if and only if it picks nobody, preempts, or nobody but the task it picks had it |
| Priorities.LeaverStaysElevated | MP2/mp2.c:198-221 | over every run a process that has real-time priority when its task is de-registered keeps it as long as no task of its pid is listed |
| Mishaps.LeaverStaysRealTime | MP2/mp2.c:198-221 | a run in which that happens |
| Priorities.PassCrashes | MP2/mp2.c:244-249 | in any state with distinct records a pass dereferences null if and only if a process whose priority it changes is null |
| Turns.ExpiresExactly | MP2/mp2.c:174 | a timer expires only at or after its deadline; then it is disarmed and one callback for the record's pid starts |
| Dispatching.RateMonotonicDispatch | MP2/mp2.c:270-308 | after a pass that finds the processes it uses every READY task finds `running_mptask` set to a task of no larger period, which need not itself be RUNNING, if and only if it was set before, or a task was READY with a period below INT_MAX, or none was READY; with nobody READY a pass promises nothing about it |
| Dispatching.PassSettles | MP2/mp2.c:295-307 | a preempted task has a larger period than its successor, and a pass right after a pass preempts nobody |
| Dispatching.LongestPeriodStarves | MP2/mp2.c:273-277 | in any state with valid references a pass starts no task of period INT_MAX, whatever else is listed |
| Dispatching.NeverRuns | MP2/mp2.c:273-277 | in no run does such a task ever become RUNNING |
| Dispatching.FocusedExactly | MP2/mp2.c:296-307 | a pass keeps "only the running task is RUNNING" if and only if it picks nobody, preempts, or found nobody RUNNING |
| Releases.DriftFree | MP2/mp2.c:330-333 | after every run a task that has moved its release on k times, first at t0, has it at t0 + k P, however late it was, listed or freed |
| Releases.DeadlinesAhead | MP2/mp2.c:335-342 | in every run, before a deadline was armed a yield of the timer's own task tested a release no later than the deadline, at a time no later than that release |
| Sleepers.WakesExactly | MP2/mp2.c:227-239 | a timer and its callback wake the timer's own task if and only if no task before it in the list has the same pid; otherwise the task keeps its state and has lost its timer |
| Sleepers.LostExactly | MP2/mp2.c:330-343 | with unique pids a step leaves a sleeper without an armed timer, or, in the stricter reading, without one armed at its release, and without a callback in flight or a yield about to arm it, if and only if it is a yield's write of SLEEPING, or a yield's return for a sleeping task whose release is over, in exactly that situation |
| Sleepers.SleepersAwaited | MP2/mp2.c:330-343 | over every run with unique pids, in either reading: no sleeper is ever left so if and only if no such step is made |
| Sleepers.LostFired | MP2/mp2.c:342-343 | if such a step is a write of SLEEPING, the timer expired after every arming of it by a yield |
| Mishaps.YieldLosesWakeup | MP2/mp2.c:342-343 | a run, with unique pids, that ends with a task asleep for ever because its timer fired before SLEEPING was written |
| Mishaps.LateYieldLosesWakeup | MP2/mp2.c:330-339 | a run, with unique pids, that ends so because a first yield was held up past its release before the test |
| Mishaps.SharedPidLosesWakeup | MP2/mp2.c:61-71 | a run that registers a pid twice, and ends with a task asleep for ever though no yield was overtaken |
| SchedulerModule.Scheduler.TaskByPid | MP2/mp2.c:61-71 | finds the first task with the pid |
| SchedulerModule.Scheduler.AdmissionControl | MP2/mp2.c:144-157 | the loop adds up what the specification adds up |
| SchedulerModule.Scheduler.RegistrationChecks | MP2/mp2.c:164-182 | `registration` up to its admission is the specified step, and gives the new record with its process pointer, null or not |
| SchedulerModule.Scheduler.RegistrationInserts | MP2/mp2.c:184-188 | adding the record is the specified step and keeps the list valid |
| SchedulerModule.Scheduler.Registration | MP2/mp2.c:164-190 | run alone, `registration` is the two steps, or the first if the task is refused |
| SchedulerModule.Scheduler.DeRegistration | MP2/mp2.c:198-221 | `de_registration` on the heap is the specified step, and leaves a valid list |
| SchedulerModule.Scheduler.YieldFinds | MP2/mp2.c:328 | the lookup of `yield_handle` is the specified step |
| SchedulerModule.Scheduler.YieldMoves | MP2/mp2.c:331-333 | so is the move of the release, on a record listed or freed |
| SchedulerModule.Scheduler.YieldTests | MP2/mp2.c:336-339 | so is the test, which ends the yield if the release is over |
| SchedulerModule.Scheduler.YieldArms | MP2/mp2.c:342 | so is `mod_timer` |
| SchedulerModule.Scheduler.YieldSleeps | MP2/mp2.c:343 | so is the write of the state |
| SchedulerModule.Scheduler.YieldParks | MP2/mp2.c:347 | and so is the end, for a record with a process |
| SchedulerModule.Scheduler.YieldHandle | MP2/mp2.c:321-350 | run alone, for a task with a process, `yield_handle` is these six steps, or the first three if it skips a period |
| SchedulerModule.Scheduler.Expires | MP2/mp2.c:174 | an expiring timer of a record, listed or freed, is disarmed and starts a callback for its pid |
| SchedulerModule.Scheduler.TimerCallback | MP2/mp2.c:227-239 | the callback with the lock is the specified step |
| SchedulerModule.Scheduler.ReadyTask | MP2/mp2.c:271-282 | the search loop finds the specified task |
| SchedulerModule.Scheduler.DispatcherPass | MP2/mp2.c:267-309 | a pass over the heap that finds the processes it uses is the specified step, and says whose process it lowers and whose it raises |
| Drain.Monitor | MP3/monitor.c:59-85 | for any buffer the monitor prints the specified rows, empties the specified words, and stops within 12000 rows |
| Drain.DrainExactly | MP3/monitor.c:59-85 | these rows are the words from the first filled one on, going round after 48000, up to the first row that would begin with -1 or 12000 of them; exactly their words are emptied |
| Drain.Search | MP3/monitor.c:60-61 | the first filled word, or the end |
| Samples.BufferHoldsRows | MP3/mp3.c:276-283 | after every run the buffer holds the samples taken, in order, and zeros after them |
| Samples.SampleInBuffer | MP3/mp3.c:278-281 | sample j is in the words 4 j to 4 j + 3: its time, the minor faults, the major faults, and the processor time in milliseconds |
| Samples.RoundTrip | MP3/monitor.c:59-85 | the monitor prints those samples in order, up to 12000, then zero rows up to 12000, if and only if no time stamp among them is -1, and then empties all of its 48000 words |
| Samples.SecondDrain | MP3/monitor.c:60-64 | a second drain prints a row nobody wrote if and only if the word after the last one is not -1 |
| Samples.OverrunExactly | MP3/mp3.c:278-288 | a sample is written outside the buffer if and only if 16384 were written before, and until then the test for a full buffer is false |
| Conservation.CollectConserves | MP3/mp3.c:257-269 | reading and resetting moves the minor faults, the major faults and the processor time, user and system, of each registered process into the sums once, even if its pid is registered twice |
| Conservation.CollectsExactly | MP3/mp3.c:257-263 | a collection sets the counters of exactly the live registered processes to zero |
| Conservation.Conserved | MP3/mp3.c:257-283 | over every run, modulo 2^64, for minor faults, major faults and processor time alike: what is in the samples, in hand and not yet read is together the initial amount and what was incurred, less what ended unread with its process |
| Conservation.CountersFit | MP3/mp3.c:249-267 | over every run that starts with counters below 2^64 all counters and sums stay below 2^64 |
| Conservation.CollectResets | MP3/mp3_given.h:22-43 | after a collection every live registered process starts from zero |
| Registry.LeavesExactly | MP3/mp3.c:228-230 | an unregistration takes exactly the first entry of its pid off the list, and dereferences null if and only if there is none |
| Registry.JoinsExactly | MP3/mp3.c:201-208 | the critical section of `registration` puts the pid at the head of the list, and queues the work if the list was seen empty |
| Registry.RegistrationsCounted | MP3/mp3.c:179-242 | over every run each pid is listed or about to be added as often as it registered less as often as it left |
| Sampler.LullsExactly | MP3/mp3.c:183-238 | from a state in which the work is queued or under way if anybody is registered, a step leads to one where it is not if and only if a process that saw the list filled is added to an empty list with the work gone, or an unregistration that saw it empty cancels the queued work of somebody added since |
| Sampler.SamplerAwake | MP3/mp3.c:183-238 | over every run: the sampler is awake all the time while anybody is registered if and only if neither step is made |
| Sampler.HandlersApart | MP3/mp3.c:179-242 | if registrations and unregistrations do not overlap, it always is |
| Sampler.SleepsOn | MP3/mp3.c:200-207 | a sampler asleep writes no sample and wakes if and only if the list empties or a process is added that saw it empty |
| Sampler.JoinsAsleep | MP3/mp3.c:183-205 | a run of the first kind: registered and never sampled |
| Sampler.CancelledAsleep | MP3/mp3.c:230-235 | a run of the second kind |
| Sampler.IdleExactly | MP3/mp3.c:234-291 | a step leads to work queued with nobody registered and nobody unregistering if and only if the work function queues itself in such a state |
| Sampler.SamplesSomebody | MP3/mp3.c:234-291 | over every run: that state is never met if and only if the work function never queues itself so |
| Sampler.SamplesNobody | MP3/mp3.c:234-238 | a run in which it does, the last task having left while it ran |
| ProfilerModule.ProfilerState.constructor | MP3/mp3.c:317-318 | the buffer starts as zeros |
| ProfilerModule.ProfilerState.GetCpuUse | MP3/mp3_given.h:22-43 | gives the counters of the first process with the pid and zeroes them, or -1 |
| ProfilerModule.ProfilerState.Collect | MP3/mp3.c:254-270 | the loop over the list collects the specified sums |
| ProfilerModule.ProfilerState.Write | MP3/mp3.c:276-283 | writes the four words of a sample and nothing else |
| ProfilerModule.ProfilerState.WorkFunc | MP3/mp3.c:247-292 | uninterrupted, the whole function is its four specified steps |
| ProfilerModule.ProfilerState.RegistrationLooks | MP3/mp3.c:183 | `registration` up to the lock is the specified step and keeps what it saw |
| ProfilerModule.ProfilerState.RegistrationAdds | MP3/mp3.c:201-208 | its critical section: the pid goes to the head of the list, and the work is queued if the list was seen empty |
| ProfilerModule.ProfilerState.Registration | MP3/mp3.c:179-212 | run alone, the two steps; the work is queued if the list was empty |
| ProfilerModule.ProfilerState.UnregistrationRemoves | MP3/mp3.c:228-231 | the critical section of `unregistration`: the first entry of the pid goes from the list, the others stay as they are |
| ProfilerModule.ProfilerState.UnregistrationLooks | MP3/mp3.c:234 | its look at the list after that is the specified step |
| ProfilerModule.ProfilerState.UnregistrationCancels | MP3/mp3.c:235 | and so is the cancelling of the queued work |
| ProfilerModule.ProfilerState.Unregistration | MP3/mp3.c:219-242 | run alone, the two or three steps; the work is cancelled if the list is empty |

## Left out

- Socket set-up, accept and connect, signals, getaddrinfo, file output, the throttle typed on stdin, and all sleeps: sockets are byte streams cut into arbitrary pieces.
- The throttle field of the state frame: its bits are converted as an integer, so it does not round-trip; floating-point addition is a parameter.
- I/O failures beyond what `Socket` reports: ids of -2, and the server storing a body that ends early.
- What the client does after the echoed -1, when it waits for a body that is never sent: its reader stops there.
- job_server_done, job_sent and CPU figures in the step machine: they steer nothing.
- An `int` overflow of a queue's size and failing allocations.
- Adaptor.Balancer.StateHandle: no other thread touches the queue while it runs, and the state record arrives as a value; `OffloadLoop` and `Socket` have the interleavings and the bytes.
- Loops.RunClient: the mutex around the counter; the step machine has the other threads that count.
- A process of MP2 that ends while it is registered, whose pointer dangles, and a list that changes under the unlocked lookup of a yield: a lookup is one step.
- Commands of MP2 that do not parse, failing allocations, and unloading the module.
- Wrap-around of `jiffies` in MP2 and MP3.
- Waking and suspending processes in MP2, except that a null process makes them crash, and the list shown by reads.
- "At most one RUNNING task" in MP2: the code does not keep it; `Dispatching.FocusedExactly` says when it does.
- Admission.RunBounded: more than 2^32 registrations at a time.
- Samples.RoundTrip: the profiler is idle while the monitor drains.
- Conservation.Conserved: get_cpu_use is atomic; the conversion of processor time to milliseconds is a parameter.
- `flush_workqueue`, which only delays the unregistering process, page mapping and proc files of MP3.
- MP1, the user programs, and the unbuilt drafts of MP3 and MP4.
