# RDMA-wheel: a verified model of the two-peer protocol

RDMA-wheel moves blocks of memory between two processes over an RDMA connection. The sender never
copies data: `send_data` records the block in `map_table_`, announces it with a READ_REQUEST, the
other side reads it with a one-sided RDMA read, and a READ_OVER tells the sender to let go of it. All
announcements of a connection share one 20-byte `outgoing_` and one 20-byte `incoming_` buffer, guarded
by `local_status_` and `remote_status_`, two locks that are taken by a worker thread on one machine and
released by completions and ACKs from both. On top of this lie a sync barrier that counts bytes and a
three-message close.

This project models two such peers joined by a reliable link as a transition system and proves what
holds over whole runs: the locks are tokens that are never lost, duplicated or released late; the shared
buffers are never overwritten early; every block passes once through its life and is read once, byte
for byte, while its memory is alive; the protocol terminates and never deadlocks; the barrier's flag
means what it says; a disciplined close loses nothing and always completes; 100 posted receives are enough.
It also shows, each with a run that reaches it and the exact condition, where the code does not keep a
promise: any round of the barrier can hang when a READ_REQUEST overtakes its SYNC_REQUEST; `wait_for_sync`
can return with nothing read when it is woken for no reason, after which the next flag may be the answer to
another round; a request that meets a closing session is dropped without an ACK, which loses its block and
locks its sender for good; and a close right after `send_data` may leave the block behind.

## How the model is built

* `Words`, `Message` - machine words, the 20-byte layout, the prefix each message type carries, and the
  byte-copying code.
* `Protocol` - the state of one peer and, as functions, what each source function does to it. Fields and
  parameters called bookkeeping (transfer identities, lock rounds, logs) are read by no branch.
* `Channels`, `Sessions`, `Endpoints` - the source's classes, with mutable fields, arrays and loops. A method
  named after a function of module `Protocol` or a step of module `System` is proved equal to it; the methods
  of the completion loop are proved against handling every completion once and in order. The completion
  queue, its arming and its events are one type, `Queue`, whose operations and whose invariant
  `NothingStranded` the loop in `Sessions` and the steps of `System` share.
* `SessionRuns` - what the session's thread does with its completions is a run of the system.
* `Buffers` - `RDMA_Buffer`: who owns the memory behind it, and which bytes it covers.
* `System` - two peers and the link. One step is an application call, a worker evaluating the wait
  predicate, an unlock or nolock task, the card gathering, delivering or completing a message or a read,
  or one move of the completion loop. Any interleaving of steps is a run.
* `Bags`, `Ledger`, `Frames` - pools, queues and links are sequences whose elements are weighed. `Ledger`
  proves once, for every choice of weights, that each step adds and removes exactly what it lists, and
  every conservation law below chooses its weights. `Frames` says which parts of a peer a step can change.
* `CompletionLoop`, `Wakeups`, `LockTokens`, `SharedBuffers`, `Lifecycle`, `Stages`, `Tables`, `Lifetimes`,
  `Counting`, `Credits` - one invariant each, kept by every step. `Reachable` puts them together and lifts
  them to runs; `Guarantees` restates them for every run.
* `Progress`, `Delivery` - a measure every step lowers, no deadlock, and what every finished run has done.
* `SecondSend` - what the code does with a block that is sent again too early.
* `Barriers` - the sync barrier over all rounds.
* `CloseHandshake`, `BarrierThenClose` - the close, and the way the benchmark program uses it.
* `Schedules` - pieces of concrete runs. `Overtaking`, `EarlyReturn`, `StaleFlag`, `Dropping` and
  `CloseAnytime` build the runs in which a promise fails out of them, and say when it does.
* `FlagChecked` - what keeps the flag sound although waits end early.
* `Traffic` - how many messages can be on their way to one peer.

A run is a list of actions; `Leads(rule, s, trace, t)` says that `trace` takes the pair of peers `s` to `t`
and that the applications obey `rule`. Statements about "every run" hold for every rule, trace and state.

## What the environment is assumed to do

Posts succeed. The link is first-in-first-out and exactly-once in each direction; a write with immediate
data places its bytes before its receive completion appears; a message is delivered only when a receive
is posted and the completion queue has room. The card may copy `outgoing_` at any moment between the post
of a write and its delivery. Live objects and their blocks have distinct addresses and none is null, and
the application neither writes to a block nor sends it again before it is released. Block sizes are
positive and below 2^31, because `data_recv_success` takes an `int`. The scheduler may wake any waiting
thread for no reason. For a worker this is harmless; for the caller of `wait_for_sync` it is the step
ReturnEarly, which the rule of the barrier's rounds, `ByRounds`, excludes and the rules `ByRoundsEarly` and
`ChecksFlag` allow.

## Model

| member | source | states |
|---|---|---|
| Message.FillMessageContent | src/rdma_message.cpp:19-24 | Writes address and size over the first 16 bytes and the rkey over the last four only when there is a region; nothing else of the buffer changes. |
| Message.ParseMessageContent | src/rdma_message.cpp:26-35 | Reads the three little-endian fields back, for any 20 bytes. |
| Message.ParseOfFill | src/rdma_message.cpp:19-35 | Parsing a filled buffer returns the fields filled in, and the stale rkey when none was. |
| Words.ByteAt | src/rdma_message.cpp:21-32 | Words lie in memory lowest byte first. |
| SharedBuffers.FillCarries | src/rdma_message.cpp:104-114 | Each task body fills in all it means, zeros included, and only a request touches the stale key. |
| Message.PrefixRoundTrip | src/rdma_message.h:44-53 | Copying only the prefix of a message type over any stale 20 bytes, then parsing, recovers every field that type's handler uses and keeps all bytes past the prefix. |
| Message.PrefixIsTight | src/rdma_message.h:44-53 | For each attached type a prefix one byte shorter would lose a field: some content decodes differently. |
| Channels.RdmaChannel.constructor | src/rdma_channel.cpp:15-59 | The loop posts 100 receives; both statuses are IDLE, the table and pools are empty, the counters 0. |
| Channels.RdmaChannel.RequestRead | src/rdma_channel.cpp:80-90 | Queues the request for a worker that will hold both locks; nothing else changes. |
| Channels.RdmaChannel.Write | src/rdma_channel.cpp:94-120 | Posts a write with immediate of exactly the type's prefix, after everything posted before. |
| Channels.RdmaChannel.Send | src/rdma_channel.cpp:122-146 | Posts a message without content, needing no lock. |
| Channels.RdmaChannel.Recv | src/rdma_channel.cpp:148-158 | Gives back one receive. |
| Channels.RdmaChannel.ReadData | src/rdma_channel.cpp:160-185 | Posts a read into the destination of the size, address and key the message named. |
| Channels.RdmaChannel.DataRecvSuccess | src/rdma_channel.cpp:189-193 | Adds a signed `int` to the 64-bit counter with wrap-around; true exactly when the target is then met. |
| Channels.RdmaChannel.TargetCountSet | src/rdma_channel.cpp:195-200 | Restarts the counter at 0 with the new target. |
| Channels.RdmaChannel.FindInTable | src/rdma_channel.cpp:204-221 | Returns the entry, or 0 for a missing key, and erases it when asked to. |
| Channels.RdmaChannel.InsertToTable | src/rdma_channel.cpp:223-230 | Inserts, but leaves an existing entry alone. |
| Tables.InsertKeeps | src/rdma_channel.cpp:227-229 | For a key that is there the lookup is unchanged by the insert; for a new one it gives the inserted value; other keys and the objects are untouched. |
| Tables.MissingKey | src/rdma_channel.cpp:208-212 | A key that is not there yields 0, and deleting what it yields deletes nothing. |
| Tables.EraseForgets | src/rdma_channel.cpp:216-218 | After the erasing lookup the key yields 0, and no other lookup changed. |
| SecondSend.SecondSendLeaks | src/rdma_channel.cpp:227-229 | A block sent again before its release: the table keeps the first object, the first READ_OVER releases it, the second finds no entry and deletes nothing, and the second object stays under no key. |
| SecondSend.ClosesOnFirst | src/rdma_message.cpp:171-179 | And a closing session may end at the first READ_OVER, with the second request outstanding. |
| Channels.RdmaChannel.GetTableSize | src/rdma_channel.cpp:232-237 | The number of entries. |
| Channels.RdmaChannel.DeleteBuffer | src/rdma_message.cpp:172 | Deletes the object at an address; deleting null does nothing. |
| Channels.RdmaChannel.TaskWithLock | src/rdma_channel.cpp:241-252 | The task joins the work pool. |
| Channels.RdmaChannel.RunTask | src/rdma_message.cpp:99-117 | The three task bodies: a request is recorded in the table, each fills the outgoing buffer its own way and posts its own prefix length. |
| Channels.RdmaChannel.LockAndRun | src/rdma_channel.cpp:247-250 | Both statuses become LOCK and the task runs under them, in one step. |
| Channels.RdmaChannel.CheckTask | src/rdma_channel.cpp:245-250 | One evaluation of the wait predicate: the task takes both locks and runs, or sleeps. |
| Channels.RdmaChannel.TaskWithoutLock | src/rdma_channel.cpp:254-260 | The task joins the nolock pool. |
| Channels.RdmaChannel.ReleaseLocal | src/rdma_channel.cpp:262-270 | An unlock task joins the unlock pool. |
| Channels.RdmaChannel.ReleaseRemote | src/rdma_channel.cpp:272-280 | The same for the other lock. |
| Channels.RdmaChannel.UnlockTask | src/rdma_channel.cpp:264-269 | One status becomes IDLE and one sleeper, if there is one, is awake again. |
| Channels.RdmaChannel.AcceptTask | src/rdma_message.cpp:154-162 | Allocates a destination, maps it to the sender's block address, and posts the read. |
| Counting.AllocatedSize | src/rdma_message.cpp:156 | The announced size passes through an `int`: the destination has it if and only if it is below 2^31 or the image of a negative number, and else agrees in the low 32 bits. |
| Counting.CountedSize | src/rdma_channel.cpp:189-193 | So does the size that is counted. |
| Sessions.RdmaSession.constructor | src/rdma_session.cpp:51-69 | Starts with an empty, armed completion queue and a peer in the initial state of the system. |
| Sessions.RdmaSession.SendMessageToChannel | src/rdma_message.cpp:86-121 | Five types bypass the locks; SYNC_REQUEST lowers the flag first; the unsupported type does nothing. |
| Sessions.RdmaSession.ProcessSyncRequest | src/rdma_message.cpp:137-146 | Dropped without ACK unless the session works; otherwise ACK, then the new target decoded from the buffer. |
| Sessions.RdmaSession.ProcessReadRequest | src/rdma_message.cpp:147-165 | Dropped without ACK unless the session works; otherwise ACK, then a task that holds a copy of the content. |
| Sessions.RdmaSession.ReleaseBuffer | src/rdma_message.cpp:171-172 | The entry is found and erased and the object it names deleted; a missing entry deletes nothing. |
| Sessions.RdmaSession.TerminateIfDone | src/rdma_message.cpp:175-179 | CLOSE_TERMINATE and CLOSED exactly when the session is closing and the table empty. |
| Sessions.RdmaSession.ProcessReadOver | src/rdma_message.cpp:166-182 | ACK, release, and perhaps termination, in this order. |
| Sessions.RdmaSession.ProcessContent | src/rdma_message.cpp:135-185 | The switch over the attached types. |
| Sessions.RdmaSession.ProcessAttachedMessage | src/rdma_message.cpp:126-186 | Gives the receive back, then handles each type as above. |
| Sessions.RdmaSession.ProcessImmediateMessage | src/rdma_message.cpp:189-248 | Gives the receive back; ACK releases the remote lock; the close messages move the status, depending on the table and on whether the session is a daemon's; SYNC_ACK raises the flag. |
| Sessions.RdmaSession.ProcessWriteSuccess | src/rdma_message.cpp:252-263 | Releases the local lock. |
| Sessions.RdmaSession.CountRead | src/rdma_message.cpp:280-284 | Counts the destination's size; SYNC_ACK exactly when the target is met. |
| Sessions.RdmaSession.ReturnBuffer | src/rdma_message.cpp:287-290 | READ_OVER with the address found in the table, which is erased, and the destination deleted. |
| Sessions.RdmaSession.ProcessReadSuccess | src/rdma_message.cpp:272-292 | Both, in order. |
| Sessions.RdmaSession.Dispatch | src/rdma_session.cpp:260-279 | Each opcode goes to its handler; a finished send and an unsupported opcode change nothing. |
| SessionRuns.HandlingIsTheStep | src/rdma_session.cpp:260-279 | What the thread does with a completion is exactly the step Handle of the system. |
| SessionRuns.BatchIsRun | src/rdma_session.cpp:251-280 | Handling a batch, whatever finished sends and unsupported opcodes are among it, is a run of the system: one step Handle per completion and nothing else. |
| SessionRuns.ServingStaysReachable | src/rdma_session.cpp:222-281 | So from a reachable state the thread reaches reachable states only, and all that holds of every run holds of the session. |
| SessionRuns.QueuesAgree | src/rdma_session.cpp:229-249 | Arrival, taking an event, re-arming and the next of a batch are the same operations in the session and in the system. |
| SessionRuns.PollsAgree | src/rdma_session.cpp:249 | So is a poll. |
| Sessions.RdmaSession.Interrupt | src/rdma_session.cpp:229-249 | Between any two actions of the thread exactly as many completions arrive as are scheduled, pending, and fit the queue. |
| Sessions.RdmaSession.AwaitEvent | src/rdma_session.cpp:229-233 | Waiting ends with an event, or at the end of all arrivals; a queue with completions always has an event. |
| Sessions.RdmaSession.TakeEvent | src/rdma_session.cpp:229-249 | Acknowledge, re-arm, poll: whatever arrives in between, everything raised so far is polled or will raise an event, in order; if re-arming fails nothing is lost. |
| Sessions.RdmaSession.HandleBatch | src/rdma_session.cpp:251-280 | Handles the polled batch in order up to its first failed completion, for any arrivals meanwhile. |
| Sessions.RdmaSession.ServeEvent | src/rdma_session.cpp:229-280 | One round: what was handled and what is still to come are together, in order, what was coming before. |
| Sessions.RdmaSession.Pass | src/rdma_session.cpp:222-281 | One pass waits for an event before anything else; it sleeps only when nothing more is scheduled, and takes two calls. |
| Sessions.RdmaSession.Serve | src/rdma_session.cpp:222-281 | Every completion is handled once and in order until the loop ends: closed, at the first failed completion, or at a failed call once the good ones are used up. It sleeps only with an empty, armed queue and nothing more scheduled. |
| Sessions.RdmaSession.ProcessCQ | src/rdma_session.cpp:219-287 | The same for the whole thread, which first sets the status to WORK. If the schedule delivers all completions, a thread that sleeps has handled them all; the daemon, if there is one, is closed only when the session was closed. |
| Endpoints.RdmaEndpoint.constructor | src/rdma_endpoint.cpp:14-15 | Starts unconnected. |
| Endpoints.RdmaEndpoint.Connect | src/rdma_endpoint.cpp:96-122 | Only the first connect sets the peer's buffer address and key. |
| Endpoints.RdmaEndpoint.SendData | src/rdma_endpoint.cpp:145-148 | For any buffer, in use or not: its object is live and its request queued, with the buffer's own address, size, key and bytes. The step of the system is the same function, for addresses not in use. |
| Endpoints.RdmaEndpoint.SendRawData | src/rdma_endpoint.cpp:150-155 | Registers exactly the memory it was given and sends exactly its bytes. |
| Endpoints.RdmaEndpoint.SetSyncBarrier | src/rdma_endpoint.cpp:159-162 | Exactly the system's step: flag down and SYNC_REQUEST queued, with the `int` sign-extended. |
| Endpoints.RdmaEndpoint.WaitForSync | src/rdma_endpoint.cpp:164-171 | The flag is tested once: up, the caller goes through; down, it goes through with whatever wakes it. |
| Endpoints.RdmaEndpoint.CloseEndpoint | src/rdma_endpoint.cpp:124-133 | CLOSE is sent when connected, and nothing otherwise. |
| Buffers.RdmaBuffer.constructor | src/rdma_buffer.cpp:15-41 | With an address: registers that memory, owns only the registration. Without: takes a pool block and owns it. |
| Buffers.RdmaBuffer.SliceOf | src/rdma_buffer.cpp:43-49 | A slice begins at the offset, shares region and block, and owns neither. |
| Buffers.RdmaBuffer.Destroy | src/rdma_buffer.cpp:51-67 | Frees the block, or deregisters the region, of an owner; a slice gives nothing back. |
| Buffers.ReleasedByOwners | src/rdma_buffer.cpp:51-67 | Over any program that deletes no buffer twice: each block and region has one owner and was given back once if that owner was deleted, and otherwise not at all. |
| Buffers.UsableWhileSource | src/rdma_buffer.cpp:43-67 | Every slice, of a slice or not, lies inside its source and is usable if and only if the source is not deleted. |
| Buffers.EachIsMade | src/rdma_buffer.cpp:15-49 | Over any program every buffer is and stays what was asked for: a registered one covers exactly the application's memory, an owned one exactly its block, and a slice holds, in any memory, its source's bytes from the offset on. |
| Buffers.SliceOfSlice | src/rdma_buffer.cpp:43-49 | The offsets of a slice of a slice add up. |
| Buffers.SlicesDisjoint | src/rdma_buffer.cpp:47 | Slices of one source with disjoint offset ranges share no byte. |
| Buffers.OneTile | benchmark.cpp:81-87 | Slices cut at 0, n, 2n, .. cover each byte of the source by exactly one of them. |
| Buffers.TilesAreTheSource | benchmark.cpp:81-87 | One after the other they are the source. |
| Buffers.BenchmarkBlock | benchmark.cpp:81-87 | The i-th block the benchmark sends holds the bytes of its data from i n on. |
| Buffers.InsideItsRegion | src/rdma_buffer.cpp:20-24 | Over any program every buffer lies inside what its region registered, and an owner is all of it. |
| Ledger.Balanced | src/rdma_message.cpp:126-292 | For every weighting, each step of the acting peer changes the weight of everything it holds by exactly the listed gains and losses. |
| Reachable.InvKept | src/rdma_channel.cpp:241-280 | All invariants together are kept by every step of either peer. |
| Reachable.RunsAreGood | src/rdma_channel.cpp:241-280 | And so hold in every state of every run. |
| LockTokens.OneTokenKept | src/rdma_channel.cpp:241-280 | For each lock and each round, held means one token and free means none: posted or placed write, completion, message, ACK, unlock task, or a dropped message. Kept by every step. |
| Guarantees.LocksAreTokens | src/rdma_channel.cpp:241-252 | In every run a status is LOCK if and only if exactly one token for it exists; never are there two. |
| Guarantees.NoStaleUnlock | src/rdma_channel.cpp:262-280 | In every run each pending unlock task belongs to the round in which its lock is held. |
| SharedBuffers.BuffersIntactKept | src/rdma_message.cpp:19-35 | Every posted write carries, or will gather, what its task filled in, and every unparsed message decodes to it: kept by every step. |
| Guarantees.OutgoingHeld | src/rdma_channel.cpp:94-110 | In every run, from the post of a write until its completion is handled no step refills the outgoing buffer. |
| Guarantees.IncomingHeld | src/rdma_message.cpp:141-142 | In every run, from the delivery of a message until it is handled no step changes the incoming buffer. |
| Guarantees.HandlersDecode | src/rdma_message.cpp:141-169 | In every run a handler decodes exactly the fields the sending task filled. |
| Wakeups.NoLostWakeupKept | src/rdma_channel.cpp:243-251 | With four workers, `notify_one`, newcomers and spurious wakeups: a free lock never finds all waiting workers asleep. |
| Guarantees.SomeoneIsAwake | src/rdma_channel.cpp:264-279 | The same in every run. |
| Guarantees.FourWorkers | src/rdma_channel.h:20-23 | In every run at most four workers run or wait. |
| CompletionLoop.NothingStrandedKept | src/rdma_session.cpp:222-249 | One-shot arming and re-arming before the poll keep an event pending whenever the loop waits with completions queued. |
| Guarantees.NeverStranded | src/rdma_session.cpp:222-249 | The same in every run. |
| Lifecycle.ConservedKept | src/rdma_message.cpp:147-182 | For every stage, the transfers found there are as a multiset those that entered and did not leave: kept by every step of either peer. |
| Stages.ExactlyOneStage | src/rdma_message.cpp:147-182 | A buffer handed to send_data is found once, in the one stage its logs give; any other transfer in none. |
| Stages.SenderMovesForward | src/rdma_channel.cpp:80-90 | A step of the sender moves at most one of its transfers, one stage forward. |
| Stages.ReceiverMovesForward | src/rdma_message.cpp:272-292 | So does a step of the receiver. |
| Guarantees.OneStage | src/rdma_channel.cpp:80-90 | Exactly one stage, in every run. |
| Guarantees.OnlyForward | src/rdma_message.cpp:147-182 | Along every run a buffer never returns to an earlier stage. |
| Guarantees.ReadOnce | src/rdma_message.cpp:272-292 | A buffer is announced, read and released at most once, only sent ones are read, and each read brought the sender's own bytes. |
| Guarantees.LiveWhileUnderWay | src/rdma_channel.cpp:85-88 | While a transfer is anywhere between announcement and release, its entry is in the sender's table and its object alive. |
| Guarantees.ReadsHitTheirSource | src/rdma_channel.cpp:160-185 | Every posted read names one live registered block, the right one, and finds its bytes. |
| Guarantees.ReturnsFind | src/rdma_message.cpp:287-288 | The lookup of a read completion never falls back to 0 and names the sender's block, also when addresses are reused. |
| Guarantees.OversFind | src/rdma_message.cpp:171-172 | The lookup of a READ_OVER succeeds and deletes its own transfer's object, which is still alive. |
| Guarantees.TablesCorrespond | src/rdma_channel.cpp:204-230 | The receiver's entries map distinct destinations to distinct entries of the sender's table. |
| Tables.RequestKeyFree | src/rdma_channel.cpp:226-229 | The key of a request is never taken, so the insert always inserts. |
| Lifetimes.ActionConsistent | src/rdma_channel.cpp:204-230 | Table, objects, posted reads and completions of the acting peer stay in exact correspondence. |
| Counting.CountExactKept | src/rdma_channel.cpp:189-200 | The counter is the bytes of the completions handled since the last accepted SYNC_REQUEST, modulo 2^64. |
| Counting.AckPrecisely | src/rdma_message.cpp:280-284 | SYNC_ACK is sent exactly when those bytes meet the target. |
| Counting.NoSecondAck | src/rdma_message.cpp:280-284 | A completion handled when the target is already met or passed does not meet it again, short of 2^64 bytes. |
| Traffic.AcksAlong | src/rdma_channel.cpp:189-200 | Along any part of a run, SYNC_ACKs posted are at most SYNC_REQUESTs accepted, plus one if the target was still ahead at its beginning, less one if it is at its end. |
| Traffic.OneAckPerRequest | src/rdma_message.cpp:280-284 | In every run SYNC_ACK is posted at most once per accepted SYNC_REQUEST: from the start no more than were accepted, and between two acceptances at most one. |
| Guarantees.CountsAreExact | src/rdma_channel.cpp:189-200 | The counter is exact in every run. |
| Guarantees.CreditsConserved | src/rdma_channel.cpp:19-22 | Posted receives and unhandled receive completions make 100, in every run. |
| Traffic.CreditsSuffice | src/rdma_channel.cpp:19-22 | If each application calls close at most once, no more than one attached message, one ACK, two SYNC_ACKs and four close messages are on their way to a peer, in every run and kind by kind, and these are all: at least 92 receives stay posted. |
| Traffic.AnswererStream | src/rdma_message.cpp:137-165 | ACKs and SYNC_ACKs reach the other peer's handlers in the order they were posted. |
| Traffic.AskedUnanswered | src/rdma_message.cpp:141-142 | While an attached message waits to be handled, no ACK is on its way to its sender. |
| Progress.StepsWork | src/rdma_channel.cpp:241-280 | Every step of the protocol itself lowers a weighted measure of what is pending; a call of the application raises it by a constant. |
| Progress.RunsAreBounded | src/rdma_channel.cpp:241-280 | So a run takes at most 62 steps per send, 28 per barrier, 15 per close and one per spurious wakeup. |
| Progress.NoDeadlock | src/rdma_channel.cpp:254-280 | While both sessions poll and nothing was dropped, pending work means that some step of the protocol is possible. |
| Delivery.MaximalRunsDeliver | src/rdma_message.cpp:126-186 | A run without close that can go no further, both ways: locks IDLE, tables and heaps empty, every block sent was read once and released once, with its own bytes. |
| Delivery.EverythingThrough | src/rdma_message.cpp:147-182 | With no work left and nothing dropped, what was sent, what was read and what was released are the same multiset. |
| Delivery.NothingKept | src/rdma_channel.cpp:204-230 | And table and heap are empty. |
| Barriers.SetterKeepsRounds | src/rdma_message.cpp:99-108 | The steps of the peer that sets barriers keep its rounds in order. |
| Barriers.CounterKeepsRounds | src/rdma_message.cpp:137-146 | So do those of the peer that counts, though requests may overtake the SYNC_REQUEST. |
| Barriers.FlagIsSafe | src/rdma_message.cpp:238-243 | Over any number of rounds: when the flag is up, every block sent so far was read by the peer, which holds its bytes. |
| Barriers.FlagRisesIff | src/rdma_message.cpp:280-284 | With a round fully sent and the protocol at rest, the flag is up if and only if no byte of the round had been counted when its SYNC_REQUEST was accepted. |
| Barriers.OvertakenForever | src/rdma_channel.cpp:195-200 | A round some of whose bytes were counted too early never ends, in any continuation. |
| Barriers.PatientRoundsEnd | src/rdma_endpoint.cpp:159-171 | If no block is sent before its SYNC_REQUEST was accepted, the flag is up whenever the round is sent and the protocol at rest. |
| Barriers.ReturnIsSafeIff | src/rdma_endpoint.cpp:164-171 | Whenever an application waits for a round: the flag is up or its SYNC_ACK is on the way if and only if the round is fully sent, all of it was read, its SYNC_REQUEST was accepted, and none of its bytes had been counted then. |
| Barriers.PatientReturnIsSafeIff | src/rdma_endpoint.cpp:164-171 | If no block is sent before its SYNC_REQUEST was accepted, that all was read is enough. |
| FlagChecked.FlagStaysSafe | src/rdma_message.cpp:238-243 | Any waits may end early; if the next barrier is set only when the last round is over, then whenever the flag is up every block sent so far was read, byte for byte. |
| FlagChecked.RoundOverIffFlag | src/rdma_endpoint.cpp:159-162 | In such runs the last round is over - nothing asked, answered or unread is outstanding, and the counter is not below its target - if and only if the flag is up, or there was no round yet. |
| FlagChecked.CheckedReturnIsSafeIff | src/rdma_endpoint.cpp:164-171 | The condition of a safe return holds in these runs, too. |
| FlagChecked.RoundsCheck | src/rdma_endpoint.cpp:159-171 | Runs by rounds without early returns are among them. |
| Overtaking.OvertakingHappens | src/rdma_channel.cpp:243-250 | Whenever the peers rest between rounds, for every barrier size and every block within it: two workers start in order, the second gets the locks first, the block is read, and in no continuation does the flag come up. |
| Overtaking.EveryRoundMayHang | src/rdma_channel.cpp:243-250 | Whatever state the rounds lead to, once the protocol has come to rest and the last round is over, the next round may hang like this. |
| Overtaking.FirstRoundMayHang | src/rdma_channel.cpp:243-250 | So may the first, with one byte sent. |
| EarlyReturn.EarlyReturnHappens | src/rdma_endpoint.cpp:166-170 | Whenever the peers rest between rounds, for every barrier size and block: a spurious wakeup ends the wait with the block sent and not read. |
| StaleFlag.AckArrives | src/rdma_session.cpp:222-281 | Whatever else is under way, a SYNC_ACK on its way can be brought home without anything being read meanwhile. |
| StaleFlag.StaleFlagHappens | src/rdma_message.cpp:101-243 | Whenever a SYNC_ACK is on its way: an early return, the next barrier and a block, and the old SYNC_ACK raises the flag with the block unread. |
| StaleFlag.EveryRoundMayGoStale | src/rdma_message.cpp:238-243 | That moment comes in every round that ends: just before its flag rises. |
| StaleFlag.PoisonedRound | src/rdma_channel.cpp:189-200 | Nothing outstanding and everything read is not enough: with the counter below its target, a block of the next round that overtakes its SYNC_REQUEST meets the old target, and the flag rises with another block unread. |
| StaleFlag.BarrierIsSafeIff | src/rdma_endpoint.cpp:159-162 | At rest, the flag can be trusted in all continuations by rounds if and only if it is up when the barrier is set, or this is the first barrier, as long as an `int` has room for one byte more than the counter is short. |
| CloseHandshake.CloserFollows | src/rdma_message.cpp:166-237 | Every step of the closing peer is a step of a small handshake automaton. |
| CloseHandshake.PeerFollows | src/rdma_message.cpp:205-237 | So is every step of the other peer. |
| CloseHandshake.CloserKeeps | src/rdma_message.cpp:175-179 | The automaton keeps its invariant and moves the closer from WORK through CLOSING to CLOSED only. |
| CloseHandshake.PeerKeeps | src/rdma_message.cpp:205-237 | The same for the other peer. |
| CloseHandshake.ClosedMeansDone | src/rdma_message.cpp:166-182 | With one closer that closes when all its requests were handled: nothing is ever dropped; the peer is CLOSED only after the closer; and then the closer's table is empty, nothing is being read or released, and all it sent was read and released. |
| CloseHandshake.OneTerminate | src/rdma_message.cpp:175-237 | CLOSE_TERMINATE is sent once, with the step that closes the closer, whether CLOSE_ACK or the last READ_OVER came first. |
| CloseHandshake.StatusMovesForward | src/rdma_message.cpp:205-237 | Along a run both statuses only move forward. |
| CloseHandshake.CloseCompletes | src/rdma_message.cpp:216-237 | A run that can go no further after close has both sessions CLOSED. |
| BarrierThenClose.FlagPermitsClose | src/rdma_endpoint.cpp:124-171 | In rounds without an early return: when the flag is up, or the round was waited for, every request was handled, so close may be called. |
| BarrierThenClose.BenchmarkDiscipline | benchmark.cpp:80-96 | A program that works in rounds and closes once, with the flag up, beside one that only receives, obeys the close discipline at every step. |
| BarrierThenClose.BenchmarkIsSafe | benchmark.cpp:80-96 | So no message is dropped, and a closed session means that everything sent was read and released. |
| BarrierThenClose.BenchmarkEnds | benchmark.cpp:96 | And a run that can go no further after close has closed both sessions. |
| Dropping.DroppedExactly | src/rdma_message.cpp:139-149 | A step drops a message if and only if it handles a SYNC_REQUEST or READ_REQUEST while the status is not WORK. |
| Dropping.DropIsSilent | src/rdma_message.cpp:139-149 | Then it posts nothing and changes neither pools, counters nor table. |
| Dropping.DropsBlock | src/rdma_message.cpp:139-149 | Once a session has dropped a message, the sender's remote lock is held for good and none of its tasks takes the locks again. |
| Dropping.BlockedIffDropped | src/rdma_channel.cpp:241-280 | At rest with both sessions open, a remote lock is held if and only if somewhere along the run the other session dropped a message. |
| Dropping.DroppingHappens | src/rdma_message.cpp:149 | Whenever a run comes to rest and the receiver is no daemon: close, then send any block; its request meets a closing session, and the block is never read and never released. |
| CloseAnytime.ClosedWithoutLossIff | src/rdma_message.cpp:171-231 | In every run, whoever closes and whenever: the step that sends CLOSE_TERMINATE leaves the table empty, and at that moment nothing sent is lost if and only if no request still waits for a worker. |
| CloseAnytime.ClosedIsDeaf | src/rdma_session.cpp:222 | With one close, at any time, and a peer that only receives: what is not released when the session closes never is. |
| CloseAnytime.DroppedNeverTerminates | src/rdma_message.cpp:175-231 | A session that had a request dropped never sends CLOSE_TERMINATE. |
| CloseAnytime.ClosingTooSoon | main.cpp:56-68 | Whenever a run comes to rest: send any block and close right after; the session may close, against a daemon or not, with the request still waiting, and the block is never released. |

## Where code and documentation differ

`wait_for_sync` is meant to return once all data of a barrier was received, and `close` to end a connection
whose data was delivered. They fail in four ways; a fifth is a use that the main program allows.

* Work-pool tasks take the lock in any order, so a block may be counted before its own SYNC_REQUEST resets
  the counter; the target is then never met and the wait never returns. `Overtaking.OvertakingHappens` builds
  such a run in any round, and `Barriers.FlagRisesIff` is the exact condition. Sending no block before the
  SYNC_REQUEST was accepted avoids it (`Barriers.PatientRoundsEnd`), but nothing in the interface tells an
  application when that is: a fix has to be made in the library.
* The flag is tested with `if`, so a spurious wakeup of `sync_cv` ends the wait with the flag down.
  `EarlyReturn.EarlyReturnHappens` builds such a run, and `Barriers.ReturnIsSafeIff` is the exact condition of
  a round that was done. After an early return even a raised flag may lie: it may be the answer to the round
  that was given up (`StaleFlag.StaleFlagHappens`), or to a block of the new round that met the old target
  (`StaleFlag.PoisonedRound`). An application that sets a barrier only with the flag up, its first barrier
  excepted, is safe from all this (`FlagChecked.FlagStaysSafe`), and at rest no other is
  (`StaleFlag.BarrierIsSafeIff`).
* A request that meets a session in CLOSING is dropped without an ACK (`Dropping.DroppedExactly`). The sender
  stays locked for good and the block is lost (`Dropping.DroppingHappens`); at rest a sender is locked if and
  only if this happened (`Dropping.BlockedIffDropped`).
* CLOSE bypasses the locks, and CLOSE_ACK looks at the table alone. A request that no worker has run yet is
  not in the table, and is left behind (`CloseAnytime.ClosingTooSoon`, `CloseAnytime.ClosedWithoutLossIff`).
  Closing with the flag up is safe (`BarrierThenClose.BenchmarkIsSafe`).
* main.cpp sends the same array again without waiting. insert_to_table keeps the first entry, so the second
  object is never released, and a close may not wait for it (`SecondSend.SecondSendLeaks`,
  `SecondSend.ClosesOnFirst`).

## Left out

- libibverbs, device discovery, queue-pair creation and state changes: only the delivery and completion behaviour above is modelled. Failures of a post are not.
- TCP connection setup and the epoll daemon: each channel starts out knowing its peer's incoming buffer.
- Barriers.FlagIsSafe: covers applications that set one positive barrier at a time, send at most its size, and have seen the flag before the next one; an application that does not follow rounds gets no promise from the source. Zero-size barriers are excluded.
- CloseHandshake.ClosedMeansDone: covers one closer, one-way data and a close that waits for its requests. Of a close at any other time, or from both sides, module CloseAnytime and the traffic bound say what holds.
- StaleFlag.BarrierIsSafeIff: is about peers at rest. With something outstanding, that a barrier set with the flag down is unsafe is shown while a SYNC_ACK is on its way.
- Traffic.CreditsSuffice: assumes that each peer sends less than 2^64 bytes in all, where the counter would wrap around.
- Buffers.UsableWhileSource: RDMA_Buffer does not check the offset of a slice, so a program is asked to cut slices inside a live source.
- Send completions (IBV_WC_SEND) in module System: their handler does nothing. The loop in module Sessions dispatches them.
- WRITE_REQUEST, WRITE_READY and RDMA_DATA: declared, but no code sends or handles them.
- ThreadPool and MemoryPool internals: not part of this model; a pool is a bag of tasks, and the allocator returns fresh memory. That it can return some is a hypothesis of the progress theorems.
- The sizes of the unlock and nolock pools: their tasks never wait, so any number of them may run in any order. The four workers of the work pool are modelled.
- A second send of an object or block still in use: the source accepts it, and so does Endpoints.RdmaEndpoint.SendData; module SecondSend says what becomes of it, but the runs of module System exclude it.
- Interleavings inside a handler: the completion thread runs one handler at a time, and each is one step of the system. A worker that records a new request while a closing session handles a READ_OVER, between the release and the test of the table size, is not interleaved; the close discipline excludes it.
- One flag per process: several endpoints sharing `sync_flag` are not modelled.
- Destructors of channel, endpoint and session, and the order in which threads are joined.
- Byte order of the connection data, logging, `get_message` and random packet numbers.
