/** Double-entry bookkeeping for the protocol.

    Every conservation law of the system is a weighted sum over everything a peer holds: tasks, unlock
    tasks, posted and placed messages, reads, completions, and the logs. `Gain` and `Loss` list, step by
    step, what a step adds and removes; Balanced shows once, for every weighting, that they account for
    every step exactly. A law is then proved by weighing the few items a step moves. */
module Ledger {
  import opened Bags
  import opened Message
  import opened Protocol
  import opened System
  import opened CompletionLoop

  datatype Weighting = Weighting(
    pooled: Task -> nat, awake: Task -> nat, asleep: Task -> nat, unlock: Unlock -> nat, accept: Accept -> nat,
    packet: Packet -> nat, placed: nat -> nat, fetch: Fetch -> nat, completion: Completion -> nat,
    dropped: Ignored -> nat)

  ghost const Weightless: Weighting := Weighting(_ => 0, _ => 0, _ => 0, _ => 0, _ => 0, _ => 0, _ => 0, _ => 0,
                                                 _ => 0, _ => 0)

  ghost function PoolsWeight(p: Pools, v: Weighting): nat {
    Sum(p.pool, v.pooled) + Sum(p.awake, v.awake) + Sum(p.asleep, v.asleep) + Sum(p.unlocks, v.unlock)
    + Sum(p.accepts, v.accept)
  }

  ghost function CardWeight(c: Card, v: Weighting): nat {
    Sum(c.wire, v.packet) + Sum(c.written, v.placed) + Sum(c.fetches, v.fetch)
  }

  ghost function QueueWeight(q: Queue<Completion>, v: Weighting): nat {
    Sum(q.batch, v.completion) + Sum(q.cq, v.completion)
  }

  ghost function LogWeight(l: Log, v: Weighting): nat { Sum(l.dropped, v.dropped) }

  ghost function Weight(p: Peer, v: Weighting): nat {
    PoolsWeight(p.pools, v) + CardWeight(p.card, v) + QueueWeight(p.queue, v) + LogWeight(p.log, v)
  }

  ghost predicate Lighter(v: Weighting, w: Weighting) {
    && (forall e :: v.pooled(e) <= w.pooled(e)) && (forall e :: v.awake(e) <= w.awake(e))
    && (forall e :: v.asleep(e) <= w.asleep(e)) && (forall e :: v.unlock(e) <= w.unlock(e))
    && (forall e :: v.accept(e) <= w.accept(e)) && (forall e :: v.packet(e) <= w.packet(e))
    && (forall e :: v.placed(e) <= w.placed(e)) && (forall e :: v.fetch(e) <= w.fetch(e))
    && (forall e :: v.completion(e) <= w.completion(e)) && (forall e :: v.dropped(e) <= w.dropped(e))
  }

  lemma WeightMonotone(p: Peer, v: Weighting, w: Weighting)
    requires Lighter(v, w)
    ensures Weight(p, v) <= Weight(p, w)
  {
    SumMonotone(p.pools.pool, v.pooled, w.pooled);
    SumMonotone(p.pools.awake, v.awake, w.awake);
    SumMonotone(p.pools.asleep, v.asleep, w.asleep);
    SumMonotone(p.pools.unlocks, v.unlock, w.unlock);
    SumMonotone(p.pools.accepts, v.accept, w.accept);
    SumMonotone(p.card.wire, v.packet, w.packet);
    SumMonotone(p.card.written, v.placed, w.placed);
    SumMonotone(p.card.fetches, v.fetch, w.fetch);
    SumMonotone(p.queue.batch, v.completion, w.completion);
    SumMonotone(p.queue.cq, v.completion, w.completion);
    SumMonotone(p.log.dropped, v.dropped, w.dropped);
  }

  ghost function Both(v: Weighting, w: Weighting): Weighting {
    Weighting(Plus(v.pooled, w.pooled), Plus(v.awake, w.awake), Plus(v.asleep, w.asleep), Plus(v.unlock, w.unlock),
              Plus(v.accept, w.accept), Plus(v.packet, w.packet), Plus(v.placed, w.placed), Plus(v.fetch, w.fetch),
              Plus(v.completion, w.completion), Plus(v.dropped, w.dropped))
  }

  lemma WeightAdds(p: Peer, v: Weighting, w: Weighting)
    ensures Weight(p, Both(v, w)) == Weight(p, v) + Weight(p, w)
  {
    SumAdds(p.pools.pool, v.pooled, w.pooled);
    SumAdds(p.pools.awake, v.awake, w.awake);
    SumAdds(p.pools.asleep, v.asleep, w.asleep);
    SumAdds(p.pools.unlocks, v.unlock, w.unlock);
    SumAdds(p.pools.accepts, v.accept, w.accept);
    SumAdds(p.card.wire, v.packet, w.packet);
    SumAdds(p.card.written, v.placed, w.placed);
    SumAdds(p.card.fetches, v.fetch, w.fetch);
    SumAdds(p.queue.batch, v.completion, w.completion);
    SumAdds(p.queue.cq, v.completion, w.completion);
    SumAdds(p.log.dropped, v.dropped, w.dropped);
  }

  lemma PacketsWeigh(p: Peer, w: Packet -> nat)
    ensures Weight(p, Weightless.(packet := w)) == Sum(p.card.wire, w)
  {
    EmptyHanded(p, Weightless.(packet := w));
    SumZero(p.queue.batch, Weightless.completion);
    SumZero(p.queue.cq, Weightless.completion);
  }

  lemma CompletionsWeigh(p: Peer, w: Completion -> nat)
    ensures Weight(p, Weightless.(completion := w)) == Sum(p.queue.batch, w) + Sum(p.queue.cq, w)
  {
    EmptyHanded(p, Weightless.(completion := w));
    SumZero(p.card.wire, Weightless.packet);
  }

  /** A weighting of messages and completions only. */
  lemma EmptyHanded(p: Peer, v: Weighting)
    requires v == Weightless.(packet := v.packet, completion := v.completion)
    ensures Weight(p, v)
         == Sum(p.card.wire, v.packet) + Sum(p.queue.batch, v.completion) + Sum(p.queue.cq, v.completion)
  {
    SumZero(p.pools.pool, v.pooled);
    SumZero(p.pools.awake, v.awake);
    SumZero(p.pools.asleep, v.asleep);
    SumZero(p.pools.unlocks, v.unlock);
    SumZero(p.pools.accepts, v.accept);
    SumZero(p.card.written, v.placed);
    SumZero(p.card.fetches, v.fetch);
    SumZero(p.log.dropped, v.dropped);
  }

  // ----- what handling a completion adds -----

  predicate LastRelease(p: Peer) {
    p.session.status == Closing && |p.store.Erase(Parse(p.lanes.incoming).remoteAddr).table| == 0
  }

  predicate ReachesTarget(p: Peer, dest: Words.u64) {
    DataRecvSuccess(p.counts, Words.ToInt(p.store.SizeAt(dest))).total == p.counts.target
  }

  ghost function SyncRequestGain(p: Peer, intent: Task, round: nat, v: Weighting): nat {
    if p.session.status != Work then v.dropped(Ignored(intent, round)) else v.packet(SendPacket(Ack, round))
  }

  ghost function ReadRequestGain(p: Peer, intent: Task, round: nat, v: Weighting): nat
    requires intent.Request?
  {
    if p.session.status != Work then v.dropped(Ignored(intent, round))
    else v.packet(SendPacket(Ack, round)) + v.accept(Accept(Parse(p.lanes.incoming), intent.x))
  }

  ghost function ReadOverGain(p: Peer, round: nat, v: Weighting): nat {
    v.packet(SendPacket(Ack, round))
    + if LastRelease(p) then v.packet(SendPacket(CloseTerminate, 0)) else 0
  }

  ghost function AttachedGain(p: Peer, intent: Task, round: nat, v: Weighting): nat {
    match intent
    case Sync(_) => SyncRequestGain(p, intent, round, v)
    case Request(_) => ReadRequestGain(p, intent, round, v)
    case Over(_, _) => ReadOverGain(p, round, v)
  }

  ghost function ImmediateGain(p: Peer, imm: MessageType, round: nat, v: Weighting): nat {
    match imm
    case Ack => v.unlock(ReleaseRemote(round))
    case Close => v.packet(SendPacket(CloseAck, 0))
    case CloseAck => if |p.store.table| == 0 then v.packet(SendPacket(CloseTerminate, 0)) else 0
    case _ => 0
  }

  ghost function HandleGain(p: Peer, e: Completion, v: Weighting): nat {
    match e
    case RecvWrite(intent, round) => AttachedGain(p, intent, round, v)
    case RecvSend(imm, round) => ImmediateGain(p, imm, round, v)
    case WriteDone(round) => v.unlock(ReleaseLocal(round))
    case ReadDone(dest, x) =>
      v.pooled(Over(p.store.Find(dest), x))
      + if ReachesTarget(p, dest) then v.packet(SendPacket(SyncAck, 0)) else 0
  }

  // ----- the ledger -----

  ghost function CheckGain(p: Peer, t: Task, v: Weighting): nat {
    if !p.lanes.MayLock() then v.asleep(t)
    else v.packet(WritePacket(t, None, p.lanes.round + 1))
  }

  ghost function Gain(p: Peer, q: Peer, step: Step, v: Weighting): nat
    requires Enabled(p, q, step)
  {
    match step
    case SendData(x) => v.pooled(Request(x))
    case SetSyncBarrier(size) => v.pooled(Sync(size))
    case CloseEndpoint => v.packet(SendPacket(Close, 0))
    case SpuriousWakeup(k) => v.awake(p.pools.asleep[k])
    case StartTask(k) => v.awake(p.pools.pool[k])
    case CheckTask(k) => CheckGain(p, p.pools.awake[k], v)
    case UnlockTask(_, woken) => if p.pools.asleep != [] then v.awake(p.pools.asleep[woken]) else 0
    case AcceptTask(k, dest, _) => v.fetch(Fetch(dest, p.pools.accepts[k].content, p.pools.accepts[k].x))
    case Gather(k) => v.packet(Gathering(p.card.wire[k], p.lanes.outgoing))
    case Deliver => if p.card.wire[0].WritePacket? then v.placed(p.card.wire[0].round) else 0
    case WriteCompletes(k) => v.completion(WriteDone(p.card.written[k]))
    case ReadCompletes(k, _) => v.completion(ReadDone(p.card.fetches[k].dest, p.card.fetches[k].x))
    case Handle => HandleGain(Taken(p), p.queue.batch[0], v)
    case _ => 0
  }

  ghost function Loss(p: Peer, q: Peer, step: Step, v: Weighting): nat
    requires Enabled(p, q, step)
  {
    match step
    case SpuriousWakeup(k) => v.asleep(p.pools.asleep[k])
    case StartTask(k) => v.pooled(p.pools.pool[k])
    case CheckTask(k) => v.awake(p.pools.awake[k])
    case UnlockTask(k, woken) =>
      v.unlock(p.pools.unlocks[k]) + if p.pools.asleep != [] then v.asleep(p.pools.asleep[woken]) else 0
    case AcceptTask(k, _, _) => v.accept(p.pools.accepts[k])
    case Gather(k) => v.packet(p.card.wire[k])
    case Deliver => v.packet(p.card.wire[0])
    case WriteCompletes(k) => v.placed(p.card.written[k])
    case ReadCompletes(k, _) => v.fetch(p.card.fetches[k])
    case Handle => v.completion(p.queue.batch[0])
    case _ => 0
  }

  /** What a delivery puts into the other peer's completion queue. */
  function Arrival(e: Packet): Completion {
    match e
    case WritePacket(intent, _, round) => RecvWrite(intent, round)
    case SendPacket(imm, round) => RecvSend(imm, round)
  }

  ghost function Arrives(p: Peer, q: Peer, step: Step, w: Weighting): nat
    requires Enabled(p, q, step)
  {
    if step.Deliver? then w.completion(Arrival(p.card.wire[0])) else 0
  }

  // ----- every handler is accounted for -----

  lemma SyncRequestBalanced(p: Peer, intent: Task, round: nat, v: Weighting)
    ensures Weight(ProcessSyncRequest(p, intent, round), v) == Weight(p, v) + SyncRequestGain(p, intent, round, v)
  {
  }

  lemma ReadRequestBalanced(p: Peer, intent: Task, round: nat, v: Weighting)
    requires intent.Request?
    ensures Weight(ProcessReadRequest(p, intent, round), v) == Weight(p, v) + ReadRequestGain(p, intent, round, v)
  {
  }

  lemma ReadOverBalanced(p: Peer, x: Transfer, round: nat, v: Weighting)
    ensures Weight(ProcessReadOver(p, x, round), v) == Weight(p, v) + ReadOverGain(p, round, v)
  {
  }

  lemma AttachedBalanced(p: Peer, intent: Task, round: nat, v: Weighting)
    ensures Weight(ProcessAttachedMessage(p, intent, round), v) == Weight(p, v) + AttachedGain(p, intent, round, v)
  {
    match intent
    case Sync(_) => SyncRequestBalanced(Recv(p), intent, round, v);
    case Request(_) => ReadRequestBalanced(Recv(p), intent, round, v);
    case Over(_, x) => ReadOverBalanced(Recv(p), x, round, v);
  }

  lemma SendBalanced(p: Peer, imm: MessageType, round: nat, v: Weighting)
    ensures Weight(Send(p, imm, round), v) == Weight(p, v) + v.packet(SendPacket(imm, round))
  {
  }

  lemma ReleaseBalanced(p: Peer, u: Unlock, v: Weighting)
    ensures Weight(Release(p, u), v) == Weight(p, v) + v.unlock(u)
  {
  }

  lemma ImmediateBalanced(p: Peer, imm: MessageType, round: nat, v: Weighting)
    ensures Weight(ProcessImmediateMessage(p, imm, round), v) == Weight(p, v) + ImmediateGain(p, imm, round, v)
  {
    match imm
    case Ack => ReleaseBalanced(Recv(p), ReleaseRemote(round), v);
    case Close => SendBalanced(Recv(p), CloseAck, 0, v);
    case CloseAck => SendBalanced(Recv(p), CloseTerminate, 0, v);
    case _ =>
  }

  lemma ReadSuccessBalanced(p: Peer, dest: Words.u64, x: Transfer, v: Weighting)
    ensures Weight(ProcessReadSuccess(p, dest, x), v) == Weight(p, v) + HandleGain(p, ReadDone(dest, x), v)
  {
  }

  lemma ProcessBalanced(p: Peer, e: Completion, v: Weighting)
    ensures Weight(Process(p, e), v) == Weight(p, v) + HandleGain(p, e, v)
  {
    match e
    case RecvWrite(intent, round) => AttachedBalanced(p, intent, round, v);
    case RecvSend(imm, round) => ImmediateBalanced(p, imm, round, v);
    case WriteDone(round) =>
    case ReadDone(dest, x) => ReadSuccessBalanced(p, dest, x, v);
  }

  lemma TakenBalanced(p: Peer, v: Weighting)
    requires p.queue.batch != []
    ensures Weight(Taken(p), v) + v.completion(p.queue.batch[0]) == Weight(p, v)
  {
  }

  lemma LockBalanced(p: Peer, t: Task, v: Weighting)
    ensures Weight(LockAndRun(p, t), v)
         == Weight(p, v) + v.packet(WritePacket(t, None, p.lanes.round + 1))
  {
  }

  lemma AwakeRemoved(p: Pools, k: nat, v: Weighting)
    requires k < |p.awake|
    ensures PoolsWeight(p.(awake := Remove(p.awake, k)), v) + v.awake(p.awake[k]) == PoolsWeight(p, v)
  {
  }

  lemma AsleepAdded(p: Pools, t: Task, v: Weighting)
    ensures PoolsWeight(p.(asleep := Append(p.asleep, t)), v) == PoolsWeight(p, v) + v.asleep(t)
  {
  }

  lemma CheckBalanced(p: Peer, k: nat, v: Weighting)
    requires k < |p.pools.awake|
    ensures Weight(CheckAndRun(p, k), v) + v.awake(p.pools.awake[k])
         == Weight(p, v) + CheckGain(p, p.pools.awake[k], v)
  {
    var rest := p.pools.(awake := Remove(p.pools.awake, k));
    AwakeRemoved(p.pools, k, v);
    if p.lanes.MayLock() { LockBalanced(p.(pools := rest), p.pools.awake[k], v); }
    else { AsleepAdded(rest, p.pools.awake[k], v); }
  }

  lemma UnlockBalanced(p: Peer, q: Peer, k: nat, woken: nat, v: Weighting)
    requires Enabled(p, q, UnlockTask(k, woken))
    ensures Weight(RunUnlock(p, k, woken), v) + Loss(p, q, UnlockTask(k, woken), v)
         == Weight(p, v) + Gain(p, q, UnlockTask(k, woken), v)
  {
  }

  lemma PollBalanced(q: Queue<Completion>, v: Weighting)
    requires NothingStranded(q) && q.loop == Rearmed
    ensures QueueWeight(q.Poll(), v) == QueueWeight(q, v)
  {
    PollDrains(q);
  }

  /** The acting peer's books balance, whatever the weights. */
  lemma Balanced(p: Peer, q: Peer, step: Step, v: Weighting)
    requires Enabled(p, q, step) && NothingStranded(p.queue)
    ensures Weight(Act(p, q, step), v) + Loss(p, q, step, v) == Weight(p, v) + Gain(p, q, step, v)
  {
    match step
    case CheckTask(k) => CheckBalanced(p, k, v);
    case UnlockTask(k, woken) => UnlockBalanced(p, q, k, woken, v);
    case PollQueue => PollBalanced(p.queue, v);
    case Handle =>
      TakenBalanced(p, v);
      ProcessBalanced(Taken(p), p.queue.batch[0], v);
    case _ =>
  }

  lemma CompleteBalanced(q: Queue<Completion>, e: Completion, v: Weighting)
    ensures QueueWeight(q.Complete(e), v) == QueueWeight(q, v) + v.completion(e)
  {
  }

  /** The other peer gains the arriving completion, and nothing else. */
  lemma ReactionBalanced(p: Peer, q: Peer, step: Step, v: Weighting)
    requires Enabled(p, q, step)
    ensures Weight(React(p, q, step), v) == Weight(q, v) + Arrives(p, q, step, v)
  {
    if step.Deliver? { CompleteBalanced(q.queue, Arrival(p.card.wire[0]), v); }
  }
}
