/** Two peers joined by a reliable link, as a transition system.

    Each step is taken by one peer, `p`, beside its peer `q`: an application call, a worker thread, the
    completion-queue loop or the network card of `p`. The environment assumptions are the guards:
    posts succeed, the link is FIFO and exactly-once in each direction, a write places its bytes before
    its receive completion appears, a write completes only after it was placed, a receive completion
    waits for a posted receive and for room in the completion queue, live objects have distinct
    non-null addresses, and the application hands a block to send_data at most once at a time. */
module System {
  import opened Bags
  import opened Words
  import opened Message
  import opened Protocol

  datatype Step =
    // the application, and the scheduler's freedom to wake a waiting thread for no reason: a worker, or the
    // caller of wait_for_sync, which does not look at the flag again
    | SendData(x: Transfer) | SetSyncBarrier(size: u64) | WaitForSync | ReturnEarly | CloseEndpoint
    | SpuriousWakeup(k: nat)
    // the work, unlock and nolock pools
    | StartTask(k: nat) | CheckTask(k: nat) | UnlockTask(k: nat, woken: nat) | AcceptTask(k: nat, dest: u64, block: u64)
    // the network card
    | Gather(k: nat) | Deliver | WriteCompletes(k: nat) | ReadCompletes(k: nat, src: u64)
    // session_processCQ
    | Wake | Rearm | PollQueue | Handle

  predicate External(step: Step) {
    step.SendData? || step.SetSyncBarrier? || step.WaitForSync? || step.ReturnEarly? || step.CloseEndpoint?
    || step.SpuriousWakeup?
  }

  /** A new object at `ptr` with a block at `addr` would not overlap any live object or block. */
  ghost predicate FreshIn(heap: map<u64, Object>, ptr: u64, addr: u64) {
    && ptr != 0 && ptr != addr && ptr !in heap && addr !in heap
    && forall a <- heap :: heap[a].Addr() != ptr && heap[a].Addr() != addr
  }

  /** The region the read names is registered under that key and long enough. */
  ghost predicate Readable(heap: map<u64, Object>, src: u64, c: Content) {
    && src in heap && heap[src].Source?
    && heap[src].x.addr == c.remoteAddr && heap[src].x.rkey == c.rkey && c.bufferSize <= |heap[src].x.data|
  }

  ghost predicate HasRoom(p: Peer) {
    |p.queue.cq| < CQ_SIZE
  }

  ghost predicate Enabled(p: Peer, q: Peer, step: Step) {
    match step
    case SendData(x) => x.id == |p.log.issued| && FreshIn(p.store.heap, x.ptr, x.addr)
    case SetSyncBarrier(_) => true
    case WaitForSync => p.session.syncFlag
    case ReturnEarly => !p.session.syncFlag
    case CloseEndpoint => true
    case SpuriousWakeup(k) => k < |p.pools.asleep|
    case StartTask(k) => k < |p.pools.pool| && |p.pools.awake| + |p.pools.asleep| < DEFAULT_WORK_POOL_THREADS
    case CheckTask(k) => k < |p.pools.awake|
    case UnlockTask(k, woken) => k < |p.pools.unlocks| && (p.pools.asleep != [] ==> woken < |p.pools.asleep|)
    case AcceptTask(k, dest, block) => k < |p.pools.accepts| && FreshIn(p.store.heap, dest, block)
    case Gather(k) => k < |p.card.wire| && p.card.wire[k].WritePacket? && p.card.wire[k].payload.None?
    case Deliver =>
      p.card.wire != [] && Gathered(p.card.wire[0]) && q.card.credits > 0 && HasRoom(q)
    case WriteCompletes(k) => k < |p.card.written| && HasRoom(p)
    case ReadCompletes(k, src) =>
      k < |p.card.fetches| && Readable(q.store.heap, src, p.card.fetches[k].content) && HasRoom(p)
    case Wake => p.queue.loop == Waiting && p.queue.batch == [] && p.session.status != Closed && p.queue.events > 0
    case Rearm => p.queue.loop == Woken
    case PollQueue => p.queue.loop == Rearmed
    case Handle => p.queue.loop == Waiting && p.queue.batch != []
  }

  ghost predicate Gathered(e: Packet) {
    e.WritePacket? ==> e.payload.Some? && |e.payload.value| <= MESSAGE_TOTAL_BYTES
  }

  function Gathering(e: Packet, outgoing: Block): Packet
    requires e.WritePacket?
  {
    e.(payload := Some(outgoing[..PrefixLength(e.intent.Imm())]))
  }

  /** The head of `p`'s send queue reaches `q`. */
  function Arrive(q: Peer, e: Packet): Peer
    requires Gathered(e) && q.card.credits > 0
  {
    var card := q.card.(credits := q.card.credits - 1);
    match e
    case WritePacket(intent, payload, round) =>
      q.(card := card, lanes := q.lanes.(incoming := Land(payload.value, q.lanes.incoming)),
         queue := q.queue.Complete(RecvWrite(intent, round)))
    case SendPacket(imm, round) =>
      q.(card := card, queue := q.queue.Complete(RecvSend(imm, round)))
  }

  function Departed(card: Card): Card
    requires card.wire != []
  {
    var rest := card.(wire := Remove(card.wire, 0));
    if card.wire[0].WritePacket? then rest.(written := Append(card.written, card.wire[0].round)) else rest
  }

  /** The bytes a read of `size` bytes finds. */
  function Fetched(bytes: seq<byte>, size: nat): seq<byte> {
    if size <= |bytes| then bytes[..size] else bytes
  }

  function Landed(heap: map<u64, Object>, dest: u64, bytes: seq<byte>): map<u64, Object> {
    if dest in heap && heap[dest].Dest? then heap[dest := heap[dest].(data := bytes)] else heap
  }

  function ReadAt(p: Peer, bytes: seq<byte>, k: nat): Peer
    requires k < |p.card.fetches|
  {
    var e := p.card.fetches[k];
    p.(card := p.card.(fetches := Remove(p.card.fetches, k)),
       log := p.log.(fetched := Append(p.log.fetched, e.x)),
       store := p.store.(heap := Landed(p.store.heap, e.dest, Fetched(bytes, e.content.bufferSize))),
       queue := p.queue.Complete(ReadDone(e.dest, e.x)))
  }

  /** send_data of the object at `x.ptr`. */
  function Issue(p: Peer, x: Transfer): Peer {
    TaskWithLock(p.(store := p.store.(heap := p.store.heap[x.ptr := Source(x)]),
                    log := p.log.(issued := Append(p.log.issued, x))), Request(x))
  }

  /** What the acting peer becomes. */
  ghost function Act(p: Peer, q: Peer, step: Step): Peer
    requires Enabled(p, q, step)
  {
    match step
    case SendData(x) => Issue(p, x)
    case SetSyncBarrier(size) =>
      TaskWithLock(p.(session := p.session.(syncFlag := false),
                      app := p.app.(barrier := Open(size, Sum(p.log.issued, ByteWeight())))), Sync(size))
    case WaitForSync => p.(app := p.app.(barrier := Ready))
    case ReturnEarly => p.(app := p.app.(barrier := Ready))
    case CloseEndpoint => Send(p, Close, 0).(app := p.app.(closeCalled := true))
    case SpuriousWakeup(k) => p.(pools := WakeOne(p.pools, k))
    case StartTask(k) =>
      p.(pools := p.pools.(pool := Remove(p.pools.pool, k), awake := Append(p.pools.awake, p.pools.pool[k])))
    case CheckTask(k) => CheckAndRun(p, k)
    case UnlockTask(k, woken) => RunUnlock(p, k, woken)
    case AcceptTask(k, dest, block) => RunAccept(p, k, dest, block)
    case Gather(k) =>
      p.(card := p.card.(wire := Replace(p.card.wire, k, Gathering(p.card.wire[k], p.lanes.outgoing))))
    case Deliver => p.(card := Departed(p.card))
    case WriteCompletes(k) =>
      p.(card := p.card.(written := Remove(p.card.written, k)),
         queue := p.queue.Complete(WriteDone(p.card.written[k])))
    case ReadCompletes(k, src) => ReadAt(p, q.store.heap[src].Data(), k)
    case Wake => p.(queue := p.queue.Wake())
    case Rearm => p.(queue := p.queue.Rearm())
    case PollQueue => p.(queue := p.queue.Poll())
    case Handle => Process(Taken(p), p.queue.batch[0])
  }

  /** What the other peer becomes: only a delivery touches it. */
  ghost function React(p: Peer, q: Peer, step: Step): Peer
    requires Enabled(p, q, step)
  {
    if step.Deliver? then Arrive(q, p.card.wire[0]) else q
  }
}
