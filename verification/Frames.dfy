/** Which parts of a peer a step can change. */
module Frames {
  import opened Bags
  import opened Words
  import opened Message
  import opened Protocol
  import opened System
  import opened Ledger

  lemma ProcessLeavesLanes(p: Peer, e: Completion)
    ensures Process(p, e).lanes == p.lanes
  {
  }

  /** The lock statuses and the outgoing buffer change only when a task takes the lock or an unlock task
      runs. */
  ghost function LanesAfter(p: Peer, q: Peer, step: Step): Lanes
    requires Enabled(p, q, step)
  {
    match step
    case CheckTask(k) =>
      if !p.lanes.MayLock() then p.lanes
      else p.lanes.(local := Locked, remote := Locked, outgoing := FillFor(p.pools.awake[k], p.lanes.outgoing),
                    round := p.lanes.round + 1)
    case UnlockTask(k, _) =>
      if p.pools.unlocks[k].ReleaseLocal? then p.lanes.(local := Idle) else p.lanes.(remote := Idle)
    case _ => p.lanes
  }

  lemma ActLanes(p: Peer, q: Peer, step: Step)
    requires Enabled(p, q, step)
    ensures Act(p, q, step).lanes == LanesAfter(p, q, step)
  {
    if step.Handle? { ProcessLeavesLanes(Taken(p), p.queue.batch[0]); }
  }

  lemma ReactLanes(p: Peer, q: Peer, step: Step)
    requires Enabled(p, q, step)
    ensures React(p, q, step).lanes == q.lanes.(incoming := React(p, q, step).lanes.incoming)
  {
  }

  ghost function ProcessedLog(p: Peer, e: Completion): Log {
    match e
    case RecvWrite(Over(_, x), _) => p.log.(freed := Append(p.log.freed, x))
    case RecvWrite(Sync(n), round) =>
      if p.session.status == Work then p.log
      else p.log.(dropped := Append(p.log.dropped, Ignored(Sync(n), round)))
    case RecvWrite(Request(x), round) =>
      if p.session.status == Work then p.log.(accepted := Append(p.log.accepted, x))
      else p.log.(lost := Append(p.log.lost, x), dropped := Append(p.log.dropped, Ignored(Request(x), round)))
    case ReadDone(dest, x) =>
      p.log.(read := Append(p.log.read, x), received := Append(p.log.received, p.store.DataAt(dest)))
    case _ => p.log
  }

  lemma ProcessLogs(p: Peer, e: Completion)
    ensures Process(p, e).log == ProcessedLog(p, e)
  {
  }

  ghost function CheckedLog(log: Log, t: Task): Log {
    match t
    case Request(x) => log.(requested := Append(log.requested, x))
    case Over(_, x) => log.(returned := Append(log.returned, x))
    case Sync(_) => log
  }

  ghost function LogAfter(p: Peer, q: Peer, step: Step): Log
    requires Enabled(p, q, step)
  {
    match step
    case SendData(x) => p.log.(issued := Append(p.log.issued, x))
    case CheckTask(k) => if p.lanes.MayLock() then CheckedLog(p.log, p.pools.awake[k]) else p.log
    case AcceptTask(k, _, _) => p.log.(posted := Append(p.log.posted, p.pools.accepts[k].x))
    case ReadCompletes(k, _) => p.log.(fetched := Append(p.log.fetched, p.card.fetches[k].x))
    case Handle => ProcessedLog(Taken(p), p.queue.batch[0])
    case _ => p.log
  }

  lemma ActLog(p: Peer, q: Peer, step: Step)
    requires Enabled(p, q, step)
    ensures Act(p, q, step).log == LogAfter(p, q, step)
  {
    if step.Handle? { ProcessLogs(Taken(p), p.queue.batch[0]); }
  }

  lemma ReactLog(p: Peer, q: Peer, step: Step)
    requires Enabled(p, q, step)
    ensures React(p, q, step).log == q.log
  {
  }

  ghost function ProcessedStore(p: Peer, e: Completion): Store {
    match e
    case RecvWrite(Over(_, _), _) =>
      var key := Parse(p.lanes.incoming).remoteAddr;
      p.store.Erase(key).Delete(p.store.Find(key))
    case ReadDone(dest, _) => p.store.Erase(dest).Delete(dest)
    case _ => p.store
  }

  lemma ProcessStores(p: Peer, e: Completion)
    ensures Process(p, e).store == ProcessedStore(p, e)
  {
  }

  ghost function CheckedStore(store: Store, t: Task): Store {
    if t.Request? then store.Insert(t.x.addr, t.x.ptr, SourceRow(t.x)) else store
  }

  ghost function AcceptedStore(store: Store, a: Accept, dest: u64, block: u64): Store {
    store.(heap := store.heap[dest := Dest(block, FromInt(ToInt(a.content.bufferSize)), [], a.x)])
         .Insert(dest, a.content.remoteAddr, DestRow(a.x))
  }

  ghost function FetchedStore(store: Store, e: Fetch, bytes: seq<byte>): Store {
    store.(heap := Landed(store.heap, e.dest, Fetched(bytes, e.content.bufferSize)))
  }

  ghost function StoreAfter(p: Peer, q: Peer, step: Step): Store
    requires Enabled(p, q, step)
  {
    match step
    case SendData(x) => p.store.(heap := p.store.heap[x.ptr := Source(x)])
    case CheckTask(k) => if p.lanes.MayLock() then CheckedStore(p.store, p.pools.awake[k]) else p.store
    case AcceptTask(k, dest, block) => AcceptedStore(p.store, p.pools.accepts[k], dest, block)
    case ReadCompletes(k, src) => FetchedStore(p.store, p.card.fetches[k], q.store.heap[src].Data())
    case Handle => ProcessedStore(Taken(p), p.queue.batch[0])
    case _ => p.store
  }

  lemma ActStore(p: Peer, q: Peer, step: Step)
    requires Enabled(p, q, step)
    ensures Act(p, q, step).store == StoreAfter(p, q, step)
  {
    if step.Handle? { ProcessStores(Taken(p), p.queue.batch[0]); }
  }

  lemma ReactStore(p: Peer, q: Peer, step: Step)
    requires Enabled(p, q, step)
    ensures React(p, q, step).store == q.store
  {
  }

  ghost function ProcessedSession(p: Peer, e: Completion): Session {
    match e
    case RecvWrite(Over(_, _), _) => if LastRelease(p) then p.session.(status := Closed) else p.session
    case RecvSend(Close, _) => if p.session.hasPre then p.session else p.session.(status := Closing)
    case RecvSend(CloseAck, _) => p.session.(status := if |p.store.table| == 0 then Closed else Closing)
    case RecvSend(CloseTerminate, _) => p.session.(status := Closed)
    case RecvSend(SyncAck, _) => p.session.(syncFlag := true)
    case _ => p.session
  }

  lemma ProcessSessions(p: Peer, e: Completion)
    ensures Process(p, e).session == ProcessedSession(p, e)
  {
  }

  ghost function SessionAfter(p: Peer, q: Peer, step: Step): Session
    requires Enabled(p, q, step)
  {
    match step
    case SetSyncBarrier(_) => p.session.(syncFlag := false)
    case Handle => ProcessedSession(Taken(p), p.queue.batch[0])
    case _ => p.session
  }

  lemma ActSession(p: Peer, q: Peer, step: Step)
    requires Enabled(p, q, step)
    ensures Act(p, q, step).session == SessionAfter(p, q, step)
  {
    if step.Handle? { ProcessSessions(Taken(p), p.queue.batch[0]); }
  }

  ghost function ProcessedCounts(p: Peer, e: Completion): Counts {
    match e
    case RecvWrite(Sync(_), _) =>
      if p.session.status == Work then Counts(0, Parse(p.lanes.incoming).bufferSize) else p.counts
    case ReadDone(dest, _) => DataRecvSuccess(p.counts, ToInt(p.store.SizeAt(dest)))
    case _ => p.counts
  }

  ghost function ProcessedApp(p: Peer, e: Completion): App {
    match e
    case RecvWrite(Sync(_), _) =>
      if p.session.status == Work then p.app.(mark := Sum(p.log.read, ByteWeight())) else p.app
    case _ => p.app
  }

  lemma ProcessCounts(p: Peer, e: Completion)
    ensures Process(p, e).counts == ProcessedCounts(p, e) && Process(p, e).app == ProcessedApp(p, e)
  {
  }

  ghost function CountsAfter(p: Peer, q: Peer, step: Step): Counts
    requires Enabled(p, q, step)
  {
    if step.Handle? then ProcessedCounts(Taken(p), p.queue.batch[0]) else p.counts
  }

  ghost function AppAfter(p: Peer, q: Peer, step: Step): App
    requires Enabled(p, q, step)
  {
    match step
    case SetSyncBarrier(size) => p.app.(barrier := Open(size, Sum(p.log.issued, ByteWeight())))
    case WaitForSync => p.app.(barrier := Ready)
    case ReturnEarly => p.app.(barrier := Ready)
    case CloseEndpoint => p.app.(closeCalled := true)
    case Handle => ProcessedApp(Taken(p), p.queue.batch[0])
    case _ => p.app
  }

  lemma ActCounts(p: Peer, q: Peer, step: Step)
    requires Enabled(p, q, step)
    ensures Act(p, q, step).counts == CountsAfter(p, q, step) && Act(p, q, step).app == AppAfter(p, q, step)
  {
    if step.Handle? { ProcessCounts(Taken(p), p.queue.batch[0]); }
  }

  lemma ReactRest(p: Peer, q: Peer, step: Step)
    requires Enabled(p, q, step)
    ensures React(p, q, step).session == q.session && React(p, q, step).counts == q.counts
    ensures React(p, q, step).app == q.app && React(p, q, step).pools == q.pools
  {
  }
}
