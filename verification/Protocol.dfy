/** One peer of a connection: an RDMA_Channel, the session that polls its completion queue, the
    application objects it registered, and what its network card has been asked to do. Every function
    on a peer below is the specification of the source function of the same name; class Channel
    implements them in place. */
module Protocol {
  import opened Bags
  import opened Words
  import opened Message

  const DEFAULT_WORK_POOL_THREADS := 4
  const CQ_SIZE := 1000
  const POSTED_RECEIVES := 100

  datatype SessionStatus = Work | Closing | Closed
  datatype ChannelStatus = Idle | Locked

  /** Application blocks are not empty and fit the `int` the code passes sizes in. */
  type Payload = s: seq<byte> | 0 < |s| < 0x8000_0000 witness [0]

  /** One send_data call: the RDMA_Buffer object at `ptr`, its block at `addr`, and the block's bytes.
      `id` numbers the calls of one application; the code never sees it. */
  datatype Transfer = Transfer(id: nat, ptr: u64, addr: u64, data: Payload, rkey: u32) {
    function Describe(): Content { Content(addr, |data|, rkey) }
  }

  /** A closure submitted with task_with_lock. `Over.addr` is what the closure captured; the transfer
      beside it is bookkeeping. */
  datatype Task = Request(x: Transfer) | Over(addr: u64, x: Transfer) | Sync(size: u64) {
    function Imm(): MessageType {
      match this
      case Request(_) => ReadRequest
      case Over(_, _) => ReadOver
      case Sync(_) => SyncRequest
    }
  }

  /** `round` numbers the lock acquisitions of a channel; it is bookkeeping wherever it occurs. */
  datatype Unlock = ReleaseLocal(round: nat) | ReleaseRemote(round: nat)

  /** A closure submitted with task_without_lock: allocate a destination and post the read. */
  datatype Accept = Accept(content: Content, x: Transfer)

  datatype Fetch = Fetch(dest: u64, content: Content, x: Transfer)

  /** A posted message. A write is gathered from the outgoing buffer at some moment after the post. */
  datatype Packet = WritePacket(intent: Task, payload: Option<seq<byte>>, round: nat)
                  | SendPacket(imm: MessageType, round: nat)

  datatype Completion = RecvWrite(intent: Task, round: nat) | RecvSend(imm: MessageType, round: nat)
                      | WriteDone(round: nat) | ReadDone(dest: u64, x: Transfer)

  /** An attached message a closing peer ignored. */
  datatype Ignored = Ignored(intent: Task, round: nat)

  /** RDMA_Buffer objects on the heap: one handed to send_data, or a destination the peer allocated. */
  datatype Object = Source(x: Transfer) | Dest(block: u64, size: u64, data: seq<byte>, x: Transfer) {
    function Addr(): u64 { if Source? then x.addr else block }
    function Data(): seq<byte> { if Source? then x.data else data }
  }

  /** Which kind of entry a key of map_table_ is, as bookkeeping. */
  datatype Row = SourceRow(x: Transfer) | DestRow(x: Transfer)

  /** Where the loop of session_processCQ stands: about to wait for an event (or still handling its
      last batch), holding an event, or re-armed and about to poll. */
  datatype Loop = Waiting | Woken | Rearmed

  /** The application's view of its sync barrier: none, or one of `target` bytes opened when `base`
      bytes had been handed to send_data. */
  datatype Barrier = Ready | Open(target: nat, base: nat)

  // ----- the state of a peer -----

  datatype Session = Session(status: SessionStatus, hasPre: bool, syncFlag: bool)

  /** The completion queue, its event channel, and the completions the loop has polled. */
  datatype Queue<E(!new)> = Queue(cq: seq<E>, batch: seq<E>, armed: bool, events: nat, loop: Loop) {
    /** A completion enters the queue; an armed queue raises one event and disarms. */
    function Complete(e: E): Queue<E> {
      this.(cq := Append(cq, e), events := if armed then events + 1 else events, armed := false)
    }

    function Wake(): Queue<E>
      requires events > 0
    {
      this.(events := events - 1, loop := Woken)
    }

    function Rearm(): Queue<E> { this.(armed := true, loop := Rearmed) }

    function Poll(): Queue<E> {
      var n := if |cq| < CQ_SIZE then |cq| else CQ_SIZE;
      this.(batch := cq[..n], cq := cq[n..], loop := Waiting)
    }

    function Next(): Queue<E>
      requires batch != []
    {
      this.(batch := Remove(batch, 0))
    }
  }

  /** The lock statuses and the two message buffers; `round` numbers the acquisitions. */
  datatype Lanes = Lanes(local: ChannelStatus, remote: ChannelStatus, incoming: Block, outgoing: Block, round: nat) {
    predicate MayLock() { local != Locked && remote != Locked }
  }

  datatype Counts = Counts(total: u64, target: u64)

  /** The thread pools: tasks not started, workers evaluating the wait predicate, workers asleep on the
      condition variable, and the queues of the two other pools. */
  datatype Pools = Pools(pool: seq<Task>, awake: seq<Task>, asleep: seq<Task>,
                         unlocks: seq<Unlock>, accepts: seq<Accept>)

  /** What the network card was asked to do: messages not yet delivered, writes delivered and not yet
      completed, reads not yet completed, and posted receives. */
  datatype Card = Card(wire: seq<Packet>, written: seq<nat>, fetches: seq<Fetch>, credits: nat) {
    function Post(e: Packet): Card { this.(wire := Append(wire, e)) }
  }

  /** map_table_ and the live RDMA_Buffer objects; `rows` says what each key of the table stands for. */
  datatype Store = Store(table: map<u64, u64>, heap: map<u64, Object>, rows: map<u64, Row>) {
    /** std::map::insert leaves an existing entry alone. */
    function Insert(key: u64, value: u64, row: Row): Store {
      if key in table then this else this.(table := table[key := value], rows := rows[key := row])
    }

    /** A missing key yields 0. */
    function Find(key: u64): u64 { if key in table then table[key] else 0 }

    function Erase(key: u64): Store { this.(table := table - {key}, rows := rows - {key}) }

    /** delete of a null pointer does nothing. */
    function Delete(ptr: u64): Store { if ptr == 0 then this else this.(heap := heap - {ptr}) }

    function SizeAt(ptr: u64): u64 { if ptr in heap && heap[ptr].Dest? then heap[ptr].size else 0 }

    function DataAt(ptr: u64): seq<byte> { if ptr in heap then heap[ptr].Data() else [] }
  }

  /** Bookkeeping of a run; no branch of the code depends on it. The first three log this peer's own
      transfers: handed to send_data, announced with READ_REQUEST, released. The next six log the other
      peer's transfers as they pass through here: request accepted or lost to a closing session, read
      posted, read completed, completion handled, READ_OVER posted. `received` holds the bytes of `read`,
      `dropped` the messages ignored here. */
  datatype Log = Log(issued: seq<Transfer>, requested: seq<Transfer>, freed: seq<Transfer>,
                     accepted: seq<Transfer>, lost: seq<Transfer>, posted: seq<Transfer>, fetched: seq<Transfer>,
                     read: seq<Transfer>, returned: seq<Transfer>, received: seq<seq<byte>>, dropped: seq<Ignored>)

  /** More bookkeeping: the bytes counted when the last SYNC_REQUEST was accepted, the application's
      barrier, and whether it called close. */
  datatype App = App(mark: nat, barrier: Barrier, closeCalled: bool)

  datatype Peer = Peer(session: Session, queue: Queue<Completion>, lanes: Lanes, counts: Counts, pools: Pools,
                       card: Card, store: Store, log: Log, app: App)

  ghost predicate Initial(p: Peer) {
    && p.session.status == Work && !p.session.syncFlag
    && p.queue == Queue([], [], true, 0, Waiting)
    && p.lanes.local == Idle && p.lanes.remote == Idle && p.lanes.round == 0
    && p.counts == Counts(0, 0)
    && p.pools == Pools([], [], [], [], [])
    && p.card == Card([], [], [], POSTED_RECEIVES)
    && p.store == Store(map[], map[], map[])
    && p.log == Log([], [], [], [], [], [], [], [], [], [], [])
    && p.app == App(0, Ready, false)
  }

  // ----- rdma_channel.cpp -----

  function Write(p: Peer, intent: Task): Peer {
    p.(card := p.card.Post(WritePacket(intent, None, p.lanes.round)))
  }

  function Send(p: Peer, imm: MessageType, round: nat): Peer {
    p.(card := p.card.Post(SendPacket(imm, round)))
  }

  function Recv(p: Peer): Peer {
    p.(card := p.card.(credits := p.card.credits + 1))
  }

  function ReadData(p: Peer, dest: u64, content: Content, x: Transfer): Peer {
    p.(card := p.card.(fetches := Append(p.card.fetches, Fetch(dest, content, x))))
  }

  /** data_recv_success takes the size as an `int` and adds it to a uint64_t. */
  function DataRecvSuccess(c: Counts, size: int): Counts {
    c.(total := FromInt(c.total + FromInt(size)))
  }

  function TargetCountSet(p: Peer, size: u64): Peer {
    p.(counts := Counts(0, size))
  }

  function TaskWithLock(p: Peer, t: Task): Peer {
    p.(pools := p.pools.(pool := Append(p.pools.pool, t)))
  }

  function TaskWithoutLock(p: Peer, a: Accept): Peer {
    p.(pools := p.pools.(accepts := Append(p.pools.accepts, a)))
  }

  function Release(p: Peer, u: Unlock): Peer {
    p.(pools := p.pools.(unlocks := Append(p.pools.unlocks, u)))
  }

  /** What the task writes into the outgoing buffer. */
  function FillFor(t: Task, outgoing: Block): Block {
    match t
    case Request(x) => Fill(outgoing, x.addr, |x.data|, Some(x.rkey))
    case Over(addr, _) => Fill(outgoing, addr, 0, None)
    case Sync(size) => Fill(outgoing, 0, size, None)
  }

  /** The body of a task records a request in the table, fills the outgoing buffer and posts the write. */
  function RunBody(p: Peer, t: Task): Peer {
    var q := Write(p.(lanes := p.lanes.(outgoing := FillFor(t, p.lanes.outgoing))), t);
    if t.Request? then
      q.(store := q.store.Insert(t.x.addr, t.x.ptr, SourceRow(t.x)),
         log := q.log.(requested := Append(q.log.requested, t.x)))
    else if t.Over? then q.(log := q.log.(returned := Append(q.log.returned, t.x)))
    else q
  }

  /** A worker holding the channel mutex found both statuses free: it takes them and runs its task. */
  function LockAndRun(p: Peer, t: Task): Peer {
    RunBody(p.(lanes := p.lanes.(local := Locked, remote := Locked, round := p.lanes.round + 1)), t)
  }

  /** A worker evaluates the wait predicate of channel_cv_: it takes the lock and runs its task, or it
      goes to sleep. */
  function CheckAndRun(p: Peer, k: nat): Peer
    requires k < |p.pools.awake|
  {
    var t := p.pools.awake[k];
    var rest := p.pools.(awake := Remove(p.pools.awake, k));
    if p.lanes.MayLock() then LockAndRun(p.(pools := rest), t)
    else p.(pools := rest.(asleep := Append(rest.asleep, t)))
  }

  /** notify_one (and a spurious wakeup) moves a sleeping worker back to the predicate. */
  function WakeOne(pools: Pools, k: nat): Pools {
    if k < |pools.asleep|
    then pools.(asleep := Remove(pools.asleep, k), awake := Append(pools.awake, pools.asleep[k]))
    else pools
  }

  function RunUnlock(p: Peer, k: nat, woken: nat): Peer
    requires k < |p.pools.unlocks|
  {
    var pools := WakeOne(p.pools.(unlocks := Remove(p.pools.unlocks, k)), woken);
    if p.pools.unlocks[k].ReleaseLocal?
    then p.(pools := pools, lanes := p.lanes.(local := Idle))
    else p.(pools := pools, lanes := p.lanes.(remote := Idle))
  }

  /** The closure of a READ_REQUEST: RDMA_Buffer's constructor takes the size as an `int`. */
  function RunAccept(p: Peer, k: nat, dest: u64, block: u64): Peer
    requires k < |p.pools.accepts|
  {
    var a := p.pools.accepts[k];
    var created := Dest(block, FromInt(ToInt(a.content.bufferSize)), [], a.x);
    var store := p.store.(heap := p.store.heap[dest := created]);
    ReadData(p.(pools := p.pools.(accepts := Remove(p.pools.accepts, k)),
                log := p.log.(posted := Append(p.log.posted, a.x)),
                store := store.Insert(dest, a.content.remoteAddr, DestRow(a.x))), dest, a.content, a.x)
  }

  // ----- rdma_message.cpp: process_* -----

  function ByteWeight(): Transfer -> nat { (x: Transfer) => |x.data| }

  function Drop(p: Peer, intent: Task, round: nat): Peer {
    p.(log := p.log.(dropped := Append(p.log.dropped, Ignored(intent, round))))
  }

  function SetStatus(p: Peer, status: SessionStatus): Peer {
    p.(session := p.session.(status := status))
  }

  function Terminate(p: Peer): Peer {
    SetStatus(Send(p, CloseTerminate, 0), Closed)
  }

  function ProcessSyncRequest(p: Peer, intent: Task, round: nat): Peer {
    if p.session.status != Work then Drop(p, intent, round)
    else TargetCountSet(Send(p, Ack, round), Parse(p.lanes.incoming).bufferSize)
         .(app := p.app.(mark := Sum(p.log.read, ByteWeight())))
  }

  function ProcessReadRequest(p: Peer, intent: Task, round: nat): Peer
    requires intent.Request?
  {
    if p.session.status != Work then Drop(p.(log := p.log.(lost := Append(p.log.lost, intent.x))), intent, round)
    else TaskWithoutLock(Send(p, Ack, round), Accept(Parse(p.lanes.incoming), intent.x))
         .(log := p.log.(accepted := Append(p.log.accepted, intent.x)))
  }

  function ProcessReadOver(p: Peer, x: Transfer, round: nat): Peer {
    var key := Parse(p.lanes.incoming).remoteAddr;
    var buf := p.store.Find(key);
    var q := Send(p, Ack, round).(store := p.store.Erase(key).Delete(buf),
                                  log := p.log.(freed := Append(p.log.freed, x)));
    if q.session.status == Closing && |q.store.table| == 0 then Terminate(q) else q
  }

  function ProcessContent(p: Peer, intent: Task, round: nat): Peer {
    match intent
    case Sync(_) => ProcessSyncRequest(p, intent, round)
    case Request(_) => ProcessReadRequest(p, intent, round)
    case Over(_, x) => ProcessReadOver(p, x, round)
  }

  function ProcessAttachedMessage(p: Peer, intent: Task, round: nat): Peer { ProcessContent(Recv(p), intent, round) }

  function ProcessCloseAck(p: Peer): Peer {
    if |p.store.table| == 0 then Terminate(p) else SetStatus(p, Closing)
  }

  function ProcessImmediateMessage(p: Peer, imm: MessageType, round: nat): Peer {
    match imm
    case Ack => Release(Recv(p), ReleaseRemote(round))
    case Close => SetStatus(Send(Recv(p), CloseAck, 0), if p.session.hasPre then p.session.status else Closing)
    case CloseAck => ProcessCloseAck(Recv(p))
    case CloseTerminate => SetStatus(Recv(p), Closed)
    case SyncAck => Recv(p).(session := p.session.(syncFlag := true))
    case _ => Recv(p)
  }

  function ProcessWriteSuccess(p: Peer, round: nat): Peer {
    Release(p, ReleaseLocal(round))
  }

  function ProcessReadSuccess(p: Peer, dest: u64, x: Transfer): Peer {
    var counts := DataRecvSuccess(p.counts, ToInt(p.store.SizeAt(dest)));
    var q := if counts.total == counts.target then Send(p, SyncAck, 0) else p;
    TaskWithLock(q, Over(p.store.Find(dest), x))
      .(counts := counts, store := p.store.Erase(dest).Delete(dest),
        log := p.log.(read := Append(p.log.read, x), received := Append(p.log.received, p.store.DataAt(dest))))
  }

  // ----- rdma_session.cpp: session_processCQ -----

  function Process(p: Peer, e: Completion): Peer {
    match e
    case RecvWrite(intent, round) => ProcessAttachedMessage(p, intent, round)
    case RecvSend(imm, round) => ProcessImmediateMessage(p, imm, round)
    case WriteDone(round) => ProcessWriteSuccess(p, round)
    case ReadDone(dest, x) => ProcessReadSuccess(p, dest, x)
  }

  /** The peer with the next completion of its batch taken out. */
  function Taken(p: Peer): Peer
    requires p.queue.batch != []
  {
    p.(queue := p.queue.Next())
  }
}
