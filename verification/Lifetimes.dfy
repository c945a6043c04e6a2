/** No read and no release ever meets a buffer that is gone: the two tables, the two heaps and every
    message between them stay in step (src/rdma_channel.cpp, src/rdma_message.cpp). */
module Lifetimes {
  import opened Bags
  import opened Words
  import opened Message
  import opened Protocol
  import opened System
  import opened CompletionLoop
  import opened Frames
  import opened Ledger
  import opened SharedBuffers
  import opened Lifecycle
  import opened Stages
  import T = Tables

  ghost predicate Misnamed(t: Task) { t.Over? && t.addr != t.x.addr }

  /** Anything that carries the wrong description of its transfer. */
  ghost function Garbled(): Weighting {
    Weightless.(pooled := (t: Task) => One(Misnamed(t)), awake := (t: Task) => One(Misnamed(t)),
                asleep := (t: Task) => One(Misnamed(t)),
                accept := (a: Accept) => One(a.content != a.x.Describe()),
                fetch := (e: Fetch) => One(e.content != e.x.Describe()),
                packet := (e: Packet) => One(e.WritePacket? && Misnamed(e.intent)),
                completion := (e: Completion) => One(e.RecvWrite? && Misnamed(e.intent)))
  }

  /** Reads posted, and reads completed but not handled, into `d` for transfer `x`. */
  ghost function Fetching(d: u64, x: Transfer): Weighting {
    Weightless.(fetch := (e: Fetch) => One(e.dest == d && e.x == x))
  }

  ghost function Arrived(d: u64, x: Transfer): Weighting {
    Weightless.(completion := (e: Completion) => One(e.ReadDone? && e.dest == d && e.x == x))
  }

  ghost predicate Holds(store: Store, d: u64, x: Transfer, data: seq<byte>) {
    T.IsDest(store.heap, d, x) && store.heap[d].data == data
  }

  /** One posted read per empty destination, one completion per filled one. */
  ghost predicate DestinationsExact(p: Peer, d: u64, x: Transfer) {
    && Weight(p, Fetching(d, x)) == One(Holds(p.store, d, x, []))
    && Weight(p, Arrived(d, x)) == One(Holds(p.store, d, x, x.data))
  }

  ghost predicate Consistent(p: Peer) {
    && T.StoreOk(p.store, p.log)
    && Weight(p, Garbled()) == 0
    && forall d, x :: DestinationsExact(p, d, x)
  }

  // ----- what an item in flight says about the store -----

  /** A transfer found past Queued and before Freed is alive in its owner's table and heap. */
  lemma InFlightAlive(p: Peer, q: Peer, s: Stage, x: Transfer)
    requires Conserved(p, q) && Numbered(p.log) && T.StoreOk(p.store, p.log)
    requires Found(p, q, s, x) > 0 && InFlight(s)
    ensures T.Live(p.log, x) && x.ptr in p.store.heap && p.store.heap[x.ptr] == Source(x)
    ensures s != Queued ==> T.Announced(p.log, x) && x.addr in p.store.table && p.store.table[x.addr] == x.ptr
    ensures s == Queued ==> x !in p.log.requested
  {
    StageTells(p, q, s, x);
    assert x in LogOf(p, q, Queued) && (x in LogOf(p, q, Freed) <==> Passed(Freed, s))
        && (x in LogOf(p, q, Requested) <==> Passed(Requested, s));
    if s != Queued { T.OverFinds(p.store, p.log, x); }
  }

  lemma FetchHasDest(p: Peer, e: Fetch)
    requires Consistent(p) && e in p.card.fetches
    ensures Holds(p.store, e.dest, e.x, []) && e.content == e.x.Describe()
  {
    assert DestinationsExact(p, e.dest, e.x);
    Outweighed(p.card.fetches, Fetching(e.dest, e.x).fetch, e);
    Outweighed(p.card.fetches, Garbled().fetch, e);
  }

  lemma CompletionHasData(p: Peer, d: u64, x: Transfer)
    requires Consistent(p) && ReadDone(d, x) in p.queue.batch
    ensures Holds(p.store, d, x, x.data)
  {
    assert DestinationsExact(p, d, x);
    Outweighed(p.queue.batch, Arrived(d, x).completion, ReadDone(d, x));
  }

  lemma PostedReadFound(p: Peer, q: Peer, e: Fetch)
    requires e in p.card.fetches
    ensures Found(q, p, Reading, e.x) > 0
  {
    Outweighed(p.card.fetches, ReceiverGauge(OnStage(Reading, Is(e.x))).fetch, e);
  }

  /** Every posted read targets a live, registered buffer of its peer: it can always complete. */
  lemma PostedReadAlive(p: Peer, q: Peer, e: Fetch)
    requires Consistent(p) && Consistent(q) && Conserved(q, p) && Numbered(q.log) && e in p.card.fetches
    ensures e.x.ptr in q.store.heap && q.store.heap[e.x.ptr] == Source(e.x)
    ensures Readable(q.store.heap, e.x.ptr, e.content)
  {
    FetchHasDest(p, e);
    PostedReadFound(p, q, e);
    InFlightAlive(q, p, Reading, e.x);
  }

  lemma OneReadable(heap: map<u64, Object>, src: u64, x: Transfer)
    requires T.Disjoint(heap) && x.ptr in heap && heap[x.ptr] == Source(x) && Readable(heap, src, x.Describe())
    ensures src == x.ptr && System.Fetched(heap[src].Data(), |x.data|) == x.data
  {
    assert heap[src].Addr() == heap[x.ptr].Addr();
    assert x.data[..|x.data|] == x.data;
  }

  /** A read that completes brings exactly its transfer's bytes. */
  lemma ReadFindsItsSource(p: Peer, q: Peer, e: Fetch, src: u64)
    requires Consistent(p) && Consistent(q) && Conserved(q, p) && Numbered(q.log)
    requires e in p.card.fetches && Readable(q.store.heap, src, e.content)
    ensures System.Fetched(q.store.heap[src].Data(), e.content.bufferSize) == e.x.data
  {
    FetchHasDest(p, e);
    PostedReadAlive(p, q, e);
    OneReadable(q.store.heap, src, e.x);
  }

  // ----- the store stays exact -----

  lemma FreedWasIssued(p: Peer, q: Peer, x: Transfer)
    requires Conserved(p, q)
    ensures x in p.log.freed ==> x in p.log.issued
  {
    LogsShrink(p, q, Is(x));
    Membership(p, q, x);
    assert x in LogOf(p, q, Freed) <==> Entered(p, q, Is(x))(Freed) > 0;
    assert x in LogOf(p, q, Queued) <==> Entered(p, q, Is(x))(Queued) > 0;
  }

  lemma SendStore(p: Peer, q: Peer, x: Transfer)
    requires Enabled(p, q, SendData(x)) && Consistent(p) && Conserved(p, q) && Numbered(p.log)
    ensures T.StoreOk(StoreAfter(p, q, SendData(x)), LogAfter(p, q, SendData(x)))
  {
    FreedWasIssued(p, q, x);
    T.Sent(p.store, p.log, x);
  }

  lemma CheckStore(p: Peer, q: Peer, k: nat)
    requires Enabled(p, q, CheckTask(k)) && NothingStranded(p.queue)
    requires Consistent(p) && Conserved(p, q) && Numbered(p.log)
    ensures T.StoreOk(StoreAfter(p, q, CheckTask(k)), LogAfter(p, q, CheckTask(k)))
  {
    var t := p.pools.awake[k];
    var log := LogAfter(p, q, CheckTask(k));
    if p.lanes.MayLock() && t.Request? {
      SentMoverFound(p, q, CheckTask(k), Advance(t.x, Queued, Requested));
      InFlightAlive(p, q, Queued, t.x);
      T.Requested(p.store, p.log, t.x);
    } else {
      T.OtherLogs(p.store, p.log, log);
    }
  }

  lemma AcceptStore(p: Peer, q: Peer, k: nat, d: u64, block: u64)
    requires Enabled(p, q, AcceptTask(k, d, block)) && Consistent(p)
    ensures T.StoreOk(StoreAfter(p, q, AcceptTask(k, d, block)), LogAfter(p, q, AcceptTask(k, d, block)))
  {
    Outweighed(p.pools.accepts, Garbled().accept, p.pools.accepts[k]);
    T.Opened(p.store, p.log, d, block, p.pools.accepts[k].x);
    T.OtherLogs(StoreAfter(p, q, AcceptTask(k, d, block)), p.log, LogAfter(p, q, AcceptTask(k, d, block)));
  }

  lemma ReadStore(p: Peer, q: Peer, k: nat, src: u64)
    requires Enabled(p, q, ReadCompletes(k, src))
    requires Consistent(p) && Consistent(q) && Conserved(q, p) && Numbered(q.log)
    ensures T.StoreOk(StoreAfter(p, q, ReadCompletes(k, src)), LogAfter(p, q, ReadCompletes(k, src)))
  {
    var e := p.card.fetches[k];
    FetchHasDest(p, e);
    ReadFindsItsSource(p, q, e, src);
    T.Filled(p.store, p.log, e.dest, e.x);
    T.OtherLogs(StoreAfter(p, q, ReadCompletes(k, src)), p.log, LogAfter(p, q, ReadCompletes(k, src)));
  }

  /** The key READ_OVER carries is the block address of its transfer. */
  lemma OverNames(p: Peer, intent: Task, round: nat)
    requires Consistent(p) && BuffersIntact(p)
    requires p.queue.batch != [] && p.queue.batch[0] == RecvWrite(intent, round) && intent.Over?
    ensures Parse(p.lanes.incoming).remoteAddr == intent.x.addr
  {
    HandlerDecodes(p, intent, round);
    Outweighed(p.queue.batch, Garbled().completion, p.queue.batch[0]);
  }

  lemma OverArrived(p: Peer, q: Peer, intent: Task, round: nat)
    requires Consistent(p) && Conserved(p, q) && Numbered(p.log)
    requires p.queue.batch != [] && p.queue.batch[0] == RecvWrite(intent, round) && intent.Over?
    ensures T.Announced(p.log, intent.x)
  {
    Outweighed(p.queue.batch, SenderGauge(OnStage(Releasing, Is(intent.x))).completion, p.queue.batch[0]);
    assert Found(p, q, Releasing, intent.x) > 0;
    InFlightAlive(p, q, Releasing, intent.x);
  }

  lemma OverStore(p: Peer, q: Peer, intent: Task, round: nat)
    requires Consistent(p) && Conserved(p, q) && Numbered(p.log) && BuffersIntact(p)
    requires p.queue.batch != [] && p.queue.batch[0] == RecvWrite(intent, round) && intent.Over?
    ensures T.StoreOk(ProcessedStore(p, p.queue.batch[0]), ProcessedLog(p, p.queue.batch[0]))
    ensures ProcessedStore(p, p.queue.batch[0]).heap == p.store.heap - {intent.x.ptr}
    ensures intent.x.ptr in p.store.heap && p.store.heap[intent.x.ptr] == Source(intent.x)
  {
    OverNames(p, intent, round);
    OverArrived(p, q, intent, round);
    T.OverFinds(p.store, p.log, intent.x);
    T.Released(p.store, p.log, intent.x);
  }

  lemma ReturnStore(p: Peer, d: u64, x: Transfer)
    requires Consistent(p) && ReadDone(d, x) in p.queue.batch
    ensures T.StoreOk(p.store.Erase(d).Delete(d), ProcessedLog(p, ReadDone(d, x)))
    ensures d != 0 && p.store.Find(d) == x.addr && Holds(p.store, d, x, x.data)
    ensures p.store.SizeAt(d) == |x.data| && p.store.DataAt(d) == x.data
  {
    CompletionHasData(p, d, x);
    T.Returned(p.store, p.log, d, x);
    T.OtherLogs(p.store.Erase(d).Delete(d), p.log, ProcessedLog(p, ReadDone(d, x)));
  }

  lemma MessageStore(p: Peer, q: Peer, e: Completion)
    requires p.queue.batch != [] && p.queue.batch[0] == e && e.RecvWrite? && BuffersIntact(p)
    requires Consistent(p) && Conserved(p, q) && Numbered(p.log)
    ensures T.StoreOk(ProcessedStore(p, e), ProcessedLog(p, e))
  {
    if e.intent.Over? { OverStore(p, q, e.intent, e.round); } else { T.OtherLogs(p.store, p.log, ProcessedLog(p, e)); }
  }

  lemma HandleStore(p: Peer, q: Peer)
    requires Enabled(p, q, Handle) && BuffersIntact(p)
    requires Consistent(p) && Conserved(p, q) && Numbered(p.log)
    ensures T.StoreOk(StoreAfter(p, q, Handle), LogAfter(p, q, Handle))
  {
    match p.queue.batch[0]
    case RecvWrite(intent, round) => MessageStore(p, q, p.queue.batch[0]);
    case ReadDone(d, x) => ReturnStore(p, d, x);
    case _ =>
  }

  lemma StoreKept(p: Peer, q: Peer, step: Step)
    requires Enabled(p, q, step) && NothingStranded(p.queue) && BuffersIntact(p)
    requires Consistent(p) && Consistent(q) && Conserved(p, q) && Conserved(q, p) && Numbered(p.log) && Numbered(q.log)
    ensures T.StoreOk(StoreAfter(p, q, step), LogAfter(p, q, step))
  {
    match step
    case SendData(x) => SendStore(p, q, x);
    case CheckTask(k) => CheckStore(p, q, k);
    case AcceptTask(k, d, block) => AcceptStore(p, q, k, d, block);
    case ReadCompletes(k, src) => ReadStore(p, q, k, src);
    case Handle => HandleStore(p, q);
    case _ =>
  }

  // ----- one destination object per read -----

  ghost predicate OwnObjectDeleted(p: Peer, e: Completion) {
    && e.RecvWrite? && e.intent.Over?
    && ProcessedStore(p, e).heap == p.store.heap - {e.intent.x.ptr}
    && e.intent.x.ptr in p.store.heap && p.store.heap[e.intent.x.ptr] == Source(e.intent.x)
  }

  /** What a step adds to and takes from the items weighed by `v` is what it does to destination `d`. */
  ghost predicate Settled(p: Peer, q: Peer, step: Step, d: u64, x: Transfer, data: seq<byte>, v: Weighting)
    requires Enabled(p, q, step)
  {
    Gain(p, q, step, v) + One(Holds(p.store, d, x, data))
    == Loss(p, q, step, v) + One(Holds(StoreAfter(p, q, step), d, x, data))
  }

  lemma SettledAtAccept(p: Peer, q: Peer, step: Step, d: u64, x: Transfer, v: Weighting, w: Weighting)
    requires Enabled(p, q, step) && step.AcceptTask? && v == Fetching(d, x) && w == Arrived(d, x)
    requires step.dest !in p.store.table
    ensures Settled(p, q, step, d, x, [], v) && Settled(p, q, step, d, x, x.data, w)
  {
  }

  lemma SettledAtRead(p: Peer, q: Peer, step: Step, d: u64, x: Transfer, v: Weighting, w: Weighting)
    requires Enabled(p, q, step) && step.ReadCompletes? && v == Fetching(d, x) && w == Arrived(d, x)
    requires var e := p.card.fetches[step.k];
             Holds(p.store, e.dest, e.x, [])
             && System.Fetched(q.store.heap[step.src].Data(), e.content.bufferSize) == e.x.data
    ensures Settled(p, q, step, d, x, [], v) && Settled(p, q, step, d, x, x.data, w)
  {
  }

  lemma SettledAtMessage(p: Peer, q: Peer, step: Step, d: u64, x: Transfer, v: Weighting, w: Weighting)
    requires Enabled(p, q, step) && step.Handle? && p.queue.batch[0].RecvWrite?
    requires v == Fetching(d, x) && w == Arrived(d, x)
    requires p.queue.batch[0].intent.Over? ==> OwnObjectDeleted(p, p.queue.batch[0])
    ensures Settled(p, q, step, d, x, [], v) && Settled(p, q, step, d, x, x.data, w)
  {
  }

  lemma SettledAtReturn(p: Peer, q: Peer, step: Step, d: u64, x: Transfer, v: Weighting, w: Weighting)
    requires Enabled(p, q, step) && step.Handle? && p.queue.batch[0].ReadDone?
    requires v == Fetching(d, x) && w == Arrived(d, x)
    requires var e := p.queue.batch[0]; e.dest != 0 && Holds(p.store, e.dest, e.x, e.x.data)
    ensures Settled(p, q, step, d, x, [], v) && Settled(p, q, step, d, x, x.data, w)
  {
  }

  lemma SettledElsewhere(p: Peer, q: Peer, step: Step, d: u64, x: Transfer, v: Weighting, w: Weighting)
    requires Enabled(p, q, step) && !step.AcceptTask? && !step.ReadCompletes?
    requires v == Fetching(d, x) && w == Arrived(d, x)
    requires !step.Handle? || p.queue.batch[0].RecvSend? || p.queue.batch[0].WriteDone?
    ensures Settled(p, q, step, d, x, [], v) && Settled(p, q, step, d, x, x.data, w)
  {
  }

  lemma Settles(p: Peer, q: Peer, step: Step, d: u64, x: Transfer, v: Weighting, w: Weighting)
    requires Enabled(p, q, step) && BuffersIntact(p) && v == Fetching(d, x) && w == Arrived(d, x)
    requires Consistent(p) && Consistent(q) && Conserved(p, q) && Conserved(q, p) && Numbered(p.log) && Numbered(q.log)
    ensures Settled(p, q, step, d, x, [], v) && Settled(p, q, step, d, x, x.data, w)
  {
    if step.AcceptTask? {
      T.DestKeyFree(p.store, p.log, step.dest, step.block);
      SettledAtAccept(p, q, step, d, x, v, w);
    } else if step.ReadCompletes? {
      FetchHasDest(p, p.card.fetches[step.k]);
      ReadFindsItsSource(p, q, p.card.fetches[step.k], step.src);
      SettledAtRead(p, q, step, d, x, v, w);
    } else if step.Handle? && p.queue.batch[0].RecvWrite? {
      var e := p.queue.batch[0];
      if e.intent.Over? { OverStore(p, q, e.intent, e.round); }
      SettledAtMessage(p, q, step, d, x, v, w);
    } else if step.Handle? && p.queue.batch[0].ReadDone? {
      ReturnStore(p, p.queue.batch[0].dest, p.queue.batch[0].x);
      SettledAtReturn(p, q, step, d, x, v, w);
    } else {
      SettledElsewhere(p, q, step, d, x, v, w);
    }
  }

  lemma DestinationsKept(p: Peer, q: Peer, step: Step, d: u64, x: Transfer)
    requires Enabled(p, q, step) && NothingStranded(p.queue)
    requires DestinationsExact(p, d, x)
    requires Settled(p, q, step, d, x, [], Fetching(d, x)) && Settled(p, q, step, d, x, x.data, Arrived(d, x))
    ensures DestinationsExact(Act(p, q, step), d, x)
  {
    Balanced(p, q, step, Fetching(d, x));
    Balanced(p, q, step, Arrived(d, x));
    ActStore(p, q, step);
  }

  // ----- every description stays right -----

  ghost predicate HandlesRightly(p: Peer, e: Completion) {
    match e
    case RecvWrite(Request(x), _) => Parse(p.lanes.incoming) == x.Describe()
    case ReadDone(d, x) => p.store.Find(d) == x.addr
    case _ => true
  }

  lemma DescriptionsMove(p: Peer, q: Peer, step: Step, v: Weighting)
    requires Enabled(p, q, step) && v == Garbled()
    requires step.Handle? ==> HandlesRightly(p, p.queue.batch[0])
    ensures Gain(p, q, step, v) <= Loss(p, q, step, v)
  {
  }

  lemma HandlerIsRight(p: Peer, q: Peer)
    requires Enabled(p, q, Handle) && BuffersIntact(p) && Consistent(p)
    ensures HandlesRightly(p, p.queue.batch[0])
  {
    match p.queue.batch[0]
    case RecvWrite(intent, round) => HandlerDecodes(p, intent, round);
    case ReadDone(d, x) => ReturnStore(p, d, x);
    case _ =>
  }

  lemma DescriptionsKept(p: Peer, q: Peer, step: Step)
    requires Enabled(p, q, step) && NothingStranded(p.queue) && BuffersIntact(p) && Consistent(p)
    ensures Weight(Act(p, q, step), Garbled()) == 0
  {
    Balanced(p, q, step, Garbled());
    if step.Handle? { HandlerIsRight(p, q); }
    DescriptionsMove(p, q, step, Garbled());
  }

  lemma ReactionDescribed(p: Peer, q: Peer, step: Step)
    requires Enabled(p, q, step) && Weight(p, Garbled()) == 0 && Weight(q, Garbled()) == 0
    ensures Weight(React(p, q, step), Garbled()) == 0
  {
    ReactionBalanced(p, q, step, Garbled());
    if step.Deliver? { Outweighed(p.card.wire, Garbled().packet, p.card.wire[0]); }
  }

  lemma ReactionSettled(p: Peer, q: Peer, step: Step, d: u64, x: Transfer)
    requires Enabled(p, q, step) && DestinationsExact(q, d, x)
    ensures DestinationsExact(React(p, q, step), d, x)
  {
    ReactStore(p, q, step);
    ReactionBalanced(p, q, step, Fetching(d, x));
    ReactionBalanced(p, q, step, Arrived(d, x));
  }

  lemma ReactionConsistent(p: Peer, q: Peer, step: Step)
    requires Enabled(p, q, step) && Consistent(p) && Consistent(q)
    ensures Consistent(React(p, q, step))
  {
    ReactStore(p, q, step);
    ReactLog(p, q, step);
    ReactionDescribed(p, q, step);
    forall d, x ensures DestinationsExact(React(p, q, step), d, x) { ReactionSettled(p, q, step, d, x); }
  }

  lemma ActionConsistent(p: Peer, q: Peer, step: Step)
    requires Enabled(p, q, step) && NothingStranded(p.queue) && BuffersIntact(p)
    requires Consistent(p) && Consistent(q) && Conserved(p, q) && Conserved(q, p) && Numbered(p.log) && Numbered(q.log)
    ensures Consistent(Act(p, q, step))
  {
    StoreKept(p, q, step);
    ActStore(p, q, step);
    ActLog(p, q, step);
    DescriptionsKept(p, q, step);
    forall d, x ensures DestinationsExact(Act(p, q, step), d, x) {
      Settles(p, q, step, d, x, Fetching(d, x), Arrived(d, x));
      DestinationsKept(p, q, step, d, x);
    }
  }
}
