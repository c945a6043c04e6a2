/** What holds in every state of every run, whatever the two applications and the schedulers do. Each
    statement is about one direction, from the left peer to the right; the system is symmetric. */
module Guarantees {
  import opened Bags
  import opened Words
  import opened Message
  import opened Protocol
  import opened System
  import opened Frames
  import opened Ledger
  import opened LockTokens
  import opened SharedBuffers
  import opened Lifecycle
  import opened Stages
  import opened Lifetimes
  import opened Counting
  import opened Credits
  import opened Reachable
  import T = Tables

  lemma TokenCount(p: Peer, q: Peer)
    requires OneToken(p, q)
    ensures Weight(p, LocalTokens(None)) == if p.lanes.local == Locked then 1 else 0
    ensures Weight(p, RemoteTokens(None)) + Weight(q, FarTokens(None)) == if p.lanes.remote == Locked then 1 else 0
  {
    assert LocalToken(p, None) && RemoteToken(p, q, None);
  }

  /** A status is LOCK if and only if one token for it exists, and never are there two. */
  lemma LocksAreTokens(rule: Rule, s: Pair, trace: seq<Action>, t: Pair)
    requires Start(s) && Leads(rule, s, trace, t)
    ensures Weight(t.left, LocalTokens(None)) == if t.left.lanes.local == Locked then 1 else 0
    ensures Weight(t.left, RemoteTokens(None)) + Weight(t.right, FarTokens(None))
         == if t.left.lanes.remote == Locked then 1 else 0
  {
    RunsAreGood(rule, s, trace, t);
    TokenCount(t.left, t.right);
  }

  /** Every pending unlock task belongs to the round in which its lock is held. */
  lemma NoStaleUnlock(rule: Rule, s: Pair, trace: seq<Action>, t: Pair, u: Unlock)
    requires Start(s) && Leads(rule, s, trace, t) && u in t.left.pools.unlocks
    ensures u.round == t.left.lanes.round
    ensures if u.ReleaseLocal? then t.left.lanes.local == Locked else t.left.lanes.remote == Locked
  {
    RunsAreGood(rule, s, trace, t);
    ReleasedInItsRound(t.left, t.right, u);
  }

  /** A handler decodes what the sending task filled in, however often the 20 bytes were reused. */
  lemma HandlersDecode(rule: Rule, s: Pair, trace: seq<Action>, t: Pair, intent: Task, round: nat)
    requires Start(s) && Leads(rule, s, trace, t)
    requires t.right.queue.batch != [] && t.right.queue.batch[0] == RecvWrite(intent, round)
    ensures SameFields(intent.Imm(), Parse(t.right.lanes.incoming), Meant(intent))
  {
    RunsAreGood(rule, s, trace, t);
    HandlerDecodes(t.right, intent, round);
  }

  lemma WrittenCount(p: Peer)
    ensures p.card.written != [] ==> Weight(p, LocalTokens(None)) > 0
  {
  }

  lemma WritingCount(p: Peer, e: Packet)
    ensures e in p.card.wire && e.WritePacket? ==> Weight(p, LocalTokens(None)) > 0
  {
    if e in p.card.wire { Outweighed(p.card.wire, LocalTokens(None).packet, e); }
  }

  lemma UnreportedCount(p: Peer, e: Completion)
    ensures (e in p.queue.batch || e in p.queue.cq) && e.WriteDone? ==> Weight(p, LocalTokens(None)) > 0
  {
    var w := LocalTokens(None).completion;
    if e in p.queue.batch { Outweighed(p.queue.batch, w, e); } else if e in p.queue.cq { Outweighed(p.queue.cq, w, e); }
  }

  /** A write is posted, or placed in the peer's buffer, or its completion is not handled. */
  ghost predicate WriteOutstanding(p: Peer) {
    || p.card.written != []
    || (exists e :: e in p.card.wire && e.WritePacket?)
    || (exists e :: (e in p.queue.batch || e in p.queue.cq) && e.WriteDone?)
  }

  lemma OutstandingLocks(p: Peer, q: Peer)
    requires WriteOutstanding(p) && OneToken(p, q)
    ensures p.lanes.local == Locked
  {
    assert LocalToken(p, None);
    WrittenCount(p);
    if e :| e in p.card.wire && e.WritePacket? { WritingCount(p, e); }
    if e :| (e in p.queue.batch || e in p.queue.cq) && e.WriteDone? { UnreportedCount(p, e); }
  }

  lemma OutgoingKept(p: Peer, q: Peer, step: Step)
    requires Enabled(p, q, step)
    ensures p.lanes.local == Locked ==> Act(p, q, step).lanes.outgoing == p.lanes.outgoing
    ensures React(p, q, step).lanes.outgoing == q.lanes.outgoing
  {
    ActLanes(p, q, step);
    ReactLanes(p, q, step);
  }

  lemma HeldByLock(t: Pair, a: Action)
    requires t.CanDo(a) && t.left.lanes.local == Locked
    ensures t.Do(a).left.lanes.outgoing == t.left.lanes.outgoing
  {
    if a.side == Left { OutgoingKept(t.left, t.right, a.step); } else { OutgoingKept(t.right, t.left, a.step); }
  }

  /** From the post of a write until its completion is handled, no step refills the outgoing buffer. */
  lemma OutgoingHeld(rule: Rule, s: Pair, trace: seq<Action>, t: Pair, a: Action)
    requires Start(s) && Leads(rule, s, trace, t) && t.CanDo(a) && WriteOutstanding(t.left)
    ensures t.Do(a).left.lanes.outgoing == t.left.lanes.outgoing
  {
    RunsAreGood(rule, s, trace, t);
    OutstandingLocks(t.left, t.right);
    HeldByLock(t, a);
  }

  /** A message of `p` has landed at `q` and is not handled: then none other is on its way there. */
  lemma LandedAlone(p: Peer, q: Peer, e: Completion)
    requires OneToken(p, q) && (e in q.queue.batch || e in q.queue.cq) && e.RecvWrite?
    ensures forall k :: k in p.card.wire ==> !k.WritePacket?
  {
    assert RemoteToken(p, q, None);
    var w := FarTokens(None).completion;
    if e in q.queue.batch { Outweighed(q.queue.batch, w, e); } else { Outweighed(q.queue.cq, w, e); }
    forall k | k in p.card.wire ensures !k.WritePacket? { Outweighed(p.card.wire, RemoteTokens(None).packet, k); }
  }

  lemma IncomingKept(p: Peer, q: Peer, step: Step)
    requires Enabled(p, q, step)
    ensures (forall k :: k in p.card.wire ==> !k.WritePacket?) ==> React(p, q, step).lanes.incoming == q.lanes.incoming
    ensures Act(p, q, step).lanes.incoming == p.lanes.incoming
  {
    ActLanes(p, q, step);
  }

  lemma HeldByMessage(t: Pair, a: Action, e: Completion)
    requires Good(t) && t.CanDo(a) && (e in t.right.queue.batch || e in t.right.queue.cq) && e.RecvWrite?
    ensures t.Do(a).right.lanes.incoming == t.right.lanes.incoming
  {
    LandedAlone(t.left, t.right, e);
    if a.side == Left { IncomingKept(t.left, t.right, a.step); } else { IncomingKept(t.right, t.left, a.step); }
  }

  /** From the delivery of a message until it is handled, no step changes the incoming buffer: a handler
      that parses before it posts its ACK, the way the source does, parses what was delivered. */
  lemma IncomingHeld(rule: Rule, s: Pair, trace: seq<Action>, t: Pair, a: Action, e: Completion)
    requires Start(s) && Leads(rule, s, trace, t) && t.CanDo(a)
    requires (e in t.right.queue.batch || e in t.right.queue.cq) && e.RecvWrite?
    ensures t.Do(a).right.lanes.incoming == t.right.lanes.incoming
  {
    RunsAreGood(rule, s, trace, t);
    HeldByMessage(t, a, e);
  }

  /** A buffer handed to send_data is in exactly one stage; nothing else is in any. */
  lemma OneStage(rule: Rule, s: Pair, trace: seq<Action>, t: Pair, x: Transfer, stage: Stage)
    requires Start(s) && Leads(rule, s, trace, t)
    ensures Found(t.left, t.right, stage, x)
         == if x in t.left.log.issued && stage == StageOf(t.left, t.right, x) then 1 else 0
  {
    RunsAreGood(rule, s, trace, t);
    ExactlyOneStage(t.left, t.right, x);
  }

  /** A transfer announced and not yet released, wherever it is, is in the sender's table and its object
      is alive. */
  lemma LiveWhileUnderWay(rule: Rule, s: Pair, trace: seq<Action>, t: Pair, x: Transfer, stage: Stage)
    requires Start(s) && Leads(rule, s, trace, t)
    requires InFlight(stage) && stage != Queued && Found(t.left, t.right, stage, x) > 0
    ensures x.addr in t.left.store.table && t.left.store.table[x.addr] == x.ptr
    ensures x.ptr in t.left.store.heap && t.left.store.heap[x.ptr] == Source(x)
  {
    RunsAreGood(rule, s, trace, t);
    InFlightAlive(t.left, t.right, stage, x);
  }

  /** Every posted read names a live registered block, and what it would fetch is that block's bytes. */
  lemma ReadsHitTheirSource(rule: Rule, s: Pair, trace: seq<Action>, t: Pair, e: Fetch)
    requires Start(s) && Leads(rule, s, trace, t) && e in t.right.card.fetches
    ensures Readable(t.left.store.heap, e.x.ptr, e.content) && e.content == e.x.Describe()
    ensures forall src :: Readable(t.left.store.heap, src, e.content) ==> src == e.x.ptr
    ensures System.Fetched(t.left.store.heap[e.x.ptr].Data(), e.content.bufferSize) == e.x.data
  {
    RunsAreGood(rule, s, trace, t);
    FetchHasDest(t.right, e);
    PostedReadAlive(t.right, t.left, e);
    ReadFindsItsSource(t.right, t.left, e, e.x.ptr);
    forall src | Readable(t.left.store.heap, src, e.content) ensures src == e.x.ptr {
      OneReadable(t.left.store.heap, src, e.x);
    }
  }

  /** The lookup of a read completion succeeds and names the sender's block. */
  lemma ReturnsFind(rule: Rule, s: Pair, trace: seq<Action>, t: Pair, d: u64, x: Transfer)
    requires Start(s) && Leads(rule, s, trace, t) && ReadDone(d, x) in t.right.queue.batch
    ensures d in t.right.store.table && t.right.store.Find(d) == x.addr
    ensures d in t.right.store.heap && t.right.store.DataAt(d) == x.data && t.right.store.SizeAt(d) == |x.data|
  {
    RunsAreGood(rule, s, trace, t);
    ReturnStore(t.right, d, x);
    T.Returned(t.right.store, t.right.log, d, x);
  }

  /** The lookup of a READ_OVER succeeds, and what it deletes is its own transfer's object, still alive. */
  lemma OversFind(rule: Rule, s: Pair, trace: seq<Action>, t: Pair, intent: Task, round: nat)
    requires Start(s) && Leads(rule, s, trace, t) && intent.Over?
    requires t.left.queue.batch != [] && t.left.queue.batch[0] == RecvWrite(intent, round)
    ensures var key := Parse(t.left.lanes.incoming).remoteAddr;
            key in t.left.store.table && t.left.store.Find(key) == intent.x.ptr && intent.x.ptr != 0
    ensures intent.x.ptr in t.left.store.heap && t.left.store.heap[intent.x.ptr] == Source(intent.x)
  {
    RunsAreGood(rule, s, trace, t);
    OverNames(t.left, intent, round);
    OverArrived(t.left, t.right, intent, round);
    T.OverFinds(t.left.store, t.left.log, intent.x);
  }

  /** The receiver's table maps its destinations to the sender's blocks, injectively. */
  lemma TablesCorrespond(rule: Rule, s: Pair, trace: seq<Action>, t: Pair, d: u64)
    requires Start(s) && Leads(rule, s, trace, t)
    requires d in t.right.store.rows && t.right.store.rows[d].DestRow?
    ensures d in t.right.store.table && t.right.store.table[d] in t.left.store.table
    ensures forall e :: (e in t.right.store.rows && t.right.store.rows[e].DestRow? && e in t.right.store.table
                         && t.right.store.table[e] == t.right.store.table[d]) ==> e == d
  {
    RunsAreGood(rule, s, trace, t);
    DestinationAlive(t.right, t.left, d);
    forall e | e in t.right.store.rows && t.right.store.rows[e].DestRow? && e in t.right.store.table
               && t.right.store.table[e] == t.right.store.table[d]
      ensures e == d
    {
      DestinationAlive(t.right, t.left, e);
      SameDestination(t.right, t.left, d, e);
    }
  }

  /** The stage of the transfer a destination is for. */
  ghost function DestStage(store: Store, d: u64): Stage
    requires d in store.heap
  {
    if store.heap[d].Data() == [] then Reading else Stage.Fetched
  }

  lemma RowIsDestination(q: Peer, d: u64)
    requires Consistent(q) && d in q.store.rows && q.store.rows[d].DestRow?
    ensures var x := q.store.rows[d].x; T.IsDest(q.store.heap, d, x) && d in q.store.table && q.store.table[d] == x.addr
  {
    assert T.RowHolds(q.store, q.log, d);
  }

  lemma DestinationCounted(q: Peer, d: u64, x: Transfer)
    requires Consistent(q) && T.IsDest(q.store.heap, d, x)
    ensures Weight(q, if DestStage(q.store, d) == Reading then Fetching(d, x) else Arrived(d, x)) == 1
  {
    assert DestinationsExact(q, d, x) && T.Sized(q.store.heap[d]);
  }

  lemma CountedFound(q: Peer, p: Peer, d: u64, x: Transfer, s: Stage)
    requires s == Reading || s == Stage.Fetched
    requires Weight(q, if s == Reading then Fetching(d, x) else Arrived(d, x)) == 1
    ensures Found(p, q, s, x) > 0
  {
    WeightMonotone(q, if s == Reading then Fetching(d, x) else Arrived(d, x), ReceiverGauge(OnStage(s, Is(x))));
  }

  lemma DestinationFound(q: Peer, p: Peer, d: u64)
    requires Consistent(q) && d in q.store.rows && q.store.rows[d].DestRow?
    ensures var x := q.store.rows[d].x;
            T.IsDest(q.store.heap, d, x) && d in q.store.table && q.store.table[d] == x.addr
            && Found(p, q, DestStage(q.store, d), x) > 0
  {
    RowIsDestination(q, d);
    DestinationCounted(q, d, q.store.rows[d].x);
    CountedFound(q, p, d, q.store.rows[d].x, DestStage(q.store, d));
  }

  lemma DestinationAlive(q: Peer, p: Peer, d: u64)
    requires Inv(p, q) && d in q.store.rows && q.store.rows[d].DestRow?
    ensures var x := q.store.rows[d].x;
            T.IsDest(q.store.heap, d, x) && d in q.store.table && q.store.table[d] == x.addr
            && x.addr in p.store.rows && x.addr in p.store.table && p.store.rows[x.addr] == SourceRow(x)
  {
    DestinationFound(q, p, d);
    InFlightAlive(p, q, DestStage(q.store, d), q.store.rows[d].x);
  }

  lemma OneDestination(q: Peer, p: Peer, d: u64, e: u64, x: Transfer)
    requires Inv(p, q) && T.IsDest(q.store.heap, d, x) && T.IsDest(q.store.heap, e, x)
    requires Found(p, q, Reading, x) + Found(p, q, Stage.Fetched, x) <= 1
    ensures d == e
  {
    if d != e {
      assert DestinationsExact(q, d, x) && DestinationsExact(q, e, x);
      assert T.Sized(q.store.heap[d]) && T.Sized(q.store.heap[e]);
      DestinationsWeigh(q, d, e, x, ReceiverGauge(OnStage(Reading, Is(x))),
                        ReceiverGauge(OnStage(Stage.Fetched, Is(x))));
    }
  }

  lemma DestinationsWeigh(q: Peer, d: u64, e: u64, x: Transfer, v: Weighting, w: Weighting)
    requires d != e && v == ReceiverGauge(OnStage(Reading, Is(x))) && w == ReceiverGauge(OnStage(Stage.Fetched, Is(x)))
    ensures Weight(q, Fetching(d, x)) + Weight(q, Fetching(e, x)) <= Weight(q, v)
    ensures Weight(q, Arrived(d, x)) + Weight(q, Arrived(e, x)) <= Weight(q, w)
  {
    WeightAdds(q, Fetching(d, x), Fetching(e, x));
    WeightMonotone(q, Both(Fetching(d, x), Fetching(e, x)), v);
    WeightAdds(q, Arrived(d, x), Arrived(e, x));
    WeightMonotone(q, Both(Arrived(d, x), Arrived(e, x)), w);
  }

  lemma SameDestination(q: Peer, p: Peer, d: u64, e: u64)
    requires Inv(p, q) && d in q.store.rows && q.store.rows[d].DestRow? && e in q.store.rows && q.store.rows[e].DestRow?
    requires q.store.rows[d].x == q.store.rows[e].x
    ensures d == e
  {
    DestinationFound(q, p, d);
    DestinationFound(q, p, e);
    StageTells(p, q, DestStage(q.store, d), q.store.rows[d].x);
    OneDestination(q, p, d, e, q.store.rows[d].x);
  }

  /** A free lock never finds every waiting worker asleep. */
  lemma SomeoneIsAwake(rule: Rule, s: Pair, trace: seq<Action>, t: Pair)
    requires Start(s) && Leads(rule, s, trace, t)
    requires t.left.lanes.local == Idle && t.left.lanes.remote == Idle && t.left.pools.asleep != []
    ensures t.left.pools.awake != []
  {
    RunsAreGood(rule, s, trace, t);
  }

  /** A loop about to wait with completions queued has an event coming; with none queued, the next
      completion will raise one. */
  lemma NeverStranded(rule: Rule, s: Pair, trace: seq<Action>, t: Pair)
    requires Start(s) && Leads(rule, s, trace, t) && t.left.queue.loop == Waiting
    ensures t.left.queue.cq != [] ==> t.left.queue.events > 0
    ensures t.left.queue.events > 0 || t.left.queue.armed
  {
    RunsAreGood(rule, s, trace, t);
  }

  /** At most four workers run or wait, and at most 1000 completions are queued. */
  lemma FourWorkers(rule: Rule, s: Pair, trace: seq<Action>, t: Pair)
    requires Start(s) && Leads(rule, s, trace, t)
    ensures |t.left.pools.awake| + |t.left.pools.asleep| <= 4 && |t.left.queue.cq| <= 1000
  {
    RunsAreGood(rule, s, trace, t);
  }

  /** Posted receives and unhandled receive completions make 100. */
  lemma CreditsConserved(rule: Rule, s: Pair, trace: seq<Action>, t: Pair)
    requires Start(s) && Leads(rule, s, trace, t)
    ensures t.left.card.credits + Weight(t.left, Receives()) == 100
  {
    RunsAreGood(rule, s, trace, t);
  }

  /** total_recv_data_ is the bytes of the read completions handled since the last accepted SYNC_REQUEST,
      modulo 2^64. */
  lemma CountsAreExact(rule: Rule, s: Pair, trace: seq<Action>, t: Pair)
    requires Start(s) && Leads(rule, s, trace, t)
    ensures CountExact(t.right)
  {
    RunsAreGood(rule, s, trace, t);
  }

  // ----- along a run -----

  function Rank(s: Stage): nat {
    match s
    case Queued => 0
    case Requested => 1
    case Accepted => 2
    case Reading => 3
    case Fetched => 4
    case Returning => 5
    case Releasing => 6
    case Freed => 7
    case Dropped => 8
  }

  ghost function RankIn(s: Pair, x: Transfer): nat { Rank(StageOf(s.left, s.right, x)) }

  lemma FollowsRank(s: Stage, t: Stage)
    requires s == t || Follows(s, t)
    ensures Rank(s) <= Rank(t)
  {
  }

  lemma SenderRank(p: Peer, q: Peer, step: Step, x: Transfer)
    requires Enabled(p, q, step) && Inv(p, q) && x in p.log.issued
    ensures Rank(StageOf(p, q, x)) <= Rank(StageOf(Act(p, q, step), React(p, q, step), x))
  {
    SenderMovesForward(p, q, step, x);
    FollowsRank(StageOf(p, q, x), StageOf(Act(p, q, step), React(p, q, step), x));
  }

  lemma ReceiverRank(p: Peer, q: Peer, step: Step, x: Transfer)
    requires Enabled(p, q, step) && Inv(p, q) && x in q.log.issued
    ensures Rank(StageOf(q, p, x)) <= Rank(StageOf(React(p, q, step), Act(p, q, step), x))
  {
    ReceiverMovesForward(p, q, step, x);
    FollowsRank(StageOf(q, p, x), StageOf(React(p, q, step), Act(p, q, step), x));
  }

  lemma IssuedStays(p: Peer, q: Peer, step: Step, x: Transfer)
    requires Enabled(p, q, step)
    ensures x in p.log.issued ==> x in Act(p, q, step).log.issued
    ensures x in q.log.issued ==> x in React(p, q, step).log.issued
  {
    ActLog(p, q, step);
    ReactLog(p, q, step);
  }

  lemma StepMovesForward(s: Pair, a: Action, x: Transfer)
    requires Good(s) && s.CanDo(a) && x in s.left.log.issued
    ensures x in s.Do(a).left.log.issued && RankIn(s, x) <= RankIn(s.Do(a), x)
  {
    if a.side == Left {
      SenderRank(s.left, s.right, a.step, x);
      IssuedStays(s.left, s.right, a.step, x);
    } else {
      ReceiverRank(s.right, s.left, a.step, x);
      IssuedStays(s.right, s.left, a.step, x);
    }
  }

  /** A buffer never goes back to an earlier stage. */
  lemma {:induction false} OnlyForward(rule: Rule, s: Pair, trace: seq<Action>, t: Pair, x: Transfer)
    requires Good(s) && Leads(rule, s, trace, t) && x in s.left.log.issued
    ensures x in t.left.log.issued && RankIn(s, x) <= RankIn(t, x)
    decreases |trace|
  {
    if trace != [] {
      StepIsGood(s, trace[0]);
      StepMovesForward(s, trace[0], x);
      OnlyForward(rule, s.Do(trace[0]), trace[1..], t, x);
    }
  }

  lemma LoggedOnce(p: Peer, q: Peer, x: Transfer)
    requires Conserved(p, q) && Numbered(p.log)
    ensures Sum(q.log.read, Is(x)) <= 1 && Sum(p.log.freed, Is(x)) <= 1 && Sum(p.log.requested, Is(x)) <= 1
    ensures x !in p.log.issued ==> Sum(q.log.read, Is(x)) == 0
  {
    LogsShrink(p, q, Is(x));
    IssuedOnce(p, q, x);
  }

  /** A buffer is announced, read and released at most once each, and only what was sent is read; what
      each read brought is the sender's own bytes. */
  lemma ReadOnce(rule: Rule, s: Pair, trace: seq<Action>, t: Pair, x: Transfer)
    requires Start(s) && Leads(rule, s, trace, t)
    ensures Sum(t.left.log.requested, Is(x)) <= 1 && Sum(t.right.log.read, Is(x)) <= 1
    ensures Sum(t.left.log.freed, Is(x)) <= 1
    ensures x in t.right.log.read ==> x in t.left.log.issued
    ensures |t.right.log.received| == |t.right.log.read|
    ensures forall i :: 0 <= i < |t.right.log.read| ==> t.right.log.received[i] == t.right.log.read[i].data
  {
    RunsAreGood(rule, s, trace, t);
    LoggedOnce(t.left, t.right, x);
    Occurs(t.right.log.read, x);
  }
}
