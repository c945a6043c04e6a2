/** How a run without close ends: everything handed to send_data was read once, byte for byte, and
    released once, and nothing is left behind. */
module Delivery {
  import opened Bags
  import opened Words
  import opened Message
  import opened Protocol
  import opened System
  import opened CompletionLoop
  import opened Frames
  import opened Ledger
  import opened Lifecycle
  import opened Lifetimes
  import opened Counting
  import opened Reachable
  import opened Progress
  import T = Tables

  // ----- runs without close stay in WORK and drop nothing -----

  predicate IsCloseTalk(imm: MessageType) { imm == Close || imm == CloseAck || imm == CloseTerminate }

  ghost function CloseTalk(): Weighting {
    Weightless.(packet := (e: Packet) => One(e.SendPacket? && IsCloseTalk(e.imm)),
                completion := (e: Completion) => One(e.RecvSend? && IsCloseTalk(e.imm)))
  }

  ghost predicate Working(p: Peer) {
    && p.session.status == Work && p.log.dropped == [] && p.log.lost == []
    && Weight(p, CloseTalk()) == 0
  }

  lemma NoCloseTalk(p: Peer)
    requires Working(p) && p.queue.batch != []
    ensures p.queue.batch[0].RecvSend? ==> !IsCloseTalk(p.queue.batch[0].imm)
  {
    Outweighed(p.queue.batch, CloseTalk().completion, p.queue.batch[0]);
  }

  lemma TalkMoves(p: Peer, q: Peer, step: Step, v: Weighting)
    requires Enabled(p, q, step) && !step.CloseEndpoint? && v == CloseTalk()
    requires p.session.status == Work
    requires step.Handle? && p.queue.batch[0].RecvSend? ==> !IsCloseTalk(p.queue.batch[0].imm)
    ensures Gain(p, q, step, v) == 0
  {
  }

  lemma ActorWorks(p: Peer, q: Peer, step: Step)
    requires Enabled(p, q, step) && NothingStranded(p.queue) && !step.CloseEndpoint? && Working(p)
    ensures Working(Act(p, q, step))
  {
    if step.Handle? { NoCloseTalk(p); }
    TalkMoves(p, q, step, CloseTalk());
    Balanced(p, q, step, CloseTalk());
    ActSession(p, q, step);
    ActLog(p, q, step);
  }

  lemma OtherWorks(p: Peer, q: Peer, step: Step)
    requires Enabled(p, q, step) && Working(p) && Working(q)
    ensures Working(React(p, q, step))
  {
    if step.Deliver? { Outweighed(p.card.wire, CloseTalk().packet, p.card.wire[0]); }
    ReactionBalanced(p, q, step, CloseTalk());
    ReactRest(p, q, step);
    ReactLog(p, q, step);
  }

  lemma WorkingKept(p: Peer, q: Peer, step: Step)
    requires Enabled(p, q, step) && NothingStranded(p.queue) && !step.CloseEndpoint?
    requires Working(p) && Working(q)
    ensures Working(Act(p, q, step)) && Working(React(p, q, step))
  {
    ActorWorks(p, q, step);
    OtherWorks(p, q, step);
  }

  /** Neither application calls close. */
  ghost const NeverCloses: Rule := (s: Pair, a: Action) => !a.step.CloseEndpoint?

  ghost predicate BothWorking(s: Pair) { Good(s) && Working(s.left) && Working(s.right) }

  lemma StepKeepsWorking(s: Pair, a: Action)
    requires BothWorking(s) && s.CanDo(a) && !a.step.CloseEndpoint?
    ensures BothWorking(s.Do(a))
  {
    StepIsGood(s, a);
    if a.side == Left { WorkingKept(s.left, s.right, a.step); } else { WorkingKept(s.right, s.left, a.step); }
  }

  lemma StartIsWorking(p: Peer)
    requires Initial(p)
    ensures Working(p)
  {
    EmptyWeighsNothing(p, CloseTalk());
  }

  lemma StartIsBothWorking(s: Pair)
    requires Start(s)
    ensures BothWorking(s)
  {
    StartIsGood(s);
    StartIsWorking(s.left);
    StartIsWorking(s.right);
  }

  lemma {:induction false} StayWorking(s: Pair, trace: seq<Action>, t: Pair)
    requires BothWorking(s) && Leads(NeverCloses, s, trace, t)
    ensures BothWorking(t)
    decreases |trace|
  {
    if trace != [] {
      StepKeepsWorking(s, trace[0]);
      StayWorking(s.Do(trace[0]), trace[1..], t);
    }
  }

  lemma WorkingRuns(s: Pair, trace: seq<Action>, t: Pair)
    requires Start(s) && Leads(NeverCloses, s, trace, t)
    ensures BothWorking(t)
  {
    StartIsBothWorking(s);
    StayWorking(s, trace, t);
  }

  // ----- a finished state -----

  lemma NoWeightNoElements<A(!new)>(s: seq<A>, w: A -> nat)
    requires forall e :: w(e) > 0
    ensures s != [] ==> Sum(s, w) > 0
  {
    if s != [] { Outweighed(s, w, s[0]); }
  }

  /** No work left: every pool, queue and list is empty. */
  lemma NoWorkNoItems(p: Peer)
    requires WorkLeft(p) == 0
    ensures p.pools == Pools([], [], [], [], []) && p.card == Card([], [], [], p.card.credits)
    ensures p.queue.batch == [] && p.queue.cq == []
  {
    var v := Costs();
    NoWeightNoElements(p.pools.pool, v.pooled);
    NoWeightNoElements(p.pools.awake, v.awake);
    NoWeightNoElements(p.pools.asleep, v.asleep);
    NoWeightNoElements(p.pools.unlocks, v.unlock);
    NoWeightNoElements(p.pools.accepts, v.accept);
    NoWeightNoElements(p.card.wire, v.packet);
    NoWeightNoElements(p.card.written, v.placed);
    NoWeightNoElements(p.card.fetches, v.fetch);
    NoWeightNoElements(p.queue.batch, v.completion);
    NoWeightNoElements(p.queue.cq, v.completion);
  }

  lemma NothingStaying(p: Peer, q: Peer, s: Stage, f: Transfer -> nat)
    requires WorkLeft(p) == 0 && WorkLeft(q) == 0 && p.log.dropped == [] && q.log.dropped == []
    ensures Staying(p, q, s, f) == 0
  {
    NoWorkNoItems(p);
    NoWorkNoItems(q);
  }

  lemma StagePassed(p: Peer, q: Peer, s: Stage, f: Transfer -> nat)
    requires Conserved(p, q) && InFlight(s) && WorkLeft(p) == 0 && WorkLeft(q) == 0
    requires p.log.dropped == [] && q.log.dropped == []
    ensures Outflow(Entered(p, q, f), s) == Entered(p, q, f)(s)
  {
    assert Accounted(p, q, s, f);
    NothingStaying(p, q, s, f);
  }

  /** What was issued was read once and released once: equal sums for every weight, that is, equal
      multisets. */
  lemma EverythingThrough(p: Peer, q: Peer, f: Transfer -> nat)
    requires Conserved(p, q) && WorkLeft(p) == 0 && WorkLeft(q) == 0
    requires p.log.dropped == [] && q.log.dropped == [] && q.log.lost == []
    ensures Sum(p.log.freed, f) == Sum(p.log.issued, f) && Sum(q.log.read, f) == Sum(p.log.issued, f)
  {
    StagePassed(p, q, Queued, f);
    StagePassed(p, q, Requested, f);
    StagePassed(p, q, Accepted, f);
    StagePassed(p, q, Reading, f);
    StagePassed(p, q, Stage.Fetched, f);
    StagePassed(p, q, Returning, f);
    StagePassed(p, q, Releasing, f);
  }

  lemma EveryoneFreed(p: Peer, q: Peer, x: Transfer)
    requires Inv(p, q) && WorkLeft(p) == 0 && WorkLeft(q) == 0
    requires p.log.dropped == [] && q.log.dropped == [] && q.log.lost == []
    ensures x in p.log.issued <==> x in p.log.freed
  {
    EverythingThrough(p, q, Is(x));
    Occurs(p.log.issued, x);
    Occurs(p.log.freed, x);
  }

  lemma NoDestinations(p: Peer, d: u64, x: Transfer)
    requires Consistent(p) && WorkLeft(p) == 0 && p.log.dropped == []
    ensures !T.IsDest(p.store.heap, d, x)
  {
    NoWorkNoItems(p);
    assert DestinationsExact(p, d, x);
    assert d in p.store.heap ==> T.Sized(p.store.heap[d]);
  }

  /** The tables and the heap are empty again. */
  lemma NothingKept(p: Peer, q: Peer)
    requires Inv(p, q) && WorkLeft(p) == 0 && WorkLeft(q) == 0
    requires p.log.dropped == [] && q.log.dropped == [] && q.log.lost == []
    ensures p.store.table == map[] && p.store.heap == map[]
  {
    forall x ensures !T.Live(p.log, x) { EveryoneFreed(p, q, x); }
    forall d, x ensures !T.IsDest(p.store.heap, d, x) { NoDestinations(p, d, x); }
    forall k ensures k !in p.store.rows {
      assert k in p.store.rows ==> T.RowHolds(p.store, p.log, k);
    }
    forall a ensures a !in p.store.heap {
      assert a in p.store.heap && p.store.heap[a].Dest? ==> T.IsDest(p.store.heap, a, p.store.heap[a].x);
    }
    assert p.store.table.Keys == {};
  }

  /** One direction of a finished connection. */
  ghost predicate Delivered(p: Peer, q: Peer) {
    && p.lanes.local == Idle && p.lanes.remote == Idle
    && p.store.table == map[] && p.store.heap == map[]
    && (forall f: Transfer -> nat :: Sum(p.log.freed, f) == Sum(p.log.issued, f))
    && (forall f: Transfer -> nat :: Sum(q.log.read, f) == Sum(p.log.issued, f))
    && ReceivedIntact(q.log)
  }

  lemma FinishedDelivers(p: Peer, q: Peer)
    requires Inv(p, q) && Working(p) && Working(q) && WorkLeft(p) == 0 && WorkLeft(q) == 0
    ensures Delivered(p, q)
  {
    NoWorkNoItems(p);
    NoWorkNoItems(q);
    LocksFree(p, q);
    NothingKept(p, q);
    forall f: Transfer -> nat
      ensures Sum(p.log.freed, f) == Sum(p.log.issued, f) && Sum(q.log.read, f) == Sum(p.log.issued, f)
    {
      EverythingThrough(p, q, f);
    }
  }

  /** No step of the protocol itself is possible. */
  ghost predicate Stuck(s: Pair) { forall a: Action :: !External(a.step) ==> !s.CanDo(a) }

  lemma SomeAction(t: Pair)
    requires CanMove(t.left, t.right) || CanMove(t.right, t.left)
    ensures exists a: Action :: !External(a.step) && t.CanDo(a)
  {
    if CanMove(t.left, t.right) {
      var step :| !External(step) && Enabled(t.left, t.right, step);
      assert t.CanDo(Action(Left, step));
    } else {
      var step :| !External(step) && Enabled(t.right, t.left, step);
      assert t.CanDo(Action(Right, step));
    }
  }

  lemma StuckIsFinished(t: Pair)
    requires BothWorking(t) && Stuck(t) && HasMemory(t.left) && HasMemory(t.right)
    ensures Remaining(t) == 0
  {
    if Remaining(t) > 0 {
      NoDeadlock(t.left, t.right);
      SomeAction(t);
    }
  }

  /** Every run without close that can go no further has delivered everything, both ways. */
  lemma MaximalRunsDeliver(s: Pair, trace: seq<Action>, t: Pair)
    requires Start(s) && Leads(NeverCloses, s, trace, t)
    requires Stuck(t) && HasMemory(t.left) && HasMemory(t.right)
    ensures Delivered(t.left, t.right) && Delivered(t.right, t.left)
  {
    WorkingRuns(s, trace, t);
    StuckIsFinished(t);
    FinishedDelivers(t.left, t.right);
    FinishedDelivers(t.right, t.left);
  }
}
