/** Calling close at any time, as main.cpp does (src/rdma_endpoint.cpp, src/rdma_message.cpp): when it
    loses data, and that it can. */
module CloseAnytime {
  import opened Bags
  import opened Message
  import opened Protocol
  import opened System
  import opened CompletionLoop
  import opened Frames
  import opened Ledger
  import opened Lifecycle
  import opened Stages
  import opened Lifetimes
  import opened Reachable
  import opened CloseHandshake
  import opened Schedules
  import D = Dropping
  import T = Tables

  // ----- what a close has lost -----

  /** A request no worker has run yet: it is outside the table. */
  ghost predicate RequestWaits(p: Peer) {
    exists t :: (t in p.pools.pool || t in p.pools.awake || t in p.pools.asleep) && t.Request?
  }

  lemma WaitingFound(p: Peer, q: Peer, t: Task)
    requires t.Request? && (t in p.pools.pool || t in p.pools.awake || t in p.pools.asleep)
    ensures Found(p, q, Queued, t.x) > 0
  {
    var w := TaskGauge(OnStage(Queued, Is(t.x)), true);
    if t in p.pools.pool { Outweighed(p.pools.pool, w, t); }
    else if t in p.pools.awake { Outweighed(p.pools.awake, w, t); }
    else { Outweighed(p.pools.asleep, w, t); }
  }

  lemma {:induction false} NoRequestNoWeight(s: seq<Task>, w: Task -> nat)
    requires forall t :: t in s ==> !t.Request?
    requires forall t: Task :: !t.Request? ==> w(t) == 0
    ensures Sum(s, w) == 0
  {
    if s != [] { NoRequestNoWeight(s[1..], w); }
  }

  lemma NoneWaiting(p: Peer, q: Peer, x: Transfer)
    requires !RequestWaits(p)
    ensures Found(p, q, Queued, x) == 0
  {
    var v, w := SenderGauge(OnStage(Queued, Is(x))), ReceiverGauge(OnStage(Queued, Is(x)));
    NoRequestNoWeight(p.pools.pool, v.pooled);
    NoRequestNoWeight(p.pools.awake, v.awake);
    NoRequestNoWeight(p.pools.asleep, v.asleep);
    QueuedElsewhere(p, q, v, w, x);
  }

  lemma QueuedElsewhere(p: Peer, q: Peer, v: Weighting, w: Weighting, x: Transfer)
    requires v == SenderGauge(OnStage(Queued, Is(x))) && w == ReceiverGauge(OnStage(Queued, Is(x)))
    ensures Weight(p, v) == Sum(p.pools.pool, v.pooled) + Sum(p.pools.awake, v.awake) + Sum(p.pools.asleep, v.asleep)
    ensures Weight(q, w) == 0
  {
    SumZero(p.pools.unlocks, v.unlock);
    SumZero(p.pools.accepts, v.accept);
    SumZero(p.card.wire, v.packet);
    SumZero(p.card.written, v.placed);
    SumZero(p.card.fetches, v.fetch);
    SumZero(p.queue.batch, v.completion);
    SumZero(p.queue.cq, v.completion);
    SumZero(p.log.dropped, v.dropped);
    WeightMonotone(q, w, Weightless);
    NothingWeighs(q);
  }

  lemma NothingWeighs(q: Peer)
    ensures Weight(q, Weightless) == 0
  {
    PacketsWeigh(q, Weightless.packet);
    SumZero(q.card.wire, Weightless.packet);
  }

  /** With an empty table every transfer is either still waiting for its worker or released. */
  lemma EmptyTableStages(p: Peer, q: Peer, x: Transfer)
    requires Inv(p, q) && p.store.table == map[] && x in p.log.issued
    ensures StageOf(p, q, x) == Queued || StageOf(p, q, x) == Freed
  {
    var s := StageOf(p, q, x);
    SomeStage(p, q, x);
    if InFlight(s) && s != Queued { Gone(p, q, s, x); }
    if s == Dropped { DroppedAnnounced(p, q, x); }
  }

  /** A transfer whose request was dropped stays in its sender's table. */
  lemma DroppedAnnounced(p: Peer, q: Peer, x: Transfer)
    requires Inv(p, q) && x in p.log.issued && StageOf(p, q, x) == Dropped
    ensures x.addr in p.store.table
  {
    InItsStage(p, q, x);
    assert x in LogOf(p, q, Requested) <==> Passed(Requested, Dropped);
    assert x in LogOf(p, q, Freed) <==> Passed(Freed, Dropped);
    T.OverFinds(p.store, p.log, x);
  }

  lemma WaitingIsUnreleased(p: Peer, q: Peer)
    requires Inv(p, q) && RequestWaits(p)
    ensures exists x :: x in p.log.issued && x !in p.log.freed
  {
    var t :| (t in p.pools.pool || t in p.pools.awake || t in p.pools.asleep) && t.Request?;
    WaitingFound(p, q, t);
    InFlightAlive(p, q, Queued, t.x);
  }

  /** Everything handed to send_data was released, and its bytes are with the peer. */
  ghost predicate NothingLost(p: Peer, q: Peer) {
    forall x :: x in p.log.issued ==> x in p.log.freed && x.data in q.log.received
  }

  lemma NothingLostIff(p: Peer, q: Peer)
    requires Inv(p, q) && p.store.table == map[]
    ensures NothingLost(p, q) <==> !RequestWaits(p)
  {
    if RequestWaits(p) {
      WaitingIsUnreleased(p, q);
    } else {
      forall x | x in p.log.issued ensures x in p.log.freed && x.data in q.log.received {
        EmptyTableStages(p, q, x);
        NoneWaiting(p, q, x);
        SomeStage(p, q, x);
        FreedWasReceived(p, q, x);
      }
    }
  }

  lemma TerminatingStep(p: Peer, q: Peer, step: Step)
    requires Enabled(p, q, step) && Gain(p, q, step, TermHere()) > 0
    ensures Act(p, q, step).session.status == Closed && Act(p, q, step).store.table == map[]
  {
    CloserTerms(p, q, step, TermHere());
    ActSession(p, q, step);
    ActStore(p, q, step);
  }

  /** In every run, whoever calls close and whenever: the step by which a session sends CLOSE_TERMINATE
      closes it with an empty table, and at that moment nothing it sent is lost if and only if no request
      is still waiting for a worker. */
  lemma ClosedWithoutLossIff(rule: Rule, s: Pair, trace: seq<Action>, t: Pair, step: Step)
    requires Start(s) && Leads(rule, s, trace, t)
    requires Enabled(t.left, t.right, step) && Gain(t.left, t.right, step, TermHere()) > 0
    ensures var (p, q) := (Act(t.left, t.right, step), React(t.left, t.right, step));
            p.session.status == Closed && p.store.table == map[] && (NothingLost(p, q) <==> !RequestWaits(p))
  {
    RunsAreGood(rule, s, trace, t);
    InvKept(t.left, t.right, step);
    TerminatingStep(t.left, t.right, step);
    NothingLostIff(Act(t.left, t.right, step), React(t.left, t.right, step));
  }

  lemma LostKept(p: Peer, q: Peer, x: Transfer)
    requires Inv(p, q) && x in p.log.issued && x in q.log.lost
    ensures x.addr in p.store.table
  {
    D.LostStage(p, q, x);
    DroppedAnnounced(p, q, x);
  }

  lemma LostRemains(p: Peer, q: Peer, step: Step, x: Transfer)
    requires Enabled(p, q, step) && x in p.log.issued && x in q.log.lost
    ensures x in Act(p, q, step).log.issued && x in React(p, q, step).log.lost
  {
    ActLog(p, q, step);
    ReactLog(p, q, step);
  }

  lemma EntryRemains(p: Peer, q: Peer, step: Step, x: Transfer)
    requires Enabled(p, q, step) && Inv(p, q) && x in p.log.issued && x in q.log.lost
    ensures Act(p, q, step).store.table != map[]
  {
    InvKept(p, q, step);
    LostRemains(p, q, step, x);
    LostKept(Act(p, q, step), React(p, q, step), x);
  }

  lemma LostTerminatesNot(p: Peer, q: Peer, step: Step, x: Transfer)
    requires Enabled(p, q, step) && Inv(p, q) && x in p.log.issued && x in q.log.lost
    ensures Gain(p, q, step, TermHere()) == 0
  {
    EntryRemains(p, q, step, x);
    if Gain(p, q, step, TermHere()) > 0 { TerminatingStep(p, q, step); }
  }

  /** A session that had a request dropped by its peer never sends CLOSE_TERMINATE: the entry of that
      transfer stays in its table. */
  lemma DroppedNeverTerminates(rule: Rule, s: Pair, trace: seq<Action>, t: Pair, step: Step, x: Transfer)
    requires Start(s) && Leads(rule, s, trace, t) && Enabled(t.left, t.right, step)
    requires x in t.left.log.issued && x in t.right.log.lost
    ensures Gain(t.left, t.right, step, TermHere()) == 0
  {
    RunsAreGood(rule, s, trace, t);
    LostTerminatesNot(t.left, t.right, step, x);
  }

  // ----- what is lost stays lost -----

  /** The left application sends and closes once, whenever it likes; the right one only receives. */
  ghost const ClosesOnce: Rule := (s: Pair, a: Action) =>
    if a.side == Right then OnlyReceives(a.step) else a.step.CloseEndpoint? ==> !s.left.app.closeCalled

  /** A close is called, under way or heard, and never twice. */
  ghost predicate OneClose(c: Peer, p: Peer) {
    Quiet(c, p) && Closes(c, p) + One(c.session.status != Work) == One(c.app.closeCalled)
  }

  ghost predicate ClosingOnce(s: Pair) { Good(s) && OneClose(s.left, s.right) }

  lemma CloserCallsOnce(c: Peer, p: Peer, step: Step)
    requires Enabled(c, p, step) && NothingStranded(c.queue) && OneClose(c, p)
    requires step.CloseEndpoint? ==> !c.app.closeCalled
    ensures OneClose(Act(c, p, step), React(c, p, step))
    ensures c.session.status == Closed ==> Act(c, p, step).session.status == Closed
  {
    QuietKept(c, p, step);
    CloserFlows(c, p, step);
    CloserFields(c, p, step);
    CloserSession(c, p, step);
  }

  lemma CloserOnce(s: Pair, step: Step)
    requires ClosingOnce(s) && s.CanDo(Action(Left, step)) && ClosesOnce(s, Action(Left, step))
    ensures ClosingOnce(s.Do(Action(Left, step)))
    ensures s.left.session.status == Closed ==> s.Do(Action(Left, step)).left.session.status == Closed
  {
    StepIsGood(s, Action(Left, step));
    CloserCallsOnce(s.left, s.right, step);
  }

  lemma PeerOnce(s: Pair, step: Step)
    requires ClosingOnce(s) && s.CanDo(Action(Right, step)) && OnlyReceives(step)
    ensures ClosingOnce(s.Do(Action(Right, step)))
    ensures s.Do(Action(Right, step)).left.session == s.left.session
  {
    StepIsGood(s, Action(Right, step));
    PeerQuietKept(s.right, s.left, step);
    PeerFlows(s.right, s.left, step);
    ReactRest(s.right, s.left, step);
  }

  lemma StepClosesOnce(s: Pair, a: Action)
    requires ClosingOnce(s) && s.CanDo(a) && ClosesOnce(s, a)
    ensures ClosingOnce(s.Do(a))
    ensures s.left.session.status == Closed ==> s.Do(a).left.session.status == Closed
  {
    if a.side == Left { CloserOnce(s, a.step); } else { PeerOnce(s, a.step); }
  }

  /** A closed session, at the end of its last batch, which holds no READ_OVER of `x`. */
  ghost predicate Deaf(p: Peer, x: Transfer) {
    && p.session.status == Closed && p.queue.loop == Waiting && x !in p.log.freed
    && forall e :: e in p.queue.batch ==> !(e.RecvWrite? && e.intent.Over? && e.intent.x == x)
  }

  lemma LeftStaysDeaf(p: Peer, q: Peer, step: Step, x: Transfer)
    requires Enabled(p, q, step) && Deaf(p, x) && Act(p, q, step).session.status == Closed
    ensures Deaf(Act(p, q, step), x)
  {
    ActLog(p, q, step);
    if step.Handle? { ProcessLeavesQueue(Taken(p), p.queue.batch[0]); }
  }

  lemma RightLeavesDeaf(p: Peer, q: Peer, step: Step, x: Transfer)
    requires Enabled(q, p, step) && Deaf(p, x)
    ensures Deaf(React(q, p, step), x)
  {
    ReactLog(q, p, step);
    ReactRest(q, p, step);
  }

  lemma StaysDeaf(s: Pair, a: Action, x: Transfer)
    requires s.CanDo(a) && Deaf(s.left, x) && s.Do(a).left.session.status == Closed
    ensures Deaf(s.Do(a).left, x)
  {
    if a.side == Left { LeftStaysDeaf(s.left, s.right, a.step, x); }
    else { RightLeavesDeaf(s.left, s.right, a.step, x); }
  }

  lemma {:induction false} DeafForGood(s: Pair, trace: seq<Action>, t: Pair, x: Transfer)
    requires ClosingOnce(s) && Deaf(s.left, x) && Leads(ClosesOnce, s, trace, t)
    ensures x !in t.left.log.freed
    decreases |trace|
  {
    if trace != [] {
      StepClosesOnce(s, trace[0]);
      StaysDeaf(s, trace[0], x);
      DeafForGood(s.Do(trace[0]), trace[1..], t, x);
    }
  }

  lemma NotYetClosing(c: Peer, p: Peer)
    requires Nothing(c) && Nothing(p) && c.session.status == Work && !c.app.closeCalled
    ensures OneClose(c, p)
  {
    NothingAtStart(c, p);
  }

  lemma StartsOneClose(c: Peer, p: Peer)
    requires Initial(c) && Initial(p)
    ensures OneClose(c, p)
  {
    StartsWithNothing(c);
    StartsWithNothing(p);
    NotYetClosing(c, p);
  }

  lemma StartClosesOnce(s: Pair)
    requires Start(s)
    ensures ClosingOnce(s)
  {
    StartIsGood(s);
    StartsOneClose(s.left, s.right);
  }

  lemma {:induction false} StayClosingOnce(s: Pair, trace: seq<Action>, t: Pair)
    requires ClosingOnce(s) && Leads(ClosesOnce, s, trace, t)
    ensures ClosingOnce(t)
    decreases |trace|
  {
    if trace != [] {
      StepClosesOnce(s, trace[0]);
      StayClosingOnce(s.Do(trace[0]), trace[1..], t);
    }
  }

  lemma NoOverYet(p: Peer, q: Peer, x: Transfer)
    requires Inv(p, q) && p.store.table == map[]
    ensures forall e :: e in p.queue.batch ==> !(e.RecvWrite? && e.intent.Over? && e.intent.x == x)
  {
    NoCompletionsLeft(p, q);
  }

  // ----- a run that closes too soon -----

  /** In every continuation `x` is not released. */
  ghost predicate NeverReleased(u: Pair, x: Transfer) {
    forall more, v :: Leads(ClosesOnce, u, more, v) ==> x !in v.left.log.freed
  }

  lemma OnceRuns(s: Pair, u: Pair)
    requires Start(s) && Reached(ClosesOnce, s, u)
    ensures ClosingOnce(u)
  {
    var trace :| Leads(ClosesOnce, s, trace, u);
    StartClosesOnce(s);
    StayClosingOnce(s, trace, u);
  }

  lemma DeafNow(u: Pair, x: Transfer)
    requires Good(u) && u.left.session.status == Closed && u.left.store.table == map[]
    requires u.left.queue.loop == Waiting && x !in u.left.log.freed
    ensures Deaf(u.left, x)
  {
    NoOverYet(u.left, u.right, x);
  }

  lemma DeafNeverReleases(u: Pair, x: Transfer)
    requires ClosingOnce(u) && Deaf(u.left, x)
    ensures NeverReleased(u, x)
  {
    forall more, v | Leads(ClosesOnce, u, more, v) ensures x !in v.left.log.freed { DeafForGood(u, more, v, x); }
  }

  /** What a session has not released when it closes, it never does. */
  lemma ClosedIsDeaf(s: Pair, u: Pair, x: Transfer)
    requires Start(s) && Reached(ClosesOnce, s, u) && u.left.session.status == Closed && u.left.store.table == map[]
    requires u.left.queue.loop == Waiting && x !in u.left.log.freed
    ensures NeverReleased(u, x)
  {
    OnceRuns(s, u);
    DeafNow(u, x);
    DeafNeverReleases(u, x);
  }

  lemma OnceIsFree()
    ensures Free(ClosesOnce)
  {
    forall s: Pair, a: Action | !External(a.step) ensures ClosesOnce(s, a) {
      assert OnlyReceives(a.step) && !a.step.CloseEndpoint?;
    }
  }

  lemma SendsAndCalls(p: Peer, q: Peer, x: Transfer) returns (p1: Peer, p2: Peer)
    requires Resting(p) && Sendable(p, x) && !p.app.closeCalled
    ensures Enabled(p, q, SendData(x)) && p1 == Act(p, q, SendData(x))
    ensures Enabled(p1, q, CloseEndpoint) && p2 == Act(p1, q, CloseEndpoint) && !p1.app.closeCalled
    ensures p2.log == p.log.(issued := Append(p.log.issued, x)) && p2.pools.pool == [Request(x)]
    ensures p2.card.wire == [SendPacket(Close, 0)] && p2.card.credits == p.card.credits
    ensures p2.queue == p.queue && p2.store.table == map[] && p2.session == p.session
  {
    p1 := Act(p, q, SendData(x));
    p2 := Act(p1, q, CloseEndpoint);
  }

  lemma AcknowledgesClose(q: Peer, p: Peer) returns (q1: Peer)
    requires q.queue == Queue([], [RecvSend(Close, 0)], true, 0, Waiting) && q.card.wire == []
    ensures Enabled(q, p, Handle) && q1 == Act(q, p, Handle) && q1.card.wire == [SendPacket(CloseAck, 0)]
  {
    q1 := Act(q, p, Handle);
  }

  /** The closing peer's own loop takes its event, re-arms, and polls the one completion. */
  lemma LeftPolls(s: Pair, p: Peer, q: Peer, e: Completion) returns (r: Peer)
    requires Reached(ClosesOnce, s, Pair(p, q))
    requires p.queue == Queue([e], [], false, 1, Waiting) && p.session.status != Closed
    ensures Reached(ClosesOnce, s, Pair(r, q)) && r == p.(queue := Queue([], [e], true, 0, Waiting))
  {
    OnceIsFree();
    var p1, p2, p3 := Polls(p, q, e);
    GoLeft(ClosesOnce, s, p, q, Wake);
    GoLeft(ClosesOnce, s, p1, q, Rearm);
    GoLeft(ClosesOnce, s, p2, q, PollQueue);
    r := p3;
  }

  lemma Ends(p: Peer, q: Peer) returns (r: Peer)
    requires p.queue == Queue([], [RecvSend(CloseAck, 0)], true, 0, Waiting) && p.store.table == map[]
    ensures Enabled(p, q, Handle) && r == Act(p, q, Handle)
    ensures r.session.status == Closed && r.store == p.store && r.log == p.log && r.queue.loop == Waiting
    ensures r.pools == p.pools
  {
    r := Act(p, q, Handle);
  }

  lemma CloseReaches(t: Pair, x: Transfer) returns (p: Peer, q: Peer)
    requires Resting(t.left) && Resting(t.right) && Sendable(t.left, x) && !t.left.app.closeCalled
    ensures Reached(ClosesOnce, t, Pair(p, q)) && p.pools.pool == [Request(x)] && p.store.table == map[]
    ensures p.log == t.left.log.(issued := Append(t.left.log.issued, x)) && p.queue == EMPTY_QUEUE
    ensures p.session.status == Work && p.card.credits > 0 && q.card.wire == [SendPacket(CloseAck, 0)]
  {
    OnceIsFree();
    var p1, p2 := SendsAndCalls(t.left, t.right, x);
    ReachedAtOnce(ClosesOnce, t);
    GoLeft(ClosesOnce, t, t.left, t.right, SendData(x));
    GoLeft(ClosesOnce, t, p1, t.right, CloseEndpoint);
    var q1;
    p, q1 := CloseDelivered(p2, t.right);
    GoLeft(ClosesOnce, t, p2, t.right, Deliver);
    var q2 := LoopPolls(ClosesOnce, t, p, q1, RecvSend(Close, 0));
    q := AcknowledgesClose(q2, p);
    GoRight(ClosesOnce, t, p, q2, Handle);
  }

  lemma CloseDelivered(p: Peer, q: Peer) returns (r: Peer, q1: Peer)
    requires p.card.wire == [SendPacket(Close, 0)] && Resting(q)
    ensures Enabled(p, q, Deliver) && r == Act(p, q, Deliver) && q1 == React(p, q, Deliver)
    ensures r == p.(card := p.card.(wire := []))
    ensures q1.queue == Queue([RecvSend(Close, 0)], [], false, 1, Waiting)
    ensures q1.session == q.session && q1.card.wire == []
  {
    r := Act(p, q, Deliver);
    q1 := React(p, q, Deliver);
  }

  lemma AckDelivered(q: Peer, p: Peer) returns (q1: Peer, r: Peer)
    requires q.card.wire == [SendPacket(CloseAck, 0)] && p.queue == EMPTY_QUEUE && p.card.credits > 0
    ensures Enabled(q, p, Deliver) && q1 == Act(q, p, Deliver) && r == React(q, p, Deliver)
    ensures r.queue == Queue([RecvSend(CloseAck, 0)], [], false, 1, Waiting)
    ensures r.session == p.session && r.store == p.store && r.log == p.log && r.pools == p.pools
  {
    q1 := Act(q, p, Deliver);
    r := React(q, p, Deliver);
  }

  lemma ClosesAtOnce(t: Pair, x: Transfer) returns (u: Pair)
    requires Resting(t.left) && Resting(t.right) && Sendable(t.left, x) && !t.left.app.closeCalled
    ensures Reached(ClosesOnce, t, u) && u.left.session.status == Closed && u.left.store.table == map[]
    ensures u.left.log == t.left.log.(issued := Append(t.left.log.issued, x)) && u.left.queue.loop == Waiting
    ensures u.left.pools.pool == [Request(x)]
  {
    OnceIsFree();
    var p, q := CloseReaches(t, x);
    var q1, p1 := AckDelivered(q, p);
    GoRight(ClosesOnce, t, p, q, Deliver);
    var p2 := LeftPolls(t, p1, q1, RecvSend(CloseAck, 0));
    var p3 := Ends(p2, q1);
    GoLeft(ClosesOnce, t, p2, q1, Handle);
    u := Pair(p3, q1);
  }

  lemma NewIsUnfreed(s: Pair, t: Pair, x: Transfer)
    requires Start(s) && Reached(ClosesOnce, s, t) && Sendable(t.left, x)
    ensures x !in t.left.log.freed
  {
    OnceRuns(s, t);
    FreedWasIssued(t.left, t.right, x);
  }

  /** Whenever a run comes to rest: the application sends any block and closes right after. CLOSE bypasses
      the locks, so CLOSE_ACK may find the table empty while the request waits for its worker; the session
      is CLOSED, and the block is never released. A daemon as receiver makes no difference. */
  lemma ClosingTooSoon(s: Pair, t: Pair, x: Transfer) returns (u: Pair)
    requires Start(s) && Reached(ClosesOnce, s, t)
    requires Resting(t.left) && Resting(t.right) && Sendable(t.left, x) && !t.left.app.closeCalled
    ensures Reached(ClosesOnce, t, u) && u.left.session.status == Closed && x in u.left.log.issued
    ensures RequestWaits(u.left) && NeverReleased(u, x)
  {
    NewIsUnfreed(s, t, x);
    u := ClosesAtOnce(t, x);
    assert Request(x) in u.left.pools.pool;
    ReachedThrough(ClosesOnce, s, t, u);
    ClosedIsDeaf(s, u, x);
  }
}
