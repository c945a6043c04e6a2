/** What becomes of a request that meets a session which no longer works (src/rdma_message.cpp): it is
    dropped without an ACK, and its sender stays locked for good. */
module Dropping {
  import opened Bags
  import opened Message
  import opened Protocol
  import opened System
  import opened Frames
  import opened LockTokens
  import opened Lifecycle
  import opened Stages
  import opened Reachable
  import opened Progress
  import opened Delivery
  import opened Guarantees
  import opened Schedules

  // ----- when a message is dropped -----

  /** The step handles a SYNC_REQUEST or a READ_REQUEST in a session that is not in WORK. */
  ghost predicate Drops(p: Peer, step: Step) {
    && step.Handle? && p.queue.batch != [] && p.queue.batch[0].RecvWrite? && !p.queue.batch[0].intent.Over?
    && p.session.status != Work
  }

  /** A message is dropped by exactly those steps, and then no ACK is posted. */
  lemma DroppedExactly(p: Peer, q: Peer, step: Step)
    requires Enabled(p, q, step)
    ensures |Act(p, q, step).log.dropped| == |p.log.dropped| + One(Drops(p, step))
    ensures React(p, q, step).log.dropped == q.log.dropped
  {
    ActLog(p, q, step);
    ReactLog(p, q, step);
  }

  lemma DropIsSilent(p: Peer, q: Peer, step: Step)
    requires Enabled(p, q, step) && Drops(p, step)
    ensures Act(p, q, step).card.wire == p.card.wire && Act(p, q, step).pools == p.pools
    ensures Act(p, q, step).counts == p.counts && Act(p, q, step).store == p.store
  {
  }

  /** How many messages the right session drops along a run. */
  ghost function DropsAlong(s: Pair, trace: seq<Action>): nat
    decreases |trace|
  {
    if trace == [] || !s.CanDo(trace[0]) then 0
    else One(trace[0].side == Right && Drops(s.right, trace[0].step)) + DropsAlong(s.Do(trace[0]), trace[1..])
  }

  lemma DroppedNow(s: Pair, a: Action)
    requires s.CanDo(a)
    ensures |s.Do(a).right.log.dropped| == |s.right.log.dropped| + One(a.side == Right && Drops(s.right, a.step))
  {
    if a.side == Left { DroppedExactly(s.left, s.right, a.step); } else { DroppedExactly(s.right, s.left, a.step); }
  }

  lemma {:induction false} DroppedAlong(rule: Rule, s: Pair, trace: seq<Action>, t: Pair)
    requires Leads(rule, s, trace, t)
    ensures |t.right.log.dropped| == |s.right.log.dropped| + DropsAlong(s, trace)
    decreases |trace|
  {
    if trace != [] {
      DroppedNow(s, trace[0]);
      DroppedAlong(rule, s.Do(trace[0]), trace[1..], t);
    }
  }

  // ----- what it does to the sender -----

  lemma DropHolds(p: Peer, q: Peer)
    requires OneToken(p, q) && q.log.dropped != []
    ensures p.lanes.remote == Locked
  {
    assert RemoteToken(p, q, None);
    HeadWeighs(q.log.dropped, FarTokens(None).dropped);
  }

  lemma DroppedStays(p: Peer, q: Peer, step: Step)
    requires Enabled(p, q, step)
    ensures p.log.dropped != [] ==> Act(p, q, step).log.dropped != []
    ensures q.log.dropped != [] ==> React(p, q, step).log.dropped != []
  {
    ActLog(p, q, step);
    ReactLog(p, q, step);
  }

  lemma LockedKeepsRound(p: Peer, q: Peer, step: Step)
    requires Enabled(p, q, step)
    ensures p.lanes.remote == Locked ==> Act(p, q, step).lanes.round == p.lanes.round
    ensures React(p, q, step).lanes.round == q.lanes.round
  {
    ActLanes(p, q, step);
    ReactLanes(p, q, step);
  }

  lemma DropStays(s: Pair, a: Action)
    requires Good(s) && s.CanDo(a) && s.right.log.dropped != []
    ensures s.Do(a).right.log.dropped != [] && s.Do(a).left.lanes.round == s.left.lanes.round
  {
    DropHolds(s.left, s.right);
    if a.side == Left {
      DroppedStays(s.left, s.right, a.step);
      LockedKeepsRound(s.left, s.right, a.step);
    } else {
      DroppedStays(s.right, s.left, a.step);
      LockedKeepsRound(s.right, s.left, a.step);
    }
  }

  /** Once the right session has dropped a message, the left peer's remote_status_ is LOCK for good, and
      no task of the left peer takes the locks again. */
  lemma {:induction false} DropsBlock(rule: Rule, s: Pair, trace: seq<Action>, t: Pair)
    requires Good(s) && Leads(rule, s, trace, t) && s.right.log.dropped != []
    ensures t.left.lanes.remote == Locked && t.left.lanes.round == s.left.lanes.round
    decreases |trace|
  {
    if trace == [] {
      DropHolds(t.left, t.right);
    } else {
      StepIsGood(s, trace[0]);
      DropStays(s, trace[0]);
      DropsBlock(rule, s.Do(trace[0]), trace[1..], t);
    }
  }

  lemma StuckSleeps(t: Pair)
    requires Good(t) && Stuck(t) && HasMemory(t.left) && HasMemory(t.right)
    requires t.left.session.status != Closed && t.right.session.status != Closed
    ensures OnlySleepers(t.left) && OnlySleepers(t.right)
  {
    if !OnlySleepers(t.left) {
      BusyMoves(t.left, t.right);
      SomeAction(t);
    }
    if !OnlySleepers(t.right) {
      BusyMoves(t.right, t.left);
      SomeAction(t);
    }
  }

  lemma RestIsFree(p: Peer, q: Peer)
    requires OneToken(p, q) && OnlySleepers(p) && OnlySleepers(q) && q.log.dropped == []
    ensures p.lanes.remote == Idle
  {
    LocksFree(p, q);
  }

  lemma BlockedIffGood(t: Pair)
    requires Good(t) && Stuck(t) && HasMemory(t.left) && HasMemory(t.right)
    requires t.left.session.status != Closed && t.right.session.status != Closed
    ensures t.left.lanes.remote == Locked <==> t.right.log.dropped != []
  {
    StuckSleeps(t);
    if t.right.log.dropped == [] { RestIsFree(t.left, t.right); } else { DropHolds(t.left, t.right); }
  }

  /** When the protocol has come to rest with both sessions open, a sender is still locked if and only if
      on the way the other session dropped a message of its. */
  lemma BlockedIffDropped(rule: Rule, s: Pair, trace: seq<Action>, t: Pair)
    requires Start(s) && Leads(rule, s, trace, t)
    requires Stuck(t) && HasMemory(t.left) && HasMemory(t.right)
    requires t.left.session.status != Closed && t.right.session.status != Closed
    ensures t.left.lanes.remote == Locked <==> DropsAlong(s, trace) > 0
  {
    RunsAreGood(rule, s, trace, t);
    BlockedIffGood(t);
    DroppedAlong(rule, s, trace, t);
  }

  // ----- a run that drops a block -----

  ghost const Anything: Rule := (s: Pair, a: Action) => true

  lemma Calls(p: Peer, q: Peer) returns (p1: Peer)
    requires Resting(p)
    ensures Enabled(p, q, CloseEndpoint) && p1 == Act(p, q, CloseEndpoint)
    ensures p1.card.wire == [SendPacket(Close, 0)]
    ensures p1.lanes == p.lanes && p1.pools == p.pools && p1.store == p.store && p1.log == p.log && p1.queue == p.queue
  {
    p1 := Act(p, q, CloseEndpoint);
  }

  lemma Closes(q: Peer, p: Peer) returns (q1: Peer)
    requires q.queue == Queue([], [RecvSend(Close, 0)], true, 0, Waiting) && !q.session.hasPre
    ensures Enabled(q, p, Handle) && q1 == Act(q, p, Handle)
    ensures q1.session.status == Closing && q1.queue == EMPTY_QUEUE && q1.card.credits > 0
  {
    q1 := Act(q, p, Handle);
  }

  /** CLOSE goes out, is handled, and leaves the peer CLOSING. */
  lemma CloseHeard(t: Pair) returns (p: Peer, q: Peer)
    requires Resting(t.left) && Resting(t.right) && !t.right.session.hasPre
    ensures Reached(Anything, t, Pair(p, q))
    ensures q.session.status == Closing && q.queue == EMPTY_QUEUE && q.card.credits > 0
    ensures p.pools == Pools([], [], [], [], []) && p.store.heap == map[] && p.log.issued == t.left.log.issued
    ensures p.lanes.MayLock() && p.card.wire == []
  {
    var p1 := Calls(t.left, t.right);
    ReachedAtOnce(Anything, t);
    GoLeft(Anything, t, t.left, t.right, CloseEndpoint);
    var q1;
    p, q1 := Delivers(p1, t.right);
    GoLeft(Anything, t, p1, t.right, Deliver);
    var q2 := LoopPolls(Anything, t, p, q1, RecvSend(Close, 0));
    q := Closes(q2, p);
    GoRight(Anything, t, p, q2, Handle);
  }

  lemma SendsLate(p: Peer, q: Peer, x: Transfer) returns (p1: Peer, p2: Peer)
    requires p.pools == Pools([], [], [], [], []) && p.store.heap == map[] && Sendable(p, x)
    ensures Enabled(p, q, SendData(x)) && p1 == Act(p, q, SendData(x))
    ensures Enabled(p1, q, StartTask(0)) && p2 == Act(p1, q, StartTask(0))
    ensures p2.pools.awake == [Request(x)] && p2.store.heap == map[x.ptr := Source(x)]
    ensures p2.log.issued == p.log.issued + [x] && p2.lanes == p.lanes && p2.card == p.card
  {
    p1 := Act(p, q, SendData(x));
    p2 := Act(p1, q, StartTask(0));
    assert p2.store.heap == map[x.ptr := Source(x)];
  }

  lemma Refuses(q: Peer, p: Peer, x: Transfer, round: nat) returns (q1: Peer)
    requires q.queue == Queue([], [RecvWrite(Request(x), round)], true, 0, Waiting) && q.session.status == Closing
    ensures Enabled(q, p, Handle) && q1 == Act(q, p, Handle)
    ensures q1.log.dropped != [] && x in q1.log.lost
  {
    q1 := Act(q, p, Handle);
    assert q1.log.dropped == Append(q.log.dropped, Ignored(Request(x), round));
  }

  lemma LateRequest(t: Pair, x: Transfer) returns (u: Pair)
    requires Resting(t.left) && Resting(t.right) && !t.right.session.hasPre && Sendable(t.left, x)
    ensures Reached(Anything, t, u) && u.left.log.issued == t.left.log.issued + [x]
    ensures u.right.log.dropped != [] && x in u.right.log.lost
  {
    var p, q := CloseHeard(t);
    var p1, p2 := SendsLate(p, q, x);
    GoLeft(Anything, t, p, q, SendData(x));
    GoLeft(Anything, t, p1, q, StartTask(0));
    var p3 := RequestGoes(Anything, t, p2, q, x, 0);
    var p4, q1 := RequestArrives(Anything, t, p3, q, x);
    var q2 := Refuses(q1, p4, x, p3.card.wire[0].round);
    GoRight(Anything, t, p4, q1, Handle);
    u := Pair(p4, q2);
  }

  /** A block is lost: it is never read, never released, and its sender never takes the locks again. */
  ghost predicate Lost(u: Pair, x: Transfer) {
    forall more, v :: Leads(Anything, u, more, v) ==>
      v.left.lanes.remote == Locked && v.left.lanes.round == u.left.lanes.round
      && x !in v.right.log.read && x !in v.left.log.freed
  }

  lemma LostStage(p: Peer, q: Peer, x: Transfer)
    requires Conserved(p, q) && Numbered(p.log) && x in p.log.issued && x in q.log.lost
    ensures StageOf(p, q, x) == Dropped
  {
    InItsStage(p, q, x);
    assert x in LogOf(p, q, Dropped) <==> Passed(Dropped, StageOf(p, q, x));
  }

  lemma DroppedNotRead(p: Peer, q: Peer, x: Transfer)
    requires Conserved(p, q) && Numbered(p.log) && x in p.log.issued && Rank(StageOf(p, q, x)) >= 8
    ensures x !in q.log.read && x !in p.log.freed
  {
    InItsStage(p, q, x);
    assert x in LogOf(p, q, Returning) <==> Passed(Returning, Dropped);
    assert x in LogOf(p, q, Freed) <==> Passed(Freed, Dropped);
  }

  lemma LostLater(u: Pair, more: seq<Action>, v: Pair, x: Transfer)
    requires Good(u) && x in u.left.log.issued && RankIn(u, x) >= 8 && Leads(Anything, u, more, v)
    ensures x !in v.right.log.read && x !in v.left.log.freed
  {
    OnlyForward(Anything, u, more, v, x);
    StayGood(Anything, u, more, v);
    DroppedNotRead(v.left, v.right, x);
  }

  lemma LostForGood(u: Pair, x: Transfer)
    requires Good(u) && RankIn(u, x) >= 8 && x in u.left.log.issued && u.right.log.dropped != []
    ensures Lost(u, x)
  {
    forall more, v | Leads(Anything, u, more, v)
      ensures v.left.lanes.remote == Locked && v.left.lanes.round == u.left.lanes.round
      ensures x !in v.right.log.read && x !in v.left.log.freed
    {
      DropsBlock(Anything, u, more, v);
      LostLater(u, more, v, x);
    }
  }

  lemma LostRank(u: Pair, x: Transfer)
    requires Good(u) && x in u.left.log.issued && x in u.right.log.lost
    ensures RankIn(u, x) >= 8
  {
    LostStage(u.left, u.right, x);
  }

  lemma LostFromStart(s: Pair, t: Pair, u: Pair, x: Transfer)
    requires Start(s) && Reached(Anything, s, t) && Reached(Anything, t, u)
    requires x in u.left.log.issued && x in u.right.log.lost && u.right.log.dropped != []
    ensures Lost(u, x)
  {
    StartIsGood(s);
    StaysGood(s, t);
    StaysGood(t, u);
    LostRank(u, x);
    LostForGood(u, x);
  }

  lemma StaysGood(t: Pair, u: Pair)
    requires Good(t) && Reached(Anything, t, u)
    ensures Good(u)
  {
    var trace :| Leads(Anything, t, trace, u);
    StayGood(Anything, t, trace, u);
  }

  /** Whenever a run comes to rest and the receiver is no daemon: the sender calls close, sends any block
      after it, the request meets a session that is CLOSING, and the block is lost for good. */
  lemma DroppingHappens(s: Pair, t: Pair, x: Transfer) returns (u: Pair)
    requires Start(s) && Reached(Anything, s, t)
    requires Resting(t.left) && Resting(t.right) && !t.right.session.hasPre && Sendable(t.left, x)
    ensures Reached(Anything, t, u) && u.left.log.issued == t.left.log.issued + [x] && Lost(u, x)
  {
    u := LateRequest(t, x);
    LostFromStart(s, t, u, x);
  }
}
