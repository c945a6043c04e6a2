/** Pieces of concrete runs: what a few steps in a row do to peers at rest. */
module Schedules {
  import opened Bags
  import opened Message
  import opened Protocol
  import opened System
  import opened Reachable

  const EMPTY_QUEUE: Queue<Completion> := Queue([], [], true, 0, Waiting)

  /** Nothing is under way on this peer. */
  ghost predicate Resting(p: Peer) {
    && p.session.status == Work && p.queue == EMPTY_QUEUE && p.lanes.MayLock()
    && p.pools == Pools([], [], [], [], []) && p.card == Card([], [], [], p.card.credits) && p.card.credits > 1
    && p.store == Store(map[], map[], map[])
  }

  /** `x` may be the next block of `p`, whose heap is empty. */
  predicate Sendable(p: Peer, x: Transfer) { x.id == |p.log.issued| && x.ptr != 0 && x.ptr != x.addr }

  /** The rule has no say in the protocol's own steps. */
  ghost predicate Free(rule: Rule) { forall s, a: Action :: !External(a.step) ==> rule(s, a) }

  // ----- the sender -----

  /** Started workers `0..k` and the request of `x` as worker `k`, nothing posted. */
  ghost predicate AboutToSend(p: Peer, x: Transfer, k: nat) {
    && k < |p.pools.awake| && p.pools.awake[k] == Request(x)
    && p.lanes.MayLock() && p.card.wire == [] && p.store.heap == map[x.ptr := Source(x)]
  }

  /** What the sender's own steps below leave alone. */
  ghost predicate SameSender(p: Peer, r: Peer) {
    && r.app == p.app && r.session == p.session && r.log.issued == p.log.issued
    && r.store.heap == p.store.heap && r.queue == p.queue
  }

  lemma RunsRequest(p: Peer, x: Transfer)
    ensures var r := LockAndRun(p, Request(x));
            SameSender(p, r) && r.pools == p.pools && r.lanes.outgoing == FillFor(Request(x), p.lanes.outgoing)
            && r.card.wire == Append(p.card.wire, WritePacket(Request(x), None, p.lanes.round + 1))
  {
  }

  lemma Locks(p: Peer, q: Peer, x: Transfer, k: nat) returns (r: Peer)
    requires AboutToSend(p, x, k)
    ensures Enabled(p, q, CheckTask(k)) && r == Act(p, q, CheckTask(k))
    ensures SameSender(p, r) && r.pools == p.pools.(awake := Remove(p.pools.awake, k))
    ensures r.card.wire == [WritePacket(Request(x), None, p.lanes.round + 1)]
    ensures r.lanes.outgoing == FillFor(Request(x), p.lanes.outgoing)
  {
    var rest := p.(pools := p.pools.(awake := Remove(p.pools.awake, k)));
    r := LockAndRun(rest, Request(x));
    RunsRequest(rest, x);
  }

  /** The READ_REQUEST of `x` as the card takes it from the outgoing buffer. */
  ghost predicate Gathered(e: Packet, x: Transfer) {
    e.WritePacket? && e.intent == Request(x) && e.payload.Some? && |e.payload.value| == 20
    && Parse(e.payload.value) == x.Describe()
  }

  lemma Sends(p: Peer, q: Peer, x: Transfer, round: nat, b: Block) returns (r: Peer)
    requires p.card.wire == [WritePacket(Request(x), None, round)] && p.lanes.outgoing == FillFor(Request(x), b)
    ensures Enabled(p, q, Gather(0)) && r == Act(p, q, Gather(0))
    ensures SameSender(p, r) && r.pools == p.pools && |r.card.wire| == 1 && Gathered(r.card.wire[0], x)
  {
    r := Act(p, q, Gather(0));
    ParseOfFill(b, x.addr, |x.data|, Some(x.rkey));
    assert p.lanes.outgoing[..20] == p.lanes.outgoing;
  }

  /** The worker of `x` takes the locks and its request goes out. */
  lemma RequestGoes(rule: Rule, s: Pair, p: Peer, q: Peer, x: Transfer, k: nat) returns (r: Peer)
    requires Free(rule) && Reached(rule, s, Pair(p, q)) && AboutToSend(p, x, k)
    ensures Reached(rule, s, Pair(r, q)) && SameSender(p, r)
    ensures r.pools == p.pools.(awake := Remove(p.pools.awake, k))
    ensures |r.card.wire| == 1 && Gathered(r.card.wire[0], x)
  {
    var p1 := Locks(p, q, x, k);
    GoLeft(rule, s, p, q, CheckTask(k));
    r := Sends(p1, q, x, p.lanes.round + 1, p.lanes.outgoing);
    GoLeft(rule, s, p1, q, Gather(0));
  }

  // ----- the receiver -----

  /** Only a delivery changed this peer. */
  ghost predicate SameReceiver(q: Peer, r: Peer) {
    && r.session == q.session && r.pools == q.pools && r.store == q.store && r.log == q.log
    && r.counts == q.counts && r.app == q.app && r.card.wire == q.card.wire && r.card.fetches == q.card.fetches
  }

  lemma Delivers(p: Peer, q: Peer) returns (r: Peer, q1: Peer)
    requires |p.card.wire| == 1 && System.Gathered(p.card.wire[0]) && q.queue == EMPTY_QUEUE && q.card.credits > 0
    ensures Enabled(p, q, Deliver) && r == Act(p, q, Deliver) && q1 == React(p, q, Deliver)
    ensures SameSender(p, r) && r.pools == p.pools && r.lanes == p.lanes && r.card.wire == []
    ensures q1 == Arrive(q, p.card.wire[0]) && SameReceiver(q, q1) && q1.card.credits == q.card.credits - 1
  {
    r := Act(p, q, Deliver);
    q1 := React(p, q, Deliver);
  }

  lemma Polls(q: Peer, p: Peer, e: Completion) returns (q1: Peer, q2: Peer, q3: Peer)
    requires q.queue == Queue([e], [], false, 1, Waiting) && q.session.status != Closed
    ensures Enabled(q, p, Wake) && q1 == Act(q, p, Wake)
    ensures Enabled(q1, p, Rearm) && q2 == Act(q1, p, Rearm)
    ensures Enabled(q2, p, PollQueue) && q3 == Act(q2, p, PollQueue)
    ensures q3 == q.(queue := Queue([], [e], true, 0, Waiting))
  {
    q1 := Act(q, p, Wake);
    q2 := Act(q1, p, Rearm);
    q3 := Act(q2, p, PollQueue);
    assert [e][..1] == [e] && [e][1..] == [];
  }

  /** The loop takes its event, re-arms, and polls the one completion. */
  lemma LoopPolls(rule: Rule, s: Pair, p: Peer, q: Peer, e: Completion) returns (r: Peer)
    requires Free(rule) && Reached(rule, s, Pair(p, q))
    requires q.queue == Queue([e], [], false, 1, Waiting) && q.session.status != Closed
    ensures Reached(rule, s, Pair(p, r)) && r == q.(queue := Queue([], [e], true, 0, Waiting))
  {
    var q1, q2, q3 := Polls(q, p, e);
    GoRight(rule, s, p, q, Wake);
    GoRight(rule, s, p, q1, Rearm);
    GoRight(rule, s, p, q2, PollQueue);
    r := q3;
  }

  lemma RequestLands(p: Peer, q: Peer, x: Transfer) returns (r: Peer, q1: Peer)
    requires |p.card.wire| == 1 && Gathered(p.card.wire[0], x) && q.queue == EMPTY_QUEUE && q.card.credits > 0
    ensures Enabled(p, q, Deliver) && r == Act(p, q, Deliver) && q1 == React(p, q, Deliver)
    ensures SameSender(p, r) && r.pools == p.pools && SameReceiver(q, q1)
    ensures q1.queue == Queue([RecvWrite(Request(x), p.card.wire[0].round)], [], false, 1, Waiting)
    ensures Parse(q1.lanes.incoming) == x.Describe()
  {
    r, q1 := Delivers(p, q);
    var payload := p.card.wire[0].payload.value;
    assert Land(payload, q.lanes.incoming) == payload;
  }

  /** The request is delivered and polled, and about to be handled. */
  lemma RequestArrives(rule: Rule, s: Pair, p: Peer, q: Peer, x: Transfer) returns (r: Peer, q': Peer)
    requires Free(rule) && Reached(rule, s, Pair(p, q)) && |p.card.wire| == 1 && Gathered(p.card.wire[0], x)
    requires q.queue == EMPTY_QUEUE && q.card.credits > 0 && q.session.status != Closed
    ensures Reached(rule, s, Pair(r, q')) && SameSender(p, r) && r.pools == p.pools && SameReceiver(q, q')
    ensures q'.queue == Queue([], [RecvWrite(Request(x), p.card.wire[0].round)], true, 0, Waiting)
    ensures Parse(q'.lanes.incoming) == x.Describe()
  {
    var q1;
    r, q1 := RequestLands(p, q, x);
    GoLeft(rule, s, p, q, Deliver);
    q' := LoopPolls(rule, s, r, q1, RecvWrite(Request(x), p.card.wire[0].round));
  }
}
