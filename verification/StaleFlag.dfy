/** How a barrier set too soon is answered by the SYNC_ACK of another one (src/rdma_endpoint.cpp,
    src/rdma_message.cpp). */
module StaleFlag {
  import opened Bags
  import opened Words
  import opened Message
  import opened Protocol
  import opened System
  import opened CompletionLoop
  import opened Frames
  import opened Ledger
  import opened Lifecycle
  import opened Stages
  import opened Credits
  import opened Reachable
  import opened Progress
  import opened Delivery
  import opened Guarantees
  import opened Barriers
  import opened Schedules
  import opened Overtaking
  import opened EarlyReturn
  import opened FlagChecked

  // ----- a SYNC_ACK on its way arrives -----

  /** The loop of the left peer and the link towards it have something to do. */
  ghost predicate Talking(t: Pair) { LoopBusy(t.left.queue) || t.right.card.wire != [] }

  ghost function NextTalk(t: Pair): Action
    requires Talking(t)
  {
    if LoopBusy(t.left.queue) then Action(Left, LoopStep(t.left.queue)) else Action(Right, WireStep(t.right.card))
  }

  lemma AckTalks(p: Peer, q: Peer)
    requires Acks(p, q) > 0
    ensures LoopBusy(p.queue) || q.card.wire != []
  {
    CompletionsWeigh(p, AckHere().completion);
    PacketsWeigh(q, AckThere().packet);
  }

  lemma LinkMoves(q: Peer, p: Peer)
    requires Inv(q, p) && q.card.wire != [] && !LoopBusy(p.queue)
    ensures Enabled(q, p, WireStep(q.card)) && !External(WireStep(q.card))
  {
    if p.card.credits == 0 { NoCreditsBusy(p); }
    WireStepEnabled(q, p);
  }

  lemma TalkEnabled(t: Pair)
    requires BothWorking(t) && Talking(t)
    ensures t.CanDo(NextTalk(t)) && !External(NextTalk(t).step)
  {
    if LoopBusy(t.left.queue) { LoopStepEnabled(t.left, t.right); } else { LinkMoves(t.right, t.left); }
  }

  /** What the talk leaves alone. */
  ghost predicate SameAbove(t: Pair, u: Pair) {
    && u.left.log.issued == t.left.log.issued && u.left.app.barrier == t.left.app.barrier
    && u.right.log.read == t.right.log.read
  }

  lemma LoopKeeps(p: Peer, q: Peer)
    requires Enabled(p, q, LoopStep(p.queue))
    ensures var step := LoopStep(p.queue);
            Act(p, q, step).log.issued == p.log.issued && Act(p, q, step).app.barrier == p.app.barrier
            && React(p, q, step).log == q.log
            && Act(p, q, step).session.syncFlag == (p.session.syncFlag || Hears(p, step))
  {
    ActLog(p, q, LoopStep(p.queue));
    ReactLog(p, q, LoopStep(p.queue));
    SetterBarrier(p, q, LoopStep(p.queue));
    ActSession(p, q, LoopStep(p.queue));
    SetterLanes(p, q, LoopStep(p.queue));
  }

  lemma LinkKeeps(q: Peer, p: Peer)
    requires q.card.wire != [] && Enabled(q, p, WireStep(q.card))
    ensures var step := WireStep(q.card);
            Act(q, p, step).log == q.log && React(q, p, step).log == p.log && React(q, p, step).app == p.app
            && React(q, p, step).session == p.session
  {
    ActLog(q, p, WireStep(q.card));
    ReactLog(q, p, WireStep(q.card));
    ReactRest(q, p, WireStep(q.card));
  }

  lemma LoopAcks(p: Peer, q: Peer)
    requires Enabled(p, q, LoopStep(p.queue)) && NothingStranded(p.queue)
    ensures var step := LoopStep(p.queue);
            Acks(Act(p, q, step), React(p, q, step)) + One(Hears(p, step)) == Acks(p, q)
  {
    SetterAcks(p, q, LoopStep(p.queue));
  }

  lemma LinkAcks(q: Peer, p: Peer)
    requires q.card.wire != [] && Enabled(q, p, WireStep(q.card)) && NothingStranded(q.queue)
    ensures Acks(React(q, p, WireStep(q.card)), Act(q, p, WireStep(q.card))) == Acks(p, q)
  {
    CounterAcks(q, p, WireStep(q.card));
  }

  /** The flag is up, or its SYNC_ACK is on the way. */
  ghost predicate Answered(t: Pair) { t.left.session.syncFlag || Acks(t.left, t.right) > 0 }

  lemma TalkKeeps(t: Pair)
    requires Talking(t) && t.CanDo(NextTalk(t)) && NothingStranded(t.left.queue) && NothingStranded(t.right.queue)
    requires Answered(t)
    ensures SameAbove(t, t.Do(NextTalk(t))) && Answered(t.Do(NextTalk(t)))
  {
    if LoopBusy(t.left.queue) {
      LoopKeeps(t.left, t.right);
      LoopAcks(t.left, t.right);
    } else {
      LinkKeeps(t.right, t.left);
      LinkAcks(t.right, t.left);
    }
  }

  lemma TalkGoesOn(t: Pair)
    requires BothWorking(t) && Acks(t.left, t.right) > 0
    ensures Talking(t) && t.CanDo(NextTalk(t)) && !External(NextTalk(t).step)
    ensures BothWorking(t.Do(NextTalk(t))) && Remaining(t.Do(NextTalk(t))) < Remaining(t)
    ensures SameAbove(t, t.Do(NextTalk(t))) && Answered(t.Do(NextTalk(t)))
  {
    AckTalks(t.left, t.right);
    TalkEnabled(t);
    StepKeepsWorking(t, NextTalk(t));
    ActionsWork(t, NextTalk(t));
    TalkKeeps(t);
  }

  /** Whatever else is under way, a SYNC_ACK can be brought home, and the flag raised, without anything
      being read meanwhile. */
  lemma {:induction false} AckArrives(rule: Rule, t: Pair) returns (u: Pair)
    requires Free(rule) && BothWorking(t) && Answered(t)
    ensures Reached(rule, t, u) && u.left.session.syncFlag && SameAbove(t, u)
    decreases Remaining(t)
  {
    if t.left.session.syncFlag {
      ReachedAtOnce(rule, t);
      u := t;
    } else {
      TalkGoesOn(t);
      u := AckArrives(rule, t.Do(NextTalk(t)));
      ReachedFirst(rule, t, NextTalk(t), u);
    }
  }

  // ----- the answer to a round that is no longer waited for -----

  lemma EarlyIsFree()
    ensures Free(ByRoundsEarly)
  {
    forall s: Pair, a: Action | !External(a.step) ensures ByRoundsEarly(s, a) {
      OwnStep(if a.side == Left then s.left else s.right, a.step);
    }
  }

  /** A barrier of `n` bytes and a block `y` within it, beside whatever is alive. */
  ghost predicate Allowed(p: Peer, n: u64, y: Transfer) {
    |y.data| <= n < INT_LIMIT && y.id == |p.log.issued| && FreshIn(p.store.heap, y.ptr, y.addr)
  }

  lemma AppStep(t: Pair, step: Step)
    requires t.CanDo(Action(Left, step)) && NothingStranded(t.left.queue)
    requires step.ReturnEarly? || step.SetSyncBarrier? || step.SendData?
    ensures t.Do(Action(Left, step)).right == t.right
    ensures Acks(t.Do(Action(Left, step)).left, t.right) == Acks(t.left, t.right)
  {
    SetterAcks(t.left, t.right, step);
  }

  lemma AppWorks(t: Pair, step: Step)
    requires BothWorking(t) && t.CanDo(Action(Left, step))
    requires step.ReturnEarly? || step.SetSyncBarrier? || step.SendData?
    ensures BothWorking(t.Do(Action(Left, step))) && t.Do(Action(Left, step)).right == t.right
    ensures Acks(t.Do(Action(Left, step)).left, t.right) == Acks(t.left, t.right)
  {
    StepKeepsWorking(t, Action(Left, step));
    AppStep(t, step);
  }

  lemma GivesUp(p: Peer, q: Peer, n: u64, y: Transfer) returns (p1: Peer, p2: Peer, p3: Peer)
    requires !p.session.syncFlag && Allowed(p, n, y)
    ensures Enabled(p, q, Step.ReturnEarly) && p1 == Act(p, q, Step.ReturnEarly)
    ensures Enabled(p1, q, SetSyncBarrier(n)) && p2 == Act(p1, q, SetSyncBarrier(n))
    ensures BarrierStep(p1, SetSyncBarrier(n))
    ensures Enabled(p2, q, SendData(y)) && p3 == Act(p2, q, SendData(y)) && BarrierStep(p2, SendData(y))
    ensures p3.log.issued == p.log.issued + [y] && p3.app.barrier == Open(n, Sent(p))
  {
    p1 := Act(p, q, Step.ReturnEarly);
    p2 := Act(p1, q, SetSyncBarrier(n));
    p3 := Act(p2, q, SendData(y));
  }

  lemma NextRoundWorks(t: Pair, p1: Peer, p2: Peer, p3: Peer, n: u64, y: Transfer)
    requires BothWorking(t)
    requires Enabled(t.left, t.right, Step.ReturnEarly) && p1 == Act(t.left, t.right, Step.ReturnEarly)
    requires Enabled(p1, t.right, SetSyncBarrier(n)) && p2 == Act(p1, t.right, SetSyncBarrier(n))
    requires Enabled(p2, t.right, SendData(y)) && p3 == Act(p2, t.right, SendData(y))
    ensures BothWorking(Pair(p3, t.right)) && Acks(p3, t.right) == Acks(t.left, t.right)
  {
    AppWorks(t, Step.ReturnEarly);
    AppWorks(Pair(p1, t.right), SetSyncBarrier(n));
    AppWorks(Pair(p2, t.right), SendData(y));
  }

  lemma NextRoundReached(t: Pair, n: u64, y: Transfer) returns (p1: Peer, p2: Peer, p3: Peer)
    requires !t.left.session.syncFlag && Allowed(t.left, n, y)
    ensures Enabled(t.left, t.right, Step.ReturnEarly) && p1 == Act(t.left, t.right, Step.ReturnEarly)
    ensures Enabled(p1, t.right, SetSyncBarrier(n)) && p2 == Act(p1, t.right, SetSyncBarrier(n))
    ensures Enabled(p2, t.right, SendData(y)) && p3 == Act(p2, t.right, SendData(y))
    ensures Reached(ByRoundsEarly, t, Pair(p3, t.right))
    ensures p3.log.issued == t.left.log.issued + [y] && p3.app.barrier == Open(n, Sent(t.left))
  {
    p1, p2, p3 := GivesUp(t.left, t.right, n, y);
    ReachedAtOnce(ByRoundsEarly, t);
    GoLeft(ByRoundsEarly, t, t.left, t.right, Step.ReturnEarly);
    GoLeft(ByRoundsEarly, t, p1, t.right, SetSyncBarrier(n));
    GoLeft(ByRoundsEarly, t, p2, t.right, SendData(y));
  }

  lemma NextRound(t: Pair, n: u64, y: Transfer) returns (u: Pair)
    requires !t.left.session.syncFlag && Allowed(t.left, n, y)
    requires BothWorking(t) && Acks(t.left, t.right) > 0
    ensures Reached(ByRoundsEarly, t, u) && BothWorking(u) && Acks(u.left, u.right) > 0 && u.right == t.right
    ensures u.left.log.issued == t.left.log.issued + [y] && u.left.app.barrier == Open(n, Sent(t.left))
  {
    var p1, p2, p3 := NextRoundReached(t, n, y);
    NextRoundWorks(t, p1, p2, p3, n, y);
    u := Pair(p3, t.right);
  }

  /** What will be sent later was not read. */
  lemma NewIsUnread(p: Peer, q: Peer, y: Transfer)
    requires Conserved(p, q) && Numbered(p.log) && y.id >= |p.log.issued|
    ensures y !in q.log.read
  {
    LoggedOnce(p, q, y);
    Occurs(q.log.read, y);
  }

  /** Whenever a SYNC_ACK is on its way: the wait ends early, the application sets its next barrier and
      sends a block, the old SYNC_ACK raises the flag, and the block is unread. */
  lemma StaleFlagHappens(t: Pair, n: u64, y: Transfer) returns (u: Pair)
    requires BothWorking(t) && !t.left.session.syncFlag && Acks(t.left, t.right) > 0 && Allowed(t.left, n, y)
    ensures Reached(ByRoundsEarly, t, u) && u.left.session.syncFlag && u.left.app.barrier == Open(n, Sent(t.left))
    ensures y in u.left.log.issued && y !in u.right.log.read
  {
    NewIsUnread(t.left, t.right, y);
    var v := NextRound(t, n, y);
    EarlyIsFree();
    u := AckArrives(ByRoundsEarly, v);
    ReachedThrough(ByRoundsEarly, t, v, u);
  }

  lemma RisesByAck(p: Peer, q: Peer, step: Step)
    requires Enabled(p, q, step) && !p.session.syncFlag && Act(p, q, step).session.syncFlag
    ensures Acks(p, q) > 0
  {
    ActSession(p, q, step);
    SetterLanes(p, q, step);
    HeadWeighs(p.queue.batch, AckHere().completion);
  }

  lemma RisingWorks(s: Pair, trace: seq<Action>, t: Pair)
    requires Start(s) && Leads(ByRounds, s, trace, t)
    ensures BothWorking(t)
  {
    RoundRuns(s, trace, t);
  }

  /** There is such a moment in every round that ends: just before its flag comes up. */
  lemma EveryRoundMayGoStale(s: Pair, trace: seq<Action>, t: Pair, step: Step, n: u64, y: Transfer) returns (u: Pair)
    requires Start(s) && Leads(ByRounds, s, trace, t) && Enabled(t.left, t.right, step) && Allowed(t.left, n, y)
    requires !t.left.session.syncFlag && Act(t.left, t.right, step).session.syncFlag
    ensures Reached(ByRoundsEarly, t, u) && u.left.session.syncFlag
    ensures y in u.left.log.issued && y !in u.right.log.read
  {
    RisesByAck(t.left, t.right, step);
    RisingWorks(s, trace, t);
    u := StaleFlagHappens(t, n, y);
  }

  // ----- the answer to a round that never ended -----

  lemma RoundsNeverClose(s: Pair, a: Action)
    ensures ByRounds(s, a) || ChecksFlag(s, a) ==> NeverCloses(s, a)
  {
  }

  lemma WorkingOn(s: Pair, t: Pair)
    requires BothWorking(s) && Reached(ByRounds, s, t)
    ensures BothWorking(t)
  {
    var trace :| Leads(ByRounds, s, trace, t);
    forall s, a: Action | ByRounds(s, a) ensures NeverCloses(s, a) { RoundsNeverClose(s, a); }
    LeadsWithin(ByRounds, NeverCloses, s, trace, t);
    StayWorking(s, trace, t);
  }

  lemma CheckedWork(s: Pair, t: Pair)
    requires Start(s) && Reached(ChecksFlag, s, t)
    ensures BothWorking(t)
  {
    var trace :| Leads(ChecksFlag, s, trace, t);
    forall s, a: Action | ChecksFlag(s, a) ensures NeverCloses(s, a) { RoundsNeverClose(s, a); }
    LeadsWithin(ChecksFlag, NeverCloses, s, trace, t);
    WorkingRuns(s, trace, t);
  }

  /** Blocks `y` and `w` for a barrier of `n` bytes, of which `y` brings the counter to its old target. */
  ghost predicate Tempting(t: Pair, n: u64, y: Transfer, w: Transfer) {
    && BetweenRounds(t, n, y) && |y.data| + |w.data| <= n && Hits(t.right.counts, y)
    && w.id == |t.left.log.issued| + 1 && w.ptr != 0 && w.ptr != w.addr
    && w.ptr != y.ptr && w.ptr != y.addr && w.addr != y.ptr && w.addr != y.addr
  }

  lemma SendsMore(p: Peer, q: Peer, n: u64, base: nat, y: Transfer, w: Transfer) returns (r: Peer)
    requires p.app.barrier == Open(n, base) && p.store.heap == map[y.ptr := Source(y)] && w.id == |p.log.issued|
    requires Sent(p) + |w.data| <= base + n
    requires w.ptr != 0 && w.ptr != w.addr && w.ptr != y.ptr && w.ptr != y.addr && w.addr != y.ptr && w.addr != y.addr
    ensures Enabled(p, q, SendData(w)) && BarrierStep(p, SendData(w)) && r == Act(p, q, SendData(w))
    ensures w in r.log.issued
  {
    r := Act(p, q, SendData(w));
  }

  lemma SentMore(p: Peer, r: Peer, y: Transfer)
    requires r.log.issued == p.log.issued + [y]
    ensures Sent(r) == Sent(p) + |y.data|
  {
    SumConcat(p.log.issued, [y], ByteWeight());
  }

  lemma AckPosted(u: Pair)
    requires SendPacket(SyncAck, 0) in u.right.card.wire
    ensures Acks(u.left, u.right) > 0
  {
    Outweighed(u.right.card.wire, AckThere().packet, SendPacket(SyncAck, 0));
  }

  /** The new round's first block is read before its SYNC_REQUEST is accepted, and answered. */
  lemma OldTargetMet(t: Pair, n: u64, y: Transfer, w: Transfer) returns (u: Pair)
    requires Tempting(t, n, y, w)
    ensures Reached(ByRounds, t, u) && w in u.left.log.issued && Acks(u.left, u.right) > 0
    ensures u.right.log.read == Append(t.right.log.read, y)
  {
    var v := RightCounts(t, n, y);
    SentMore(t.left, v.left, y);
    var p := SendsMore(v.left, v.right, n, Sent(t.left), y, w);
    GoLeft(ByRounds, t, v.left, v.right, SendData(w));
    AckPosted(v);
    u := Pair(p, v.right);
    AppAcks(v.left, v.right, w);
  }

  lemma AppAcks(p: Peer, q: Peer, w: Transfer)
    requires Enabled(p, q, SendData(w))
    ensures Acks(Act(p, q, SendData(w)), React(p, q, SendData(w))) >= Acks(p, q)
  {
  }

  lemma WasUnread(s: Pair, t: Pair, w: Transfer)
    requires Start(s) && Reached(ChecksFlag, s, t) && w.id >= |t.left.log.issued|
    ensures w !in t.right.log.read
  {
    CheckedWork(s, t);
    NewIsUnread(t.left, t.right, w);
  }

  lemma AckFollows(s: Pair, t: Pair, v: Pair) returns (u: Pair)
    requires Start(s) && Reached(ChecksFlag, s, t) && Reached(ByRounds, t, v) && Acks(v.left, v.right) > 0
    ensures Reached(ByRounds, t, u) && u.left.session.syncFlag && SameAbove(v, u)
  {
    CheckedWork(s, t);
    WorkingOn(t, v);
    RoundsAreFree();
    u := AckArrives(ByRounds, v);
    ReachedThrough(ByRounds, t, v, u);
  }

  /** Two peers at rest, everything read, but the counter below its target: the next round's flag comes up
      with a block unread. */
  lemma PoisonedRound(s: Pair, t: Pair, n: u64, y: Transfer, w: Transfer) returns (u: Pair)
    requires Start(s) && Reached(ChecksFlag, s, t) && Tempting(t, n, y, w)
    ensures Reached(ByRounds, t, u) && u.left.session.syncFlag && w in u.left.log.issued && w !in u.right.log.read
  {
    WasUnread(s, t, w);
    var v := OldTargetMet(t, n, y, w);
    u := AckFollows(s, t, v);
  }

  // ----- exactly when the next barrier is safe -----

  /** In every continuation by rounds, a raised flag means that everything sent was read. */
  ghost predicate SafeFrom(t: Pair) {
    forall u :: Reached(ByRounds, t, u) && u.left.session.syncFlag ==> AllRead(u.left, u.right)
  }

  lemma FlagAllRead(u: Pair)
    requires InRounds(u) && u.left.session.syncFlag
    ensures AllRead(u.left, u.right)
  {
    FlagMeansRead(ViewOf(u.left, u.right));
    AllReadIffBytes(u.left, u.right);
  }

  lemma RoundsAreSafe(t: Pair)
    requires InRounds(t)
    ensures SafeFrom(t)
  {
    forall u | Reached(ByRounds, t, u) && u.left.session.syncFlag ensures AllRead(u.left, u.right) {
      StaysInRounds(t, u);
      FlagAllRead(u);
    }
  }

  lemma CheckedIsSafe(s: Pair, trace: seq<Action>, t: Pair)
    requires Start(s) && Leads(ChecksFlag, s, trace, t) && t.left.app.barrier == Ready
    requires RoundOver(t.left, t.right)
    ensures SafeFrom(t)
  {
    var last := CheckedRuns(s, trace, t);
    ReadyAgain(t, last);
    assert Shaded(t, Ready) == t;
    RoundsAreSafe(t);
  }

  lemma BelowAtRest(t: Pair)
    requires BothWorking(t) && Remaining(t) == 0
    ensures RoundOver(t.left, t.right) <==> t.right.counts.total >= t.right.counts.target
  {
    EverythingThrough(t.left, t.right, ByteWeight());
    NoSyncsLeft(t.left, t.right);
  }

  function Zeros(k: nat): (z: Payload)
    requires 0 < k < 0x8000_0000
    ensures |z| == k
  {
    seq(k, i => 0)
  }

  lemma Temptation(t: Pair) returns (n: u64, y: Transfer, w: Transfer)
    requires Resting(t.left) && Resting(t.right) && t.left.app.barrier == Ready
    requires 0 < t.right.counts.target - t.right.counts.total < INT_LIMIT - 1
    ensures Tempting(t, n, y, w)
  {
    var k := t.right.counts.target - t.right.counts.total;
    n := k + 1;
    y := Transfer(|t.left.log.issued|, 1, 2, Zeros(k), 0);
    w := Transfer(|t.left.log.issued| + 1, 3, 4, [0], 0);
  }

  lemma IsUnsafe(t: Pair, u: Pair, w: Transfer)
    requires Reached(ByRounds, t, u) && u.left.session.syncFlag && w in u.left.log.issued && w !in u.right.log.read
    ensures !SafeFrom(t)
  {
    assert !AllRead(u.left, u.right);
  }

  lemma BelowIsUnsafe(s: Pair, t: Pair)
    requires Start(s) && Reached(ChecksFlag, s, t)
    requires Resting(t.left) && Resting(t.right) && t.left.app.barrier == Ready
    requires 0 < t.right.counts.target - t.right.counts.total < INT_LIMIT - 1
    ensures !SafeFrom(t)
  {
    var n, y, w := Temptation(t);
    var u := PoisonedRound(s, t, n, y, w);
    IsUnsafe(t, u, w);
  }

  lemma CheckedRests(s: Pair, t: Pair)
    requires Start(s) && Reached(ChecksFlag, s, t) && Stuck(t) && HasMemory(t.left) && HasMemory(t.right)
    ensures Resting(t.left) && Resting(t.right)
  {
    CheckedWork(s, t);
    StuckRests(t);
  }

  lemma RestUnsafe(s: Pair, t: Pair)
    requires Start(s) && Reached(ChecksFlag, s, t) && Stuck(t) && HasMemory(t.left) && HasMemory(t.right)
    requires t.left.app.barrier == Ready && 0 < t.right.counts.target - t.right.counts.total < INT_LIMIT - 1
    ensures !SafeFrom(t)
  {
    CheckedRests(s, t);
    BelowIsUnsafe(s, t);
  }

  lemma RestOver(s: Pair, t: Pair)
    requires Start(s) && Reached(ChecksFlag, s, t) && Stuck(t) && HasMemory(t.left) && HasMemory(t.right)
    ensures RoundOver(t.left, t.right) <==> t.right.counts.total >= t.right.counts.target
  {
    CheckedWork(s, t);
    StuckIsFinished(t);
    BelowAtRest(t);
  }

  /** An application, some of whose waits ended early, is about to set its next barrier, and the protocol
      has come to rest. The flag can be trusted from then on if and only if it is up now, or this is the
      first barrier. (The last premise leaves room for one more byte in an `int`.) */
  lemma BarrierIsSafeIff(s: Pair, before: seq<Action>, t: Pair)
    requires Start(s) && Leads(ChecksFlag, s, before, t) && t.left.app.barrier == Ready
    requires Stuck(t) && HasMemory(t.left) && HasMemory(t.right)
    requires t.right.counts.target - t.right.counts.total < INT_LIMIT - 1
    ensures SafeFrom(t) <==> t.left.session.syncFlag || !SetsOne(before)
  {
    assert Reached(ChecksFlag, s, t);
    RoundOverIffFlag(s, before, t);
    RestOver(s, t);
    if RoundOver(t.left, t.right) { CheckedIsSafe(s, before, t); } else { RestUnsafe(s, t); }
  }
}
