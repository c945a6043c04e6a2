/** Every run of the protocol's own steps ends, and it ends with everything delivered and released.

    ACKs are sent without taking the locks and unlock tasks have a pool of their own; this is what the
    absence of deadlock rests on. */
module Progress {
  import opened Bags
  import opened Message
  import opened Protocol
  import opened System
  import opened CompletionLoop
  import opened Ledger
  import opened LockTokens
  import opened Wakeups
  import opened SharedBuffers
  import opened Lifetimes
  import opened Credits
  import opened Reachable

  // ----- what remains to be done -----

  function TaskCost(extra: nat): Task -> nat { (t: Task) => extra + if t.Request? then 60 else 26 }

  function SendCost(imm: MessageType): nat {
    match imm
    case Ack => 3
    case Close => 11
    case CloseAck => 6
    case _ => 1
  }

  function AttachedCost(t: Task): nat { if t.Request? then 47 else 13 }

  function PacketCost(): Packet -> nat {
    (e: Packet) => match e
      case WritePacket(intent, payload, _) => AttachedCost(intent) + 11 + if payload.None? then 1 else 0
      case SendPacket(imm, _) => SendCost(imm) + 4
  }

  function CompletionCost(): Completion -> nat {
    (e: Completion) => match e
      case RecvWrite(intent, _) => AttachedCost(intent)
      case RecvSend(imm, _) => SendCost(imm)
      case WriteDone(_) => 3
      case ReadDone(_, _) => 34
  }

  ghost function Costs(): Weighting {
    Weightless.(pooled := TaskCost(2), awake := TaskCost(1), asleep := TaskCost(0), unlock := (u: Unlock) => 2,
                accept := (a: Accept) => 39, packet := PacketCost(), placed := (r: nat) => 7,
                fetch := (e: Fetch) => 38, completion := CompletionCost())
  }

  /** Events to take, and the loop's way to its next poll. */
  function LoopCost(q: Queue<Completion>): nat {
    3 * q.events + match q.loop case Waiting => 0 case Rearmed => 1 case Woken => 2
  }

  ghost function WorkLeft(p: Peer): nat { Weight(p, Costs()) + LoopCost(p.queue) }

  ghost function Remaining(s: Pair): nat { WorkLeft(s.left) + WorkLeft(s.right) }

  /** The work a step of the environment brings. */
  function Brings(step: Step): nat {
    match step
    case SendData(_) => 62
    case SetSyncBarrier(_) => 28
    case CloseEndpoint => 15
    case SpuriousWakeup(_) => 1
    case _ => 0
  }

  lemma ExternalCost(p: Peer, q: Peer, step: Step, v: Weighting)
    requires Enabled(p, q, step) && v == Costs() && External(step)
    ensures Gain(p, q, step, v) <= Loss(p, q, step, v) + Brings(step)
    ensures Arrives(p, q, step, v) == 0
  {
  }

  lemma ThreadCost(p: Peer, q: Peer, step: Step, v: Weighting)
    requires Enabled(p, q, step) && v == Costs() && !External(step) && !step.Handle?
    ensures Gain(p, q, step, v) + Arrives(p, q, step, v)
          + (if step.Deliver? || step.WriteCompletes? || step.ReadCompletes? then 3 else 0)
          + (if step.Wake? || step.Rearm? || step.PollQueue? then 0 else 1)
         <= Loss(p, q, step, v)
  {
  }

  lemma HandleCost(p: Peer, q: Peer, v: Weighting)
    requires Enabled(p, q, Handle) && v == Costs()
    ensures Gain(p, q, Handle, v) < Loss(p, q, Handle, v)
  {
  }

  lemma LoopMoves(p: Peer, q: Peer, step: Step)
    requires Enabled(p, q, step)
    ensures LoopCost(Act(p, q, step).queue) + LoopCost(React(p, q, step).queue)
            + (if step.Wake? || step.Rearm? || step.PollQueue? then 1 else 0)
         <= LoopCost(p.queue) + LoopCost(q.queue)
            + (if step.Deliver? || step.WriteCompletes? || step.ReadCompletes? then 3 else 0)
  {
    if step.Handle? { ProcessLeavesQueue(Taken(p), p.queue.batch[0]); }
  }

  /** Every step of the protocol itself lowers the remaining work. */
  lemma StepsWork(p: Peer, q: Peer, step: Step)
    requires Enabled(p, q, step) && NothingStranded(p.queue)
    ensures WorkLeft(Act(p, q, step)) + WorkLeft(React(p, q, step)) + (if External(step) then 0 else 1)
         <= WorkLeft(p) + WorkLeft(q) + Brings(step)
  {
    Balanced(p, q, step, Costs());
    ReactionBalanced(p, q, step, Costs());
    LoopMoves(p, q, step);
    if External(step) { ExternalCost(p, q, step, Costs()); }
    else if step.Handle? { HandleCost(p, q, Costs()); }
    else { ThreadCost(p, q, step, Costs()); }
  }

  ghost function Internal(trace: seq<Action>): nat {
    if trace == [] then 0 else (if External(trace[0].step) then 0 else 1) + Internal(trace[1..])
  }

  ghost function Brought(trace: seq<Action>): nat {
    if trace == [] then 0 else Brings(trace[0].step) + Brought(trace[1..])
  }

  lemma ActionsWork(s: Pair, a: Action)
    requires Good(s) && s.CanDo(a)
    ensures Remaining(s.Do(a)) + (if External(a.step) then 0 else 1) <= Remaining(s) + Brings(a.step)
  {
    if a.side == Left { StepsWork(s.left, s.right, a.step); } else { StepsWork(s.right, s.left, a.step); }
  }

  /** A run takes at most 62 steps of its own per send, 28 per barrier, 15 per close and one per spurious
      wakeup: with finitely many application calls every run is finite. */
  lemma {:induction false} RunsAreBounded(rule: Rule, s: Pair, trace: seq<Action>, t: Pair)
    requires Good(s) && Leads(rule, s, trace, t)
    ensures Internal(trace) + Remaining(t) <= Remaining(s) + Brought(trace)
    decreases |trace|
  {
    if trace != [] {
      StepIsGood(s, trace[0]);
      ActionsWork(s, trace[0]);
      RunsAreBounded(rule, s.Do(trace[0]), trace[1..], t);
    }
  }

  // ----- no deadlock -----

  /** The session still polls, and it never dropped a message. */
  ghost predicate Open(p: Peer) { p.session.status != Closed && p.log.dropped == [] }

  /** The allocator can serve the peer. */
  ghost predicate HasMemory(p: Peer) { exists d, block :: FreshIn(p.store.heap, d, block) }

  ghost predicate CanMove(p: Peer, q: Peer) { exists step :: !External(step) && Enabled(p, q, step) }

  ghost predicate LoopBusy(q: Queue<Completion>) { q.batch != [] || q.cq != [] || q.events > 0 || q.loop != Waiting }

  /** What a busy loop does next. */
  function LoopStep(q: Queue<Completion>): Step {
    match q.loop
    case Woken => Rearm
    case Rearmed => PollQueue
    case Waiting => if q.batch != [] then Handle else Wake
  }

  lemma LoopStepEnabled(p: Peer, q: Peer)
    requires NothingStranded(p.queue) && p.session.status != Closed && LoopBusy(p.queue)
    ensures Enabled(p, q, LoopStep(p.queue)) && !External(LoopStep(p.queue))
  {
  }

  /** A loop with anything to do can do it. */
  lemma LoopCanMove(p: Peer, q: Peer)
    requires NothingStranded(p.queue) && p.session.status != Closed && LoopBusy(p.queue)
    ensures CanMove(p, q)
  {
    LoopStepEnabled(p, q);
    assert !External(LoopStep(p.queue)) && Enabled(p, q, LoopStep(p.queue));
  }

  /** What happens next to the message at the head of the link. */
  function WireStep(card: Card): Step
    requires card.wire != []
  {
    if card.wire[0].WritePacket? && card.wire[0].payload.None? then Gather(0) else Deliver
  }

  lemma WireStepEnabled(p: Peer, q: Peer)
    requires p.card.wire != [] && !LoopBusy(q.queue) && q.card.credits > 0
    requires Weight(p, SpoiledPosts(p.lanes.outgoing)) == 0
    ensures Enabled(p, q, WireStep(p.card)) && !External(WireStep(p.card))
  {
    HeadWeighs(p.card.wire, SpoiledPosts(p.lanes.outgoing).packet);
  }

  /** A message on the link can be gathered or delivered, or the loop that must make room can move. */
  lemma WireCanMove(p: Peer, q: Peer)
    requires NothingStranded(q.queue) && q.session.status != Closed && p.card.wire != []
    requires Weight(p, SpoiledPosts(p.lanes.outgoing)) == 0
    requires q.card.credits == 0 ==> LoopBusy(q.queue)
    ensures CanMove(p, q) || CanMove(q, p)
  {
    if LoopBusy(q.queue) {
      LoopCanMove(q, p);
    } else {
      WireStepEnabled(p, q);
      assert !External(WireStep(p.card)) && Enabled(p, q, WireStep(p.card));
    }
  }

  lemma CardCanMove(p: Peer, q: Peer)
    requires Inv(p, q) && p.session.status != Closed
    requires p.card.written != [] || p.card.fetches != []
    ensures CanMove(p, q)
  {
    if LoopBusy(p.queue) {
      LoopCanMove(p, q);
    } else if p.card.written != [] {
      assert Enabled(p, q, WriteCompletes(0)) && !External(WriteCompletes(0));
    } else {
      var e := p.card.fetches[0];
      PostedReadAlive(p, q, e);
      assert Enabled(p, q, ReadCompletes(0, e.x.ptr)) && !External(ReadCompletes(0, e.x.ptr));
    }
  }

  lemma PoolsCanMove(p: Peer, q: Peer)
    requires HasMemory(p) && NoLostWakeup(p)
    requires p.pools.unlocks != [] || p.pools.accepts != [] || p.pools.awake != []
          || (p.pools.pool != [] && p.pools.asleep == [])
    ensures CanMove(p, q)
  {
    if p.pools.unlocks != [] {
      assert Enabled(p, q, UnlockTask(0, 0)) && !External(UnlockTask(0, 0));
    } else if p.pools.accepts != [] {
      var d, block :| FreshIn(p.store.heap, d, block);
      assert Enabled(p, q, AcceptTask(0, d, block)) && !External(AcceptTask(0, d, block));
    } else if p.pools.awake != [] {
      assert Enabled(p, q, CheckTask(0)) && !External(CheckTask(0));
    } else {
      assert Enabled(p, q, StartTask(0)) && !External(StartTask(0));
    }
  }

  lemma NoLocalToken(p: Peer)
    requires p.card.wire == [] && p.card.written == [] && p.queue.batch == [] && p.queue.cq == []
    requires p.pools.unlocks == []
    ensures Weight(p, LocalTokens(None)) == 0 && Weight(p, RemoteTokens(None)) == 0
  {
    forall v | v == LocalTokens(None) || v == RemoteTokens(None) ensures Weight(p, v) == 0 {
      SumZero(p.pools.pool, v.pooled);
      SumZero(p.pools.awake, v.awake);
      SumZero(p.pools.asleep, v.asleep);
      SumZero(p.pools.accepts, v.accept);
      SumZero(p.card.fetches, v.fetch);
      SumZero(p.log.dropped, v.dropped);
    }
  }

  lemma NoFarToken(q: Peer)
    requires q.card.wire == [] && q.queue.batch == [] && q.queue.cq == [] && q.log.dropped == []
    ensures Weight(q, FarTokens(None)) == 0
  {
    var v := FarTokens(None);
    SumZero(q.pools.pool, v.pooled);
    SumZero(q.pools.awake, v.awake);
    SumZero(q.pools.asleep, v.asleep);
    SumZero(q.pools.unlocks, v.unlock);
    SumZero(q.pools.accepts, v.accept);
    SumZero(q.card.written, v.placed);
    SumZero(q.card.fetches, v.fetch);
  }

  /** When nothing is on its way to or from the two peers, the locks are free. */
  lemma LocksFree(p: Peer, q: Peer)
    requires OneToken(p, q)
    requires p.card.wire == [] && p.card.written == [] && p.queue.batch == [] && p.queue.cq == []
    requires p.pools.unlocks == []
    requires q.card.wire == [] && q.queue.batch == [] && q.queue.cq == [] && q.log.dropped == []
    ensures p.lanes.local == Idle && p.lanes.remote == Idle
  {
    NoLocalToken(p);
    NoFarToken(q);
    assert LocalToken(p, None) && RemoteToken(p, q, None);
  }

  lemma NothingLeft(p: Peer)
    requires p.card == Card([], [], [], p.card.credits) && p.pools == Pools([], [], [], [], [])
    requires !LoopBusy(p.queue) && p.log.dropped == []
    ensures WorkLeft(p) == 0
  {
  }

  lemma WireMoves(p: Peer, q: Peer)
    requires Inv(p, q) && q.session.status != Closed && p.card.wire != []
    ensures CanMove(p, q) || CanMove(q, p)
  {
    if q.card.credits == 0 { NoCreditsBusy(q); }
    WireCanMove(p, q);
  }

  /** Nothing of `p` is left but perhaps workers asleep. */
  ghost predicate OnlySleepers(p: Peer) {
    && p.card == Card([], [], [], p.card.credits) && !LoopBusy(p.queue)
    && p.pools.awake == [] && p.pools.unlocks == [] && p.pools.accepts == []
    && (p.pools.asleep == [] ==> p.pools.pool == [])
  }

  lemma BusyMoves(p: Peer, q: Peer)
    requires Inv(p, q) && HasMemory(p) && p.session.status != Closed && q.session.status != Closed
    requires !OnlySleepers(p)
    ensures CanMove(p, q) || CanMove(q, p)
  {
    if LoopBusy(p.queue) { LoopCanMove(p, q); }
    else if p.card.wire != [] { WireMoves(p, q); }
    else if p.card.written != [] || p.card.fetches != [] { CardCanMove(p, q); }
    else { PoolsCanMove(p, q); }
  }

  lemma SleepersWoken(p: Peer, q: Peer)
    requires Inv(p, q) && OnlySleepers(p) && OnlySleepers(q) && q.log.dropped == []
    ensures p.pools.asleep == [] && p.lanes.local == Idle && p.lanes.remote == Idle
  {
    LocksFree(p, q);
  }

  /** No deadlock: while both sessions poll and nothing was dropped, unfinished work means that some step
      of the protocol itself is enabled. */
  lemma NoDeadlock(p: Peer, q: Peer)
    requires Inv(p, q) && Open(p) && Open(q) && HasMemory(p) && HasMemory(q)
    requires WorkLeft(p) + WorkLeft(q) > 0
    ensures CanMove(p, q) || CanMove(q, p)
  {
    if !OnlySleepers(p) { BusyMoves(p, q); }
    else if !OnlySleepers(q) { BusyMoves(q, p); }
    else {
      SleepersWoken(p, q);
      SleepersWoken(q, p);
      NothingLeft(p);
      NothingLeft(q);
    }
  }
}
