/** set_sync_barrier and wait_for_sync, used round by round (src/rdma_endpoint.cpp,
    src/rdma_message.cpp). The workers may run a later READ_REQUEST before the round's SYNC_REQUEST. */
module Barriers {
  import opened Bags
  import opened Words
  import opened Message
  import opened Protocol
  import opened System
  import opened CompletionLoop
  import opened Frames
  import opened Ledger
  import opened SharedBuffers
  import opened Lifecycle
  import opened Stages
  import opened Lifetimes
  import opened Counting
  import opened Reachable
  import opened Progress
  import opened Delivery

  // ----- the messages of a barrier -----

  /** All sizes, or all but one. */
  predicate Odd(o: Option<nat>, t: Task) { t.Sync? && (o.None? || t.size != o.value) }

  ghost function SyncHere(o: Option<nat>): Weighting {
    Weightless.(pooled := (t: Task) => One(Odd(o, t)), awake := (t: Task) => One(Odd(o, t)),
                asleep := (t: Task) => One(Odd(o, t)),
                packet := (e: Packet) => One(e.WritePacket? && Odd(o, e.intent)))
  }

  ghost function SyncThere(o: Option<nat>): Weighting {
    Weightless.(completion := (e: Completion) => One(e.RecvWrite? && Odd(o, e.intent)))
  }

  /** SYNC_REQUESTs of `p` queued, on their way or unhandled. */
  ghost function Syncs(p: Peer, q: Peer, o: Option<nat>): nat { Weight(p, SyncHere(o)) + Weight(q, SyncThere(o)) }

  ghost function AckThere(): Weighting {
    Weightless.(packet := (e: Packet) => One(e.SendPacket? && e.imm == SyncAck))
  }

  ghost function AckHere(): Weighting {
    Weightless.(completion := (e: Completion) => One(e.RecvSend? && e.imm == SyncAck))
  }

  /** SYNC_ACKs on their way to `p` or unhandled. */
  ghost function Acks(p: Peer, q: Peer): nat { Weight(p, AckHere()) + Weight(q, AckThere()) }

  predicate Accepts(p: Peer, step: Step)
  {
    step.Handle? && p.queue.batch != [] && p.queue.batch[0].RecvWrite? && p.queue.batch[0].intent.Sync?
  }

  predicate Answers(p: Peer, step: Step) {
    step.Handle? && p.queue.batch != [] && p.queue.batch[0].ReadDone? && ReachesTarget(Taken(p), p.queue.batch[0].dest)
  }

  predicate Hears(p: Peer, step: Step) {
    step.Handle? && p.queue.batch != [] && p.queue.batch[0].RecvSend? && p.queue.batch[0].imm == SyncAck
  }

  lemma SetterHandles(p: Peer, e: Completion, o: Option<nat>, v: Weighting)
    requires v == SyncHere(o)
    ensures HandleGain(p, e, v) == v.completion(e)
  {
  }

  lemma SetterGainsElsewhere(p: Peer, q: Peer, step: Step, o: Option<nat>, v: Weighting, w: Weighting)
    requires Enabled(p, q, step) && v == SyncHere(o) && w == SyncThere(o) && !step.Handle?
    ensures Gain(p, q, step, v) + Arrives(p, q, step, w)
         == Loss(p, q, step, v) + One(step.SetSyncBarrier? && Odd(o, Sync(step.size)))
  {
  }

  lemma SetterGains(p: Peer, q: Peer, step: Step, o: Option<nat>, v: Weighting, w: Weighting)
    requires Enabled(p, q, step) && v == SyncHere(o) && w == SyncThere(o)
    ensures Gain(p, q, step, v) + Arrives(p, q, step, w)
         == Loss(p, q, step, v) + One(step.SetSyncBarrier? && Odd(o, Sync(step.size)))
  {
    if step.Handle? { SetterHandles(Taken(p), p.queue.batch[0], o, v); }
    else { SetterGainsElsewhere(p, q, step, o, v, w); }
  }

  lemma CounterGains(p: Peer, q: Peer, step: Step, o: Option<nat>, v: Weighting, w: Weighting)
    requires Enabled(p, q, step) && v == SyncThere(o) && w == SyncHere(o)
    ensures Gain(p, q, step, v) + Arrives(p, q, step, w) + One(Accepts(p, step) && Odd(o, p.queue.batch[0].intent))
         == Loss(p, q, step, v)
  {
  }

  lemma HearerGains(p: Peer, q: Peer, step: Step, v: Weighting, w: Weighting)
    requires Enabled(p, q, step) && v == AckHere() && w == AckThere()
    ensures Gain(p, q, step, v) + Arrives(p, q, step, w) + One(Hears(p, step)) == Loss(p, q, step, v)
  {
  }

  lemma AnswererGains(p: Peer, q: Peer, step: Step, v: Weighting, w: Weighting)
    requires Enabled(p, q, step) && v == AckThere() && w == AckHere()
    ensures Gain(p, q, step, v) + Arrives(p, q, step, w) == Loss(p, q, step, v) + One(Answers(p, step))
  {
  }

  lemma SetterSyncs(p: Peer, q: Peer, step: Step, o: Option<nat>)
    requires Enabled(p, q, step) && NothingStranded(p.queue)
    ensures Syncs(Act(p, q, step), React(p, q, step), o)
         == Syncs(p, q, o) + One(step.SetSyncBarrier? && Odd(o, Sync(step.size)))
  {
    Balanced(p, q, step, SyncHere(o));
    ReactionBalanced(p, q, step, SyncThere(o));
    SetterGains(p, q, step, o, SyncHere(o), SyncThere(o));
  }

  lemma CounterSyncs(p: Peer, q: Peer, step: Step, o: Option<nat>)
    requires Enabled(p, q, step) && NothingStranded(p.queue)
    ensures Syncs(React(p, q, step), Act(p, q, step), o) + One(Accepts(p, step) && Odd(o, p.queue.batch[0].intent))
         == Syncs(q, p, o)
  {
    Balanced(p, q, step, SyncThere(o));
    ReactionBalanced(p, q, step, SyncHere(o));
    CounterGains(p, q, step, o, SyncThere(o), SyncHere(o));
  }

  lemma SetterAcks(p: Peer, q: Peer, step: Step)
    requires Enabled(p, q, step) && NothingStranded(p.queue)
    ensures Acks(Act(p, q, step), React(p, q, step)) + One(Hears(p, step)) == Acks(p, q)
  {
    Balanced(p, q, step, AckHere());
    ReactionBalanced(p, q, step, AckThere());
    HearerGains(p, q, step, AckHere(), AckThere());
  }

  lemma CounterAcks(p: Peer, q: Peer, step: Step)
    requires Enabled(p, q, step) && NothingStranded(p.queue)
    ensures Acks(React(p, q, step), Act(p, q, step)) == Acks(q, p) + One(Answers(p, step))
  {
    Balanced(p, q, step, AckThere());
    ReactionBalanced(p, q, step, AckHere());
    AnswererGains(p, q, step, AckThere(), AckHere());
  }

  lemma OddMonotone(p: Peer, q: Peer, n: nat)
    ensures Syncs(p, q, Some(n)) <= Syncs(p, q, None)
  {
    WeightMonotone(p, SyncHere(Some(n)), SyncHere(None));
    WeightMonotone(q, SyncThere(Some(n)), SyncThere(None));
  }

  // ----- one round after another -----

  /** What a round depends on: the setter's barrier, bytes sent and flag; the counter's bytes read, the
      mark of its last acceptance, total and target; and the messages between them. */
  datatype View = View(barrier: Barrier, sent: nat, read: nat, mark: nat, total: nat, target: nat, flag: bool,
                       syncs: nat, odd: nat, acks: nat)

  ghost function OddSyncs(p: Peer, q: Peer, b: Barrier): nat {
    match b case Open(n, _) => Syncs(p, q, Some(n)) case Ready => 0
  }

  ghost function ViewWith(p: Peer, q: Peer, syncs: nat, odd: nat, acks: nat): View {
    View(p.app.barrier, Sum(p.log.issued, ByteWeight()), ReadBytes(q), q.app.mark, q.counts.total, q.counts.target,
         p.session.syncFlag, syncs, odd, acks)
  }

  ghost function ViewOf(p: Peer, q: Peer): View {
    ViewWith(p, q, Syncs(p, q, None), OddSyncs(p, q, p.app.barrier), Acks(p, q))
  }

  const INT_LIMIT := 0x8000_0000

  predicate RoundOk(v: View) {
    && v.read <= v.sent && v.mark <= v.read && v.total == v.read - v.mark && v.target < INT_LIMIT
    && match v.barrier
       case Ready => v.syncs == 0 && v.acks == 0 && v.read == v.sent && v.total == v.target
       case Open(n, base) =>
         && 0 < n < INT_LIMIT && base <= v.read && v.sent <= base + n && v.odd == 0
         && if v.syncs > 0
            then v.syncs == 1 && v.acks == 0 && !v.flag && v.mark <= base && base - v.mark == v.target
            else v.target == n && base <= v.mark && v.acks + One(v.flag) == One(v.total == n)
  }

  /** One barrier at a time, positive, followed by blocks of at most its size; no close, and no return from
      wait_for_sync before the flag is up. */
  ghost predicate BarrierStep(p: Peer, step: Step) {
    match step
    case SetSyncBarrier(n) => 0 < n < INT_LIMIT && p.app.barrier == Ready
    case SendData(x) =>
      p.app.barrier.Open? && Sum(p.log.issued, ByteWeight()) + |x.data| <= p.app.barrier.base + p.app.barrier.target
    case CloseEndpoint => false
    case ReturnEarly => false
    case _ => true
  }

  ghost const ByRounds: Rule := (s: Pair, a: Action) => BarrierStep(if a.side == Left then s.left else s.right, a.step)

  /** The flag means that everything sent so far was read. */
  lemma FlagMeansRead(v: View)
    requires RoundOk(v) && v.flag
    ensures v.read == v.sent
  {
  }

  // ----- the setter's steps -----

  ghost function SentBy(step: Step): nat { if step.SendData? then |step.x.data| else 0 }

  /** How a step of the setter changes the view of its rounds. */
  ghost function SetterNext(v: View, p: Peer, step: Step, acks: nat): View {
    match step
    case SendData(x) => v.(sent := v.sent + |x.data|)
    case SetSyncBarrier(n) => v.(barrier := Open(n, v.sent), flag := false, syncs := v.syncs + 1, odd := 0)
    case WaitForSync => v.(barrier := Ready, odd := 0)
    case ReturnEarly => v.(barrier := Ready, odd := 0)
    case Handle => v.(flag := v.flag || Hears(p, step), acks := acks)
    case _ => v
  }

  lemma SetterLanes(p: Peer, q: Peer, step: Step)
    requires Enabled(p, q, step)
    ensures SessionAfter(p, q, step).syncFlag
         == if step.SetSyncBarrier? then false else p.session.syncFlag || Hears(p, step)
    ensures AppAfter(p, q, step).barrier
         == match step case SetSyncBarrier(n) => Open(n, Sum(p.log.issued, ByteWeight())) case WaitForSync => Ready
                       case ReturnEarly => Ready case _ => p.app.barrier
    ensures Sum(LogAfter(p, q, step).issued, ByteWeight()) == Sum(p.log.issued, ByteWeight()) + SentBy(step)
  {
  }

  ghost function BarrierAfter(b: Barrier, step: Step, sent: nat): Barrier {
    match step case SetSyncBarrier(n) => Open(n, sent) case WaitForSync => Ready case ReturnEarly => Ready case _ => b
  }

  lemma SetterOdds(p: Peer, q: Peer, step: Step, after: Barrier)
    requires Enabled(p, q, step) && NothingStranded(p.queue)
    requires step.SetSyncBarrier? ==> Syncs(p, q, None) == 0
    requires after == BarrierAfter(p.app.barrier, step, Sum(p.log.issued, ByteWeight()))
    ensures OddSyncs(Act(p, q, step), React(p, q, step), after)
         == if step.SetSyncBarrier? || step.WaitForSync? || step.ReturnEarly? then 0 else OddSyncs(p, q, p.app.barrier)
  {
    if step.SetSyncBarrier? {
      OddMonotone(p, q, step.size);
      SetterSyncs(p, q, step, Some(step.size));
    } else if p.app.barrier.Open? {
      SetterSyncs(p, q, step, Some(p.app.barrier.target));
    }
  }

  lemma SetterView(p: Peer, q: Peer, step: Step, syncs: nat, odd: nat, acks: nat, syncs': nat, odd': nat, acks': nat)
    requires Enabled(p, q, step)
    requires syncs' == syncs + One(step.SetSyncBarrier?)
    requires odd' == if step.SetSyncBarrier? || step.WaitForSync? || step.ReturnEarly? then 0 else odd
    requires acks' + One(Hears(p, step)) == acks
    ensures ViewWith(Act(p, q, step), React(p, q, step), syncs', odd', acks')
         == SetterNext(ViewWith(p, q, syncs, odd, acks), p, step, acks')
  {
    ActSession(p, q, step);
    ActCounts(p, q, step);
    ActLog(p, q, step);
    ReactRest(p, q, step);
    ReactLog(p, q, step);
    SetterLanes(p, q, step);
  }

  /** The setter keeps its rounds in order. */
  lemma SetterRound(v: View, p: Peer, step: Step, acks: nat)
    requires RoundOk(v) && BarrierStep(p, step) && v.barrier == p.app.barrier
    requires v.sent == Sum(p.log.issued, ByteWeight())
    requires step.WaitForSync? ==> v.flag
    requires acks + One(Hears(p, step)) == v.acks
    ensures RoundOk(SetterNext(v, p, step, acks))
  {
  }

  lemma SetterBarrier(p: Peer, q: Peer, step: Step)
    requires Enabled(p, q, step)
    ensures Act(p, q, step).app.barrier == BarrierAfter(p.app.barrier, step, Sum(p.log.issued, ByteWeight()))
  {
    ActCounts(p, q, step);
    SetterLanes(p, q, step);
  }

  lemma SetterViews(p: Peer, q: Peer, step: Step)
    requires Enabled(p, q, step) && NothingStranded(p.queue)
    requires step.SetSyncBarrier? ==> Syncs(p, q, None) == 0
    ensures var acks := Acks(Act(p, q, step), React(p, q, step));
            acks + One(Hears(p, step)) == Acks(p, q)
            && ViewOf(Act(p, q, step), React(p, q, step)) == SetterNext(ViewOf(p, q), p, step, acks)
  {
    SetterBarrier(p, q, step);
    SetterAcks(p, q, step);
    SetterSyncs(p, q, step, None);
    SetterOdds(p, q, step, Act(p, q, step).app.barrier);
    SetterView(p, q, step, Syncs(p, q, None), OddSyncs(p, q, p.app.barrier), Acks(p, q),
               Syncs(Act(p, q, step), React(p, q, step), None),
               OddSyncs(Act(p, q, step), React(p, q, step), Act(p, q, step).app.barrier),
               Acks(Act(p, q, step), React(p, q, step)));
  }

  lemma SetterKeepsRounds(p: Peer, q: Peer, step: Step)
    requires Enabled(p, q, step) && NothingStranded(p.queue)
    requires RoundOk(ViewOf(p, q)) && BarrierStep(p, step)
    ensures RoundOk(ViewOf(Act(p, q, step), React(p, q, step)))
  {
    SetterViews(p, q, step);
    SetterRound(ViewOf(p, q), p, step, Acks(Act(p, q, step), React(p, q, step)));
  }

  // ----- the counter's steps -----

  ghost predicate Counts(p: Peer, step: Step) { step.Handle? && p.queue.batch != [] && p.queue.batch[0].ReadDone? }

  ghost function ReadBy(p: Peer, step: Step): nat { if Counts(p, step) then |p.queue.batch[0].x.data| else 0 }

  /** How a step of the counter changes the view of the setter's rounds. */
  ghost function CounterNext(v: View, p: Peer, step: Step, size: nat, total: nat): View {
    if Accepts(p, step) then
      v.(mark := v.read, total := 0, target := size, syncs := if v.syncs > 0 then v.syncs - 1 else 0)
    else if Counts(p, step) then
      v.(read := v.read + ReadBy(p, step), total := total, acks := v.acks + One(total == v.target))
    else v
  }

  lemma CounterPlain(p: Peer, q: Peer, step: Step)
    requires Enabled(p, q, step) && Working(p)
    ensures Sum(LogAfter(p, q, step).read, ByteWeight()) == ReadBytes(p) + ReadBy(p, step)
    ensures AppAfter(p, q, step).mark == if Accepts(p, step) then ReadBytes(p) else p.app.mark
    ensures CountsAfter(p, q, step).target
         == if Accepts(p, step) then Parse(p.lanes.incoming).bufferSize else p.counts.target
    ensures !Counts(p, step) ==> CountsAfter(p, q, step).total == if Accepts(p, step) then 0 else p.counts.total
    ensures Answers(p, step) <==> Counts(p, step) && CountsAfter(p, q, step).total == p.counts.target
  {
  }

  lemma CounterView(p: Peer, q: Peer, step: Step, syncs: nat, odd: nat, acks: nat, syncs': nat, odd': nat, acks': nat)
    requires Enabled(p, q, step) && Working(p)
    requires syncs' + One(Accepts(p, step)) == syncs && odd' == odd && acks' == acks + One(Answers(p, step))
    ensures ViewWith(React(p, q, step), Act(p, q, step), syncs', odd', acks')
         == CounterNext(ViewWith(q, p, syncs, odd, acks), p, step, Parse(p.lanes.incoming).bufferSize,
                        CountsAfter(p, q, step).total)
  {
    ActCounts(p, q, step);
    ActLog(p, q, step);
    ReactRest(p, q, step);
    ReactLog(p, q, step);
    CounterPlain(p, q, step);
  }

  /** The accepted SYNC_REQUEST is the round's own. */
  lemma AcceptedSize(p: Peer, q: Peer, step: Step, n: nat)
    requires Accepts(p, step) && BuffersIntact(p) && Syncs(q, p, Some(n)) == 0
    ensures Parse(p.lanes.incoming).bufferSize == n && p.queue.batch[0].intent == Sync(n)
  {
    var e := p.queue.batch[0];
    HandlerDecodes(p, e.intent, e.round);
    Outweighed(p.queue.batch, SyncThere(Some(n)).completion, e);
  }

  /** An accepted SYNC_REQUEST was outstanding. */
  lemma AcceptedOutstanding(p: Peer, q: Peer, step: Step)
    requires Accepts(p, step)
    ensures Syncs(q, p, None) > 0
  {
    Outweighed(p.queue.batch, SyncThere(None).completion, p.queue.batch[0]);
  }

  /** The counter keeps the rounds in order: a block read before the round's SYNC_REQUEST is accepted
      cannot hit the old target again, and one read after it hits the new target only with the last
      byte. */
  lemma CounterRound(v: View, p: Peer, step: Step, size: nat, total: nat)
    requires RoundOk(v)
    requires Accepts(p, step) ==> v.syncs > 0 && v.barrier.Open? && size == v.barrier.target
    requires Counts(p, step) ==> total == (v.read + ReadBy(p, step) - v.mark) % TWO_TO_THE_64
    requires v.read + ReadBy(p, step) <= v.sent
    ensures RoundOk(CounterNext(v, p, step, size, total))
  {
  }

  lemma CounterTotals(p: Peer, q: Peer, step: Step)
    requires Enabled(p, q, step) && CountExact(p) && Consistent(p) && Counts(p, step)
    ensures CountsAfter(p, q, step).total == (ReadBytes(p) + ReadBy(p, step) - p.app.mark) % TWO_TO_THE_64
  {
    var e := p.queue.batch[0];
    CompletionSized(p, e.dest, e.x);
    CompletionCounts(p, e.dest, |e.x.data|);
  }

  lemma CounterReads(p: Peer, q: Peer, step: Step)
    requires Enabled(p, q, step) && NothingStranded(p.queue) && Conserved(p, q) && Conserved(q, p)
    ensures ReadBytes(p) + ReadBy(p, step) <= Sum(q.log.issued, ByteWeight())
  {
    if Counts(p, step) { CountedWasSent(p, q); } else { ReadAtMostSent(q, p); }
  }

  lemma CounterOdds(p: Peer, q: Peer, step: Step)
    requires Enabled(p, q, step) && NothingStranded(p.queue) && BuffersIntact(p)
    requires OddSyncs(q, p, q.app.barrier) == 0
    ensures OddSyncs(React(p, q, step), Act(p, q, step), q.app.barrier) == 0
  {
    if q.app.barrier.Open? { CounterSyncs(p, q, step, Some(q.app.barrier.target)); }
  }

  lemma CounterViews(p: Peer, q: Peer, step: Step)
    requires Enabled(p, q, step) && NothingStranded(p.queue) && BuffersIntact(p) && Working(p)
    requires OddSyncs(q, p, q.app.barrier) == 0
    ensures ViewOf(React(p, q, step), Act(p, q, step))
         == CounterNext(ViewOf(q, p), p, step, Parse(p.lanes.incoming).bufferSize, CountsAfter(p, q, step).total)
  {
    ReactRest(p, q, step);
    CounterAcks(p, q, step);
    CounterSyncs(p, q, step, None);
    CounterOdds(p, q, step);
    CounterView(p, q, step, Syncs(q, p, None), 0, Acks(q, p),
                Syncs(React(p, q, step), Act(p, q, step), None), 0, Acks(React(p, q, step), Act(p, q, step)));
  }

  ghost predicate CounterInOrder(p: Peer, q: Peer, step: Step, v: View)
    requires Enabled(p, q, step)
  {
    && (Accepts(p, step) ==> v.syncs > 0 && v.barrier.Open? && Parse(p.lanes.incoming).bufferSize == v.barrier.target)
    && (Counts(p, step) ==>
          CountsAfter(p, q, step).total == (v.read + ReadBy(p, step) - v.mark) % TWO_TO_THE_64)
    && v.read + ReadBy(p, step) <= v.sent
  }

  lemma AcceptInOrder(p: Peer, q: Peer, step: Step)
    requires Accepts(p, step) && BuffersIntact(p) && RoundOk(ViewOf(q, p))
    ensures Syncs(q, p, None) > 0 && q.app.barrier.Open?
    ensures Parse(p.lanes.incoming).bufferSize == q.app.barrier.target
  {
    AcceptedOutstanding(p, q, step);
    AcceptedSize(p, q, step, q.app.barrier.target);
  }

  lemma CounterIsInOrder(p: Peer, q: Peer, step: Step, v: View)
    requires Enabled(p, q, step) && NothingStranded(p.queue) && Conserved(p, q) && Conserved(q, p) && Working(p)
    requires Counts(p, step) ==>
               CountsAfter(p, q, step).total == (ReadBytes(p) + ReadBy(p, step) - p.app.mark) % TWO_TO_THE_64
    requires Accepts(p, step) ==>
               v.syncs > 0 && v.barrier.Open? && Parse(p.lanes.incoming).bufferSize == v.barrier.target
    requires v.read == ReadBytes(p) && v.mark == p.app.mark && v.sent == Sum(q.log.issued, ByteWeight())
    ensures CounterInOrder(p, q, step, v)
  {
    CounterReads(p, q, step);
  }

  lemma CounterRounds(p: Peer, q: Peer, step: Step, v: View, v': View)
    requires Enabled(p, q, step) && RoundOk(v) && CounterInOrder(p, q, step, v)
    requires v' == CounterNext(v, p, step, Parse(p.lanes.incoming).bufferSize, CountsAfter(p, q, step).total)
    ensures RoundOk(v')
  {
    CounterRound(v, p, step, Parse(p.lanes.incoming).bufferSize, CountsAfter(p, q, step).total);
  }

  lemma CounterKeepsRounds(p: Peer, q: Peer, step: Step)
    requires Enabled(p, q, step) && Inv(p, q) && Working(p) && RoundOk(ViewOf(q, p))
    ensures RoundOk(ViewOf(React(p, q, step), Act(p, q, step)))
  {
    if Counts(p, step) { CounterTotals(p, q, step); }
    if Accepts(p, step) { AcceptInOrder(p, q, step); }
    CounterIsInOrder(p, q, step, ViewOf(q, p));
    CounterViews(p, q, step);
    CounterRounds(p, q, step, ViewOf(q, p), ViewOf(React(p, q, step), Act(p, q, step)));
  }

  // ----- whole runs -----

  ghost predicate InRounds(s: Pair) {
    BothWorking(s) && RoundOk(ViewOf(s.left, s.right)) && RoundOk(ViewOf(s.right, s.left))
  }

  lemma StepKeepsRounds(s: Pair, a: Action)
    requires InRounds(s) && s.CanDo(a) && ByRounds(s, a)
    ensures InRounds(s.Do(a))
  {
    StepKeepsWorking(s, a);
    if a.side == Left {
      SetterKeepsRounds(s.left, s.right, a.step);
      CounterKeepsRounds(s.left, s.right, a.step);
    } else {
      SetterKeepsRounds(s.right, s.left, a.step);
      CounterKeepsRounds(s.right, s.left, a.step);
    }
  }

  lemma NoMessagesYet(p: Peer, q: Peer)
    requires Nothing(p) && Nothing(q)
    ensures Syncs(p, q, None) == 0 && Acks(p, q) == 0
  {
  }

  ghost const FirstView := View(Ready, 0, 0, 0, 0, 0, false, 0, 0, 0)

  lemma StartsFirst(p: Peer, q: Peer)
    requires Initial(p) && Initial(q)
    ensures ViewWith(p, q, 0, 0, 0) == FirstView && p.app.barrier == Ready
  {
  }

  lemma FirstViewOk(p: Peer, q: Peer)
    requires ViewWith(p, q, 0, 0, 0) == FirstView && p.app.barrier == Ready
    requires Syncs(p, q, None) == 0 && Acks(p, q) == 0
    ensures RoundOk(ViewOf(p, q)) && OnTime(ViewOf(p, q))
  {
  }

  lemma StartInRounds(p: Peer, q: Peer)
    requires Initial(p) && Initial(q)
    ensures RoundOk(ViewOf(p, q)) && OnTime(ViewOf(p, q))
  {
    StartsWithNothing(p);
    StartsWithNothing(q);
    NoMessagesYet(p, q);
    StartsFirst(p, q);
    FirstViewOk(p, q);
  }

  lemma StartIsInRounds(s: Pair)
    requires Start(s)
    ensures InRounds(s)
  {
    StartIsBothWorking(s);
    StartInRounds(s.left, s.right);
    StartInRounds(s.right, s.left);
  }

  lemma {:induction false} RoundsGoOn(s: Pair, trace: seq<Action>, t: Pair)
    requires InRounds(s) && Leads(ByRounds, s, trace, t)
    ensures InRounds(t)
    decreases |trace|
  {
    if trace != [] {
      StepKeepsRounds(s, trace[0]);
      RoundsGoOn(s.Do(trace[0]), trace[1..], t);
    }
  }

  lemma RoundRuns(s: Pair, trace: seq<Action>, t: Pair)
    requires Start(s) && Leads(ByRounds, s, trace, t)
    ensures InRounds(t)
  {
    StartIsInRounds(s);
    RoundsGoOn(s, trace, t);
  }

  // ----- what the flag is worth -----

  /** All bytes sent were read: then every transfer sent was read. */
  lemma BytesTellTransfers(p: Peer, q: Peer, x: Transfer)
    requires Conserved(p, q) && ReadBytes(q) == Sum(p.log.issued, ByteWeight()) && x in p.log.issued
    ensures x in q.log.read
  {
    var w := ByteWeight();
    SumSplits(p.log.issued, w, x);
    SumSplits(q.log.read, w, x);
    LogsShrink(p, q, Except(x, w));
    Outweighed(p.log.issued, Only(x, w), x);
    if x !in q.log.read { AbsentWeighsNothing(q.log.read, w, x); }
  }

  /** Barrier safety, over all rounds and whatever overtakes what: when the flag is up, every block sent
      so far has been read by the peer, and the peer holds its bytes. */
  lemma FlagIsSafe(s: Pair, trace: seq<Action>, t: Pair, x: Transfer)
    requires Start(s) && Leads(ByRounds, s, trace, t)
    requires t.left.session.syncFlag && x in t.left.log.issued
    ensures x in t.right.log.read && x.data in t.right.log.received
  {
    RoundRuns(s, trace, t);
    FlagMeansRead(ViewOf(t.left, t.right));
    BytesTellTransfers(t.left, t.right, x);
    var i :| 0 <= i < |t.right.log.read| && t.right.log.read[i] == x;
    assert t.right.log.received[i] == x.data;
  }

  lemma NoSyncsLeft(p: Peer, q: Peer)
    requires WorkLeft(p) == 0 && WorkLeft(q) == 0 && p.log.dropped == [] && q.log.dropped == []
    ensures Syncs(p, q, None) == 0 && Acks(p, q) == 0
  {
    NoWorkNoItems(p);
    NoWorkNoItems(q);
  }

  lemma FlagIff(v: View)
    requires RoundOk(v) && v.barrier.Open? && v.syncs == 0 && v.acks == 0
    requires v.read == v.sent == v.barrier.base + v.barrier.target
    ensures v.flag <==> v.mark == v.barrier.base
  {
  }

  /** Barrier progress. Once a round's blocks are all sent and the protocol has come to rest, the flag is
      up if and only if no byte of the round had been counted when its SYNC_REQUEST was accepted. */
  lemma FlagRisesIff(s: Pair, trace: seq<Action>, t: Pair)
    requires Start(s) && Leads(ByRounds, s, trace, t)
    requires Stuck(t) && HasMemory(t.left) && HasMemory(t.right)
    requires t.left.app.barrier.Open?
    requires Sum(t.left.log.issued, ByteWeight()) == t.left.app.barrier.base + t.left.app.barrier.target
    ensures t.left.session.syncFlag <==> t.right.app.mark == t.left.app.barrier.base
  {
    RoundRuns(s, trace, t);
    StuckIsFinished(t);
    EverythingThrough(t.left, t.right, ByteWeight());
    NoSyncsLeft(t.left, t.right);
    FlagIff(ViewOf(t.left, t.right));
  }

  // ----- a round that was overtaken -----

  /** A byte of the round was counted before its SYNC_REQUEST was accepted. */
  predicate Overtaken(v: View) {
    v.barrier.Open? && !v.flag && (if v.syncs > 0 then v.read > v.barrier.base else v.mark > v.barrier.base)
  }

  lemma SetterStaysOvertaken(v: View, p: Peer, step: Step, acks: nat)
    requires RoundOk(v) && Overtaken(v) && BarrierStep(p, step) && v.barrier == p.app.barrier
    requires step.WaitForSync? ==> v.flag
    requires acks + One(Hears(p, step)) == v.acks
    ensures Overtaken(SetterNext(v, p, step, acks))
  {
  }

  lemma CounterStaysOvertaken(v: View, p: Peer, step: Step, size: nat, total: nat)
    requires RoundOk(v) && Overtaken(v)
    requires Accepts(p, step) ==> v.syncs > 0 && size == v.barrier.target
    ensures Overtaken(CounterNext(v, p, step, size, total))
  {
  }

  /** A run whose left peer waits for a round that was overtaken. */
  ghost predicate Hopeless(s: Pair) { InRounds(s) && Overtaken(ViewOf(s.left, s.right)) }

  lemma OvertakenStep(s: Pair, a: Action)
    requires Hopeless(s) && s.CanDo(a) && ByRounds(s, a)
    ensures Overtaken(ViewOf(s.Do(a).left, s.Do(a).right))
  {
    if a.side == Left {
      SetterViews(s.left, s.right, a.step);
      SetterStaysOvertaken(ViewOf(s.left, s.right), s.left, a.step, Acks(s.Do(a).left, s.Do(a).right));
    } else {
      if Accepts(s.right, a.step) { AcceptInOrder(s.right, s.left, a.step); }
      CounterViews(s.right, s.left, a.step);
      CounterStaysOvertaken(ViewOf(s.left, s.right), s.right, a.step, Parse(s.right.lanes.incoming).bufferSize,
                            CountsAfter(s.right, s.left, a.step).total);
    }
  }

  lemma StaysHopeless(s: Pair, a: Action)
    requires Hopeless(s) && s.CanDo(a) && ByRounds(s, a)
    ensures Hopeless(s.Do(a))
  {
    OvertakenStep(s, a);
    StepKeepsRounds(s, a);
  }

  lemma HopelessFlag(t: Pair)
    requires Hopeless(t)
    ensures !t.left.session.syncFlag && t.left.app.barrier.Open?
  {
  }

  /** Once overtaken, the round never ends: in no continuation does the flag come up. */
  lemma {:induction false} OvertakenForever(s: Pair, trace: seq<Action>, t: Pair)
    requires Hopeless(s) && Leads(ByRounds, s, trace, t)
    ensures !t.left.session.syncFlag && t.left.app.barrier.Open?
    decreases |trace|
  {
    if trace == [] {
      HopelessFlag(t);
    } else {
      StaysHopeless(s, trace[0]);
      OvertakenForever(s.Do(trace[0]), trace[1..], t);
    }
  }

  // ----- an application that lets the barrier go first -----

  /** No block before the round's SYNC_REQUEST was accepted. */
  ghost predicate PatientStep(p: Peer, q: Peer, step: Step) {
    BarrierStep(p, step) && (step.SendData? ==> Syncs(p, q, None) == 0)
  }

  ghost const Patient: Rule := (s: Pair, a: Action) =>
    if a.side == Left then PatientStep(s.left, s.right, a.step) else PatientStep(s.right, s.left, a.step)

  /** No byte of the round was counted before its SYNC_REQUEST was accepted, nor will be. */
  predicate OnTime(v: View) {
    v.barrier.Open? ==> if v.syncs > 0 then v.sent == v.barrier.base else v.mark == v.barrier.base
  }

  lemma SetterOnTime(v: View, p: Peer, step: Step, acks: nat)
    requires RoundOk(v) && OnTime(v) && (step.SendData? ==> v.syncs == 0)
    ensures OnTime(SetterNext(v, p, step, acks))
  {
  }

  lemma CounterOnTime(v: View, p: Peer, step: Step, size: nat, total: nat)
    requires RoundOk(v) && OnTime(v)
    requires Accepts(p, step) ==> v.syncs > 0
    ensures OnTime(CounterNext(v, p, step, size, total))
  {
  }

  ghost predicate Punctual(s: Pair) { InRounds(s) && OnTime(ViewOf(s.left, s.right)) }

  lemma OnTimeStep(s: Pair, a: Action)
    requires Punctual(s) && s.CanDo(a) && Patient(s, a)
    ensures OnTime(ViewOf(s.Do(a).left, s.Do(a).right))
  {
    if a.side == Left {
      SetterViews(s.left, s.right, a.step);
      SetterOnTime(ViewOf(s.left, s.right), s.left, a.step, Acks(s.Do(a).left, s.Do(a).right));
    } else {
      if Accepts(s.right, a.step) { AcceptInOrder(s.right, s.left, a.step); }
      CounterViews(s.right, s.left, a.step);
      CounterOnTime(ViewOf(s.left, s.right), s.right, a.step, Parse(s.right.lanes.incoming).bufferSize,
                    CountsAfter(s.right, s.left, a.step).total);
    }
  }

  lemma StaysPunctual(s: Pair, a: Action)
    requires Punctual(s) && s.CanDo(a) && Patient(s, a)
    ensures Punctual(s.Do(a))
  {
    OnTimeStep(s, a);
    StepKeepsRounds(s, a);
  }

  lemma {:induction false} PunctualRuns(s: Pair, trace: seq<Action>, t: Pair)
    requires Punctual(s) && Leads(Patient, s, trace, t)
    ensures Punctual(t)
    decreases |trace|
  {
    if trace != [] {
      StaysPunctual(s, trace[0]);
      PunctualRuns(s.Do(trace[0]), trace[1..], t);
    }
  }

  lemma StartIsPunctual(s: Pair)
    requires Start(s)
    ensures Punctual(s)
  {
    StartIsInRounds(s);
    StartInRounds(s.left, s.right);
  }

  lemma PunctualFromStart(s: Pair, trace: seq<Action>, t: Pair)
    requires Start(s) && Leads(Patient, s, trace, t)
    ensures Punctual(t)
  {
    StartIsPunctual(s);
    PunctualRuns(s, trace, t);
  }

  lemma RestsWithFlag(t: Pair)
    requires Punctual(t) && Stuck(t) && HasMemory(t.left) && HasMemory(t.right) && t.left.app.barrier.Open?
    requires Sum(t.left.log.issued, ByteWeight()) == t.left.app.barrier.base + t.left.app.barrier.target
    ensures t.left.session.syncFlag
  {
    StuckIsFinished(t);
    EverythingThrough(t.left, t.right, ByteWeight());
    NoSyncsLeft(t.left, t.right);
    FlagIff(ViewOf(t.left, t.right));
  }

  /** Barrier progress, for an application that lets each SYNC_REQUEST be accepted first: when all blocks
      of the round are sent and the protocol has come to rest, the flag is up. */
  lemma PatientRoundsEnd(s: Pair, trace: seq<Action>, t: Pair)
    requires Start(s) && Leads(Patient, s, trace, t)
    requires Stuck(t) && HasMemory(t.left) && HasMemory(t.right) && t.left.app.barrier.Open?
    requires Sum(t.left.log.issued, ByteWeight()) == t.left.app.barrier.base + t.left.app.barrier.target
    ensures t.left.session.syncFlag
  {
    PunctualFromStart(s, trace, t);
    RestsWithFlag(t);
  }

  // ----- when a wait may end -----

  ghost predicate AllRead(p: Peer, q: Peer) { forall x :: x in p.log.issued ==> x in q.log.read }

  lemma AllReadIffBytes(p: Peer, q: Peer)
    requires Conserved(p, q) && Numbered(p.log)
    ensures AllRead(p, q) <==> ReadBytes(q) == Sum(p.log.issued, ByteWeight())
  {
    if AllRead(p, q) {
      DistinctWithin(p.log.issued, q.log.read, ByteWeight());
      ReadAtMostSent(p, q);
    }
    if ReadBytes(q) == Sum(p.log.issued, ByteWeight()) {
      forall x | x in p.log.issued ensures x in q.log.read { BytesTellTransfers(p, q, x); }
    }
  }

  lemma AnsweredIff(v: View)
    requires RoundOk(v) && v.barrier.Open?
    ensures v.flag || v.acks > 0 <==>
            v.sent == v.barrier.base + v.barrier.target && v.read == v.sent && v.syncs == 0 && v.mark == v.barrier.base
  {
  }

  /** The round is sent and read to the last byte, its SYNC_REQUEST was accepted, and none of its bytes
      had been counted then. */
  ghost predicate RoundDone(p: Peer, q: Peer)
    requires p.app.barrier.Open?
  {
    && Sum(p.log.issued, ByteWeight()) == p.app.barrier.base + p.app.barrier.target
    && AllRead(p, q) && Syncs(p, q, None) == 0 && q.app.mark == p.app.barrier.base
  }

  lemma DoneIff(t: Pair)
    requires Good(t) && RoundOk(ViewOf(t.left, t.right)) && t.left.app.barrier.Open?
    ensures t.left.session.syncFlag || Acks(t.left, t.right) > 0 <==> RoundDone(t.left, t.right)
  {
    AllReadIffBytes(t.left, t.right);
    AnsweredIff(ViewOf(t.left, t.right));
  }

  /** Whenever the application waits for a round: the flag is up or its SYNC_ACK is on the way if and only
      if the round is done. A caller let through with the flag down cannot know; and a round that was
      overtaken is read to the end without the flag ever coming up. */
  lemma ReturnIsSafeIff(s: Pair, trace: seq<Action>, t: Pair)
    requires Start(s) && Leads(ByRounds, s, trace, t) && t.left.app.barrier.Open?
    ensures t.left.session.syncFlag || Acks(t.left, t.right) > 0 <==> RoundDone(t.left, t.right)
  {
    RoundRuns(s, trace, t);
    DoneIff(t);
  }

  lemma PunctualSafeIff(t: Pair)
    requires Punctual(t) && t.left.app.barrier.Open?
    requires Sum(t.left.log.issued, ByteWeight()) == t.left.app.barrier.base + t.left.app.barrier.target
    ensures AllRead(t.left, t.right) <==> t.left.session.syncFlag || Acks(t.left, t.right) > 0
  {
    AllReadIffBytes(t.left, t.right);
    PunctualIff(ViewOf(t.left, t.right));
  }

  lemma PunctualIff(v: View)
    requires RoundOk(v) && OnTime(v) && v.barrier.Open? && v.sent == v.barrier.base + v.barrier.target
    ensures v.read == v.sent <==> v.flag || v.acks > 0
  {
  }

  /** If no block was sent before its SYNC_REQUEST was accepted, being read is enough. */
  lemma PatientReturnIsSafeIff(s: Pair, trace: seq<Action>, t: Pair)
    requires Start(s) && Leads(Patient, s, trace, t) && t.left.app.barrier.Open?
    requires Sum(t.left.log.issued, ByteWeight()) == t.left.app.barrier.base + t.left.app.barrier.target
    ensures AllRead(t.left, t.right) <==> t.left.session.syncFlag || Acks(t.left, t.right) > 0
  {
    PunctualFromStart(s, trace, t);
    PunctualSafeIff(t);
  }
}
