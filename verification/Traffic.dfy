/** How much can be on its way to a peer at once, and why 100 posted receives are enough
    (src/rdma_channel.cpp, src/rdma_message.cpp). */
module Traffic {
  import opened Bags
  import opened Words
  import opened Message
  import opened Protocol
  import opened System
  import opened CompletionLoop
  import opened Frames
  import opened Ledger
  import opened LockTokens
  import opened Lifetimes
  import opened Counting
  import opened Credits
  import opened Reachable

  // ----- ACK and SYNC_ACK in the order they were sent -----

  /** An ACK, or a SYNC_ACK. */
  datatype Reply = Acked | Synced

  function ReplyIn(e: Completion): seq<Reply> {
    if !e.RecvSend? then [] else if e.imm == Ack then [Acked] else if e.imm == SyncAck then [Synced] else []
  }

  function Replies(es: seq<Completion>): seq<Reply> {
    if es == [] then [] else ReplyIn(es[0]) + Replies(es[1..])
  }

  function Posted(es: seq<Packet>): seq<Reply> {
    if es == [] then [] else ReplyIn(Arrival(es[0])) + Posted(es[1..])
  }

  lemma {:induction false} RepliesAppend(es: seq<Completion>, e: Completion)
    ensures Replies(es + [e]) == Replies(es) + ReplyIn(e)
  {
    if es == [] {
      assert es + [e] == [e];
    } else {
      assert (es + [e])[1..] == es[1..] + [e];
      RepliesAppend(es[1..], e);
    }
  }

  lemma {:induction false} PostedAppend(es: seq<Packet>, e: Packet)
    ensures Posted(es + [e]) == Posted(es) + ReplyIn(Arrival(e))
  {
    if es == [] {
      assert es + [e] == [e];
    } else {
      assert (es + [e])[1..] == es[1..] + [e];
      PostedAppend(es[1..], e);
    }
  }

  lemma {:induction false} PostedReplace(es: seq<Packet>, k: nat, e: Packet)
    requires k < |es| && Arrival(e) == Arrival(es[k])
    ensures Posted(es[k := e]) == Posted(es)
  {
    if k > 0 {
      assert es[k := e][1..] == es[1..][k - 1 := e];
      PostedReplace(es[1..], k - 1, e);
    } else {
      assert es[k := e][1..] == es[1..];
    }
  }

  /** The replies on their way from `q` to `p`, the oldest first. */
  ghost function Stream(p: Peer, q: Peer): seq<Reply> { Unhandled(p.queue) + Posted(q.card.wire) }

  ghost function Unhandled(q: Queue<Completion>): seq<Reply> { Replies(q.batch) + Replies(q.cq) }

  function Acks(s: seq<Reply>): nat { if s == [] then 0 else One(s[0] == Acked) + Acks(s[1..]) }

  /** SYNC_ACKs with an ACK behind them ... */
  function Early(s: seq<Reply>): nat {
    if s == [] then 0 else One(s[0] == Synced && Acks(s[1..]) > 0) + Early(s[1..])
  }

  /** ... and without. */
  function Late(s: seq<Reply>): nat {
    if s == [] then 0 else One(s[0] == Synced && Acks(s[1..]) == 0) + Late(s[1..])
  }

  lemma {:induction false} ReplyAdded(s: seq<Reply>, r: Reply)
    ensures Acks(s + [r]) == Acks(s) + One(r == Acked)
    ensures r == Synced ==> Early(s + [r]) == Early(s) && Late(s + [r]) == Late(s) + 1
    ensures r == Acked ==> Early(s + [r]) == Early(s) + Late(s) && Late(s + [r]) == 0
  {
    if s == [] {
      assert s + [r] == [r];
    } else {
      assert (s + [r])[1..] == s[1..] + [r];
      ReplyAdded(s[1..], r);
    }
  }

  lemma {:induction false} NoAckNoEarly(s: seq<Reply>)
    requires Acks(s) == 0
    ensures Early(s) == 0
  {
    if s != [] { NoAckNoEarly(s[1..]); }
  }

  predicate Speaks(e: Completion, imm: MessageType) { e.RecvSend? && e.imm == imm }

  predicate Posts(e: Packet, imm: MessageType) { e.SendPacket? && e.imm == imm }

  lemma {:induction false} RepliesCount(es: seq<Completion>, a: Completion -> nat, w: Completion -> nat)
    requires forall e :: a(e) == One(Speaks(e, Ack)) && w(e) == One(Speaks(e, SyncAck))
    ensures Sum(es, a) == Acks(Replies(es)) && Sum(es, w) == |Replies(es)| - Acks(Replies(es))
  {
    if es != [] {
      RepliesCount(es[1..], a, w);
      AcksConcat(ReplyIn(es[0]), Replies(es[1..]));
    }
  }

  lemma {:induction false} PostedCount(es: seq<Packet>, a: Packet -> nat, w: Packet -> nat)
    requires forall e :: a(e) == One(Posts(e, Ack)) && w(e) == One(Posts(e, SyncAck))
    ensures Sum(es, a) == Acks(Posted(es)) && Sum(es, w) == |Posted(es)| - Acks(Posted(es))
  {
    if es != [] {
      PostedCount(es[1..], a, w);
      AcksConcat(ReplyIn(Arrival(es[0])), Posted(es[1..]));
    }
  }

  lemma {:induction false} AcksConcat(s: seq<Reply>, t: seq<Reply>)
    ensures Acks(s + t) == Acks(s) + Acks(t)
  {
    if s == [] {
      assert s + t == t;
    } else {
      assert (s + t)[1..] == s[1..] + t;
      AcksConcat(s[1..], t);
    }
  }

  lemma {:induction false} SyncsAreEarlyOrLate(s: seq<Reply>)
    ensures |s| == Acks(s) + Early(s) + Late(s)
  {
    if s != [] { SyncsAreEarlyOrLate(s[1..]); }
  }

  // ----- how a step changes the stream -----

  /** What a step adds to the replies its peer has posted. */
  ghost function Answered(q: Peer, p: Peer, step: Step): seq<Reply>
    requires Enabled(q, p, step)
  {
    if !step.Handle? then []
    else
      match q.queue.batch[0]
      case RecvWrite(intent, _) => if !intent.Over? && q.session.status != Work then [] else [Acked]
      case ReadDone(dest, _) => if ReachesTarget(Taken(q), dest) then [Synced] else []
      case _ => []
  }

  lemma ProcessPosts(q: Peer, e: Completion)
    ensures Posted(Process(q, e).card.wire)
         == Posted(q.card.wire) + match e
            case RecvWrite(intent, _) => if !intent.Over? && q.session.status != Work then [] else [Acked]
            case ReadDone(dest, _) => if ReachesTarget(q, dest) then [Synced] else []
            case _ => []
  {
    match e
    case RecvWrite(Over(_, x), round) => OverPosts(q, x, round);
    case RecvWrite(_, round) => PostedAppend(q.card.wire, SendPacket(Ack, round));
    case RecvSend(imm, _) => ImmediatePosts(q, imm);
    case ReadDone(_, _) => PostedAppend(q.card.wire, SendPacket(SyncAck, 0));
    case _ =>
  }

  lemma ImmediatePosts(q: Peer, imm: MessageType)
    ensures forall round :: Posted(ProcessImmediateMessage(q, imm, round).card.wire) == Posted(q.card.wire)
  {
    PostedAppend(q.card.wire, SendPacket(CloseAck, 0));
    PostedAppend(q.card.wire, SendPacket(CloseTerminate, 0));
  }

  lemma TerminatePosts(q: Peer)
    ensures Posted(Terminate(q).card.wire) == Posted(q.card.wire)
  {
    PostedAppend(q.card.wire, SendPacket(CloseTerminate, 0));
  }

  lemma AckPosts(q: Peer, round: nat)
    ensures Posted(Send(q, Ack, round).card.wire) == Posted(q.card.wire) + [Acked]
  {
    PostedAppend(q.card.wire, SendPacket(Ack, round));
  }

  lemma OverPosts(q: Peer, x: Transfer, round: nat)
    ensures Posted(ProcessReadOver(Recv(q), x, round).card.wire) == Posted(q.card.wire) + [Acked]
  {
    var p := Recv(q);
    var key := Parse(p.lanes.incoming).remoteAddr;
    var r := Send(p, Ack, round).(store := p.store.Erase(key).Delete(p.store.Find(key)),
                                  log := p.log.(freed := Append(p.log.freed, x)));
    AckPosts(p, round);
    TerminatePosts(r);
    assert ProcessReadOver(p, x, round) == if LastRelease(p) then Terminate(r) else r;
  }

  lemma AnswerPosted(q: Peer, p: Peer, step: Step)
    requires Enabled(q, p, step) && !step.Deliver?
    ensures Posted(Act(q, p, step).card.wire) == Posted(q.card.wire) + Answered(q, p, step)
  {
    match step
    case Handle => ProcessPosts(Taken(q), q.queue.batch[0]);
    case Gather(k) => PostedReplace(q.card.wire, k, Gathering(q.card.wire[k], q.lanes.outgoing));
    case CheckTask(k) => CheckPosts(q, k);
    case CloseEndpoint => PostedAppend(q.card.wire, SendPacket(Close, 0));
    case _ =>
  }

  lemma CheckPosts(q: Peer, k: nat)
    requires k < |q.pools.awake|
    ensures Posted(CheckAndRun(q, k).card.wire) == Posted(q.card.wire)
  {
    var rest := q.(pools := q.pools.(awake := Remove(q.pools.awake, k)));
    LockPosts(rest, q.pools.awake[k]);
  }

  lemma LockPosts(q: Peer, t: Task)
    ensures Posted(LockAndRun(q, t).card.wire) == Posted(q.card.wire)
  {
    PostedAppend(q.card.wire, WritePacket(t, None, q.lanes.round + 1));
  }

  lemma UnhandledRaised(q: Queue<Completion>, e: Completion)
    ensures Unhandled(q.Complete(e)) == Unhandled(q) + ReplyIn(e)
  {
    RepliesAppend(q.cq, e);
  }

  lemma UnhandledPolled(q: Queue<Completion>)
    requires NothingStranded(q) && q.loop == Rearmed
    ensures Unhandled(q.Poll()) == Unhandled(q)
  {
    PollDrains(q);
  }

  lemma UnhandledTaken(p: Peer)
    requires p.queue.batch != []
    ensures Unhandled(p.queue) == ReplyIn(p.queue.batch[0]) + Unhandled(Taken(p).queue)
  {
    assert Remove(p.queue.batch, 0) == p.queue.batch[1..];
  }

  lemma DeliveredPosted(q: Peer, p: Peer)
    requires Enabled(q, p, Deliver)
    ensures Posted(q.card.wire) == ReplyIn(Arrival(q.card.wire[0])) + Posted(Act(q, p, Deliver).card.wire)
  {
    assert Remove(q.card.wire, 0) == q.card.wire[1..];
  }

  lemma DeliveredRaised(q: Peer, p: Peer)
    requires Enabled(q, p, Deliver)
    ensures Unhandled(React(q, p, Deliver).queue) == Unhandled(p.queue) + ReplyIn(Arrival(q.card.wire[0]))
  {
    UnhandledRaised(p.queue, Arrival(q.card.wire[0]));
  }

  lemma Reassociated(a: seq<Reply>, b: seq<Reply>, c: seq<Reply>)
    ensures (a + b) + c == a + (b + c)
  {
  }

  /** The answering peer's step: a delivery leaves the stream as it is, anything else adds its answer. */
  lemma AnswererStream(q: Peer, p: Peer, step: Step)
    requires Enabled(q, p, step)
    ensures Stream(React(q, p, step), Act(q, p, step)) == Stream(p, q) + Answered(q, p, step)
  {
    if step.Deliver? {
      DeliveredPosted(q, p);
      DeliveredRaised(q, p);
      Reassociated(Unhandled(p.queue), ReplyIn(Arrival(q.card.wire[0])), Posted(Act(q, p, step).card.wire));
      assert Stream(p, q) + [] == Stream(p, q);
    } else {
      AnswerPosted(q, p, step);
      Reassociated(Unhandled(p.queue), Posted(q.card.wire), Answered(q, p, step));
    }
  }

  lemma AskerSends(p: Peer, q: Peer, step: Step)
    requires Enabled(p, q, step)
    ensures React(p, q, step).card.wire == q.card.wire
  {
  }

  lemma AskerRaises(p: Peer, q: Peer, step: Step)
    requires Enabled(p, q, step) && (step.WriteCompletes? || step.ReadCompletes?)
    ensures Unhandled(Act(p, q, step).queue) == Unhandled(p.queue)
  {
    match step
    case WriteCompletes(k) => UnhandledRaised(p.queue, WriteDone(p.card.written[k]));
    case ReadCompletes(k, _) => UnhandledRaised(p.queue, ReadDone(p.card.fetches[k].dest, p.card.fetches[k].x));
  }

  lemma AskerPolls(p: Peer, q: Peer, step: Step)
    requires Enabled(p, q, step) && NothingStranded(p.queue) && !step.Handle?
    ensures Unhandled(Act(p, q, step).queue) == Unhandled(p.queue)
  {
    if step.PollQueue? { UnhandledPolled(p.queue); }
    if step.WriteCompletes? || step.ReadCompletes? { AskerRaises(p, q, step); }
  }

  lemma AskerHandles(p: Peer, q: Peer)
    requires Enabled(p, q, Handle)
    ensures Unhandled(p.queue) == ReplyIn(p.queue.batch[0]) + Unhandled(Act(p, q, Handle).queue)
  {
    UnhandledTaken(p);
    ProcessLeavesQueue(Taken(p), p.queue.batch[0]);
  }

  /** The asking peer's step: handling a reply takes the oldest. */
  lemma AskerStream(p: Peer, q: Peer, step: Step)
    requires Enabled(p, q, step) && NothingStranded(p.queue)
    ensures Stream(p, q)
         == (if step.Handle? then ReplyIn(p.queue.batch[0]) else []) + Stream(Act(p, q, step), React(p, q, step))
  {
    AskerSends(p, q, step);
    if step.Handle? {
      AskerHandles(p, q);
      Reassociated(ReplyIn(p.queue.batch[0]), Unhandled(Act(p, q, step).queue), Posted(q.card.wire));
    } else {
      AskerPolls(p, q, step);
      var s := Stream(p, q);
      assert [] + s == s;
    }
  }

  // ----- at most two SYNC_ACKs -----

  /** At most one SYNC_ACK has an ACK behind it; and one more may be behind the last ACK, or may still
      come, because the bytes counted have not reached the target. */
  ghost predicate SyncsBounded(s: seq<Reply>, counts: Counts) {
    Late(s) + One(counts.total < counts.target) <= 1 && Early(s) <= 1
  }

  lemma HearingKeepsBound(r: Reply, s: seq<Reply>, counts: Counts)
    requires SyncsBounded([r] + s, counts)
    ensures SyncsBounded(s, counts)
  {
    assert ([r] + s)[1..] == s;
  }

  /** Counting a block cannot hit a target that was reached before. */
  ghost predicate CountsForward(q: Peer, step: Step, after: Counts) {
    step.Handle? && q.queue.batch != [] && q.queue.batch[0].ReadDone? ==>
      && (ReachesTarget(Taken(q), q.queue.batch[0].dest) <==> after.total == after.target)
      && after.target == q.counts.target
      && (q.counts.total >= q.counts.target ==> after.total > after.target)
  }

  lemma ForwardCounts(q: Peer, p: Peer, step: Step)
    requires Enabled(q, p, step) && Consistent(q) && CountExact(q)
    requires step.Handle? && q.queue.batch[0].ReadDone? ==> ReadBytes(q) + |q.queue.batch[0].x.data| < TWO_TO_THE_64
    ensures CountsForward(q, step, CountsAfter(q, p, step))
  {
    if step.Handle? && q.queue.batch[0].ReadDone? && q.counts.total >= q.counts.target {
      NoSecondAck(q, q.queue.batch[0].dest, q.queue.batch[0].x);
    }
  }

  function AckHeard(): Completion -> nat { (e: Completion) => One(Speaks(e, Ack)) }

  function SyncHeard(): Completion -> nat { (e: Completion) => One(Speaks(e, SyncAck)) }

  function AckPosted(): Packet -> nat { (e: Packet) => One(Posts(e, Ack)) }

  function SyncPosted(): Packet -> nat { (e: Packet) => One(Posts(e, SyncAck)) }

  lemma StreamCounts(p: Peer, q: Peer)
    ensures Sum(p.queue.batch, AckHeard()) + Sum(p.queue.cq, AckHeard()) + Sum(q.card.wire, AckPosted())
         == Acks(Stream(p, q))
    ensures Sum(p.queue.batch, SyncHeard()) + Sum(p.queue.cq, SyncHeard()) + Sum(q.card.wire, SyncPosted())
         == Early(Stream(p, q)) + Late(Stream(p, q))
  {
    RepliesCount(p.queue.batch, AckHeard(), SyncHeard());
    RepliesCount(p.queue.cq, AckHeard(), SyncHeard());
    PostedCount(q.card.wire, AckPosted(), SyncPosted());
    AcksConcat(Replies(p.queue.batch), Replies(p.queue.cq));
    AcksConcat(Unhandled(p.queue), Posted(q.card.wire));
    SyncsAreEarlyOrLate(Stream(p, q));
  }

  lemma AcksOut(q: Peer)
    ensures q.queue.batch != [] && q.queue.batch[0].RecvWrite? ==>
              Sum(q.card.wire, AckPosted()) + 1 <= Weight(q, FarTokens(None))
    ensures Sum(q.card.wire, AckPosted()) <= Weight(q, FarTokens(None))
  {
    var v := Weightless.(packet := AckPosted(), completion := (e: Completion) => One(e.RecvWrite?));
    EmptyHanded(q, v);
    WeightMonotone(q, v, FarTokens(None));
    HeadWeighs(q.queue.batch, v.completion);
  }

  lemma AcksIn(p: Peer)
    ensures Sum(p.queue.batch, AckHeard()) + Sum(p.queue.cq, AckHeard()) <= Weight(p, RemoteTokens(None))
  {
    CompletionsWeigh(p, AckHeard());
    WeightMonotone(p, Weightless.(completion := AckHeard()), RemoteTokens(None));
  }

  /** While a message of `p` waits to be handled by `q`, no ACK is on its way to `p`. */
  lemma AskedUnanswered(p: Peer, q: Peer)
    requires OneToken(p, q) && q.queue.batch != [] && q.queue.batch[0].RecvWrite?
    ensures Acks(Stream(p, q)) == 0
  {
    assert RemoteToken(p, q, None);
    StreamCounts(p, q);
    AcksIn(p);
    AcksOut(q);
  }

  lemma AnswererBounded(q: Peer, p: Peer, step: Step, counts: Counts)
    requires Enabled(q, p, step) && OneToken(p, q) && SyncsBounded(Stream(p, q), q.counts)
    requires CountsForward(q, step, counts) && counts == CountsAfter(q, p, step)
    ensures SyncsBounded(Stream(p, q) + Answered(q, p, step), counts)
  {
    var s := Stream(p, q);
    assert s + [] == s;
    if step.Handle? {
      if q.queue.batch[0].RecvWrite? { AskedUnanswered(p, q); }
      ReplyAdded(s, Acked);
      ReplyAdded(s, Synced);
      if Acks(s) == 0 { NoAckNoEarly(s); }
    }
  }

  lemma AskerBounded(s: seq<Reply>, e: Completion, counts: Counts)
    requires SyncsBounded(ReplyIn(e) + s, counts)
    ensures SyncsBounded(s, counts)
  {
    if ReplyIn(e) == [] { assert ReplyIn(e) + s == s; } else { HearingKeepsBound(ReplyIn(e)[0], s, counts); }
  }

  // ----- the messages of a close -----

  /** No peer sends these without content. */
  predicate IsOdd(imm: MessageType) { imm == SyncRequest || imm == ReadRequest || imm == ReadOver }

  predicate CloseLike(imm: MessageType) { imm == Close || imm == CloseAck || imm == CloseTerminate || IsOdd(imm) }

  /** What the messages `q` posted, or has to handle, may still cost `p` ... */
  function DebtPosted(imm: MessageType): nat { if imm == Close then 2 else if CloseLike(imm) then 1 else 0 }

  function DebtRaised(imm: MessageType): nat { if imm == Close then 2 else if imm == CloseAck then 1 else 0 }

  ghost function DebtFar(): Weighting {
    Weightless.(packet := (e: Packet) => if e.SendPacket? then DebtPosted(e.imm) else 0,
                completion := (e: Completion) => if e.RecvSend? then DebtRaised(e.imm) else 0)
  }

  /** ... and what those `p` posted, or has to handle, may. */
  ghost function DebtNear(): Weighting {
    Weightless.(packet := (e: Packet) => if e.SendPacket? then DebtRaised(e.imm) else 0,
                completion := (e: Completion) => if e.RecvSend? then DebtPosted(e.imm) else 0)
  }

  ghost function DebtWith(far: nat, near: nat, status: SessionStatus, qCalled: bool, pCalled: bool): nat {
    far + near + One(status == Closing) + 2 * One(!qCalled) + 2 * One(!pCalled)
  }

  /** At most four messages of a close are on their way to `p`, now or later: each peer calls close once. */
  ghost function Debt(p: Peer, q: Peer): nat {
    DebtWith(Weight(q, DebtFar()), Weight(p, DebtNear()), q.session.status, q.app.closeCalled, p.app.closeCalled)
  }

  lemma FarHandled(q: Peer, e: Completion, v: Weighting)
    requires v == DebtFar()
    ensures HandleGain(q, e, v) + One(ProcessedSession(q, e).status == Closing)
         <= v.completion(e) + One(q.session.status == Closing)
  {
  }

  lemma FarElsewhere(q: Peer, p: Peer, step: Step, v: Weighting, w: Weighting)
    requires Enabled(q, p, step) && v == DebtFar() && w == DebtNear() && !step.Handle?
    ensures Gain(q, p, step, v) + Arrives(q, p, step, w) == Loss(q, p, step, v) + 2 * One(step.CloseEndpoint?)
  {
  }

  lemma NearAttached(p: Peer, intent: Task, round: nat, v: Weighting)
    requires v == DebtNear()
    ensures AttachedGain(p, intent, round, v) == 0
  {
  }

  lemma NearImmediate(p: Peer, imm: MessageType, round: nat, v: Weighting)
    requires v == DebtNear()
    ensures ImmediateGain(p, imm, round, v) <= DebtPosted(imm)
  {
  }

  lemma NearHandled(p: Peer, e: Completion, v: Weighting)
    requires v == DebtNear()
    ensures HandleGain(p, e, v) <= v.completion(e)
  {
    match e
    case RecvWrite(intent, round) => NearAttached(p, intent, round, v);
    case RecvSend(imm, round) => NearImmediate(p, imm, round, v);
    case _ =>
  }

  lemma NearElsewhere(p: Peer, q: Peer, step: Step, v: Weighting, w: Weighting)
    requires Enabled(p, q, step) && v == DebtNear() && w == DebtFar() && !step.Handle?
    ensures Gain(p, q, step, v) + Arrives(p, q, step, w) == Loss(p, q, step, v) + 2 * One(step.CloseEndpoint?)
  {
  }

  ghost predicate CloseOnce(p: Peer, step: Step) { step.CloseEndpoint? ==> !p.app.closeCalled }

  lemma CalledAfter(p: Peer, q: Peer, step: Step)
    requires Enabled(p, q, step)
    ensures Act(p, q, step).app.closeCalled == (p.app.closeCalled || step.CloseEndpoint?)
    ensures React(p, q, step).app.closeCalled == q.app.closeCalled
  {
    ActCounts(p, q, step);
    ReactRest(p, q, step);
  }

  lemma FarMoves(q: Peer, p: Peer, step: Step, v: Weighting, w: Weighting)
    requires Enabled(q, p, step) && v == DebtFar() && w == DebtNear()
    ensures Gain(q, p, step, v) + Arrives(q, p, step, w) + One(SessionAfter(q, p, step).status == Closing)
         <= Loss(q, p, step, v) + 2 * One(step.CloseEndpoint?) + One(q.session.status == Closing)
  {
    if step.Handle? { FarHandled(Taken(q), q.queue.batch[0], v); } else { FarElsewhere(q, p, step, v, w); }
  }

  lemma NearMoves(p: Peer, q: Peer, step: Step, v: Weighting, w: Weighting)
    requires Enabled(p, q, step) && v == DebtNear() && w == DebtFar()
    ensures Gain(p, q, step, v) + Arrives(p, q, step, w) <= Loss(p, q, step, v) + 2 * One(step.CloseEndpoint?)
  {
    if step.Handle? { NearHandled(Taken(p), p.queue.batch[0], v); } else { NearElsewhere(p, q, step, v, w); }
  }

  lemma FarDebt(q: Peer, p: Peer, step: Step)
    requires Enabled(q, p, step) && NothingStranded(q.queue) && CloseOnce(q, step)
    ensures Debt(React(q, p, step), Act(q, p, step)) <= Debt(p, q)
  {
    Balanced(q, p, step, DebtFar());
    ReactionBalanced(q, p, step, DebtNear());
    FarMoves(q, p, step, DebtFar(), DebtNear());
    ActSession(q, p, step);
    CalledAfter(q, p, step);
  }

  lemma NearDebt(p: Peer, q: Peer, step: Step)
    requires Enabled(p, q, step) && NothingStranded(p.queue) && CloseOnce(p, step)
    ensures Debt(Act(p, q, step), React(p, q, step)) <= Debt(p, q)
  {
    Balanced(p, q, step, DebtNear());
    ReactionBalanced(p, q, step, DebtFar());
    NearMoves(p, q, step, DebtNear(), DebtFar());
    ReactRest(p, q, step);
    CalledAfter(p, q, step);
  }

  // ----- whole runs -----

  /** Each application calls close at most once and sends less than 2^64 bytes in all. */
  ghost predicate ModestStep(p: Peer, step: Step) {
    && CloseOnce(p, step)
    && (step.SendData? ==> Sum(p.log.issued, ByteWeight()) + |step.x.data| < TWO_TO_THE_64)
  }

  ghost const Modest: Rule := (s: Pair, a: Action) => ModestStep(if a.side == Left then s.left else s.right, a.step)

  /** What bounds the messages on their way to `p`. */
  ghost predicate Bounded(p: Peer, q: Peer) {
    && SyncsBounded(Stream(p, q), q.counts) && Debt(p, q) <= 4
    && Sum(p.log.issued, ByteWeight()) < TWO_TO_THE_64
  }

  lemma BytesStayModest(p: Peer, q: Peer, step: Step)
    requires Enabled(p, q, step) && ModestStep(p, step) && Sum(p.log.issued, ByteWeight()) < TWO_TO_THE_64
    ensures Sum(Act(p, q, step).log.issued, ByteWeight()) < TWO_TO_THE_64
  {
    ActLog(p, q, step);
  }

  lemma AskerKeepsBound(p: Peer, q: Peer, step: Step)
    requires Enabled(p, q, step) && NothingStranded(p.queue) && ModestStep(p, step) && Bounded(p, q)
    ensures Bounded(Act(p, q, step), React(p, q, step))
  {
    BytesStayModest(p, q, step);
    NearDebt(p, q, step);
    ReactRest(p, q, step);
    AskerStream(p, q, step);
    if step.Handle? { AskerBounded(Stream(Act(p, q, step), React(p, q, step)), p.queue.batch[0], q.counts); }
    else { assert [] + Stream(Act(p, q, step), React(p, q, step)) == Stream(Act(p, q, step), React(p, q, step)); }
  }

  lemma AnswererKeepsBound(q: Peer, p: Peer, step: Step)
    requires Enabled(q, p, step) && Inv(q, p) && ModestStep(q, step) && Bounded(p, q)
    ensures Bounded(React(q, p, step), Act(q, p, step))
  {
    if step.Handle? && q.queue.batch[0].ReadDone? { CountedWasSent(q, p); }
    ForwardCounts(q, p, step);
    AnswererBounded(q, p, step, CountsAfter(q, p, step));
    AnswererStream(q, p, step);
    ActCounts(q, p, step);
    FarDebt(q, p, step);
    ReactLog(q, p, step);
  }

  ghost predicate InBounds(s: Pair) { Good(s) && Bounded(s.left, s.right) && Bounded(s.right, s.left) }

  lemma StepStaysInBounds(s: Pair, a: Action)
    requires InBounds(s) && s.CanDo(a) && Modest(s, a)
    ensures InBounds(s.Do(a))
  {
    StepIsGood(s, a);
    if a.side == Left {
      AskerKeepsBound(s.left, s.right, a.step);
      AnswererKeepsBound(s.left, s.right, a.step);
    } else {
      AskerKeepsBound(s.right, s.left, a.step);
      AnswererKeepsBound(s.right, s.left, a.step);
    }
  }

  lemma FirstBounded(p: Peer, q: Peer)
    requires Nothing(p) && Nothing(q) && Unhandled(p.queue) == [] && q.card.wire == [] && q.counts == Counts(0, 0)
    requires p.log.issued == [] && q.session.status == Work && !p.app.closeCalled && !q.app.closeCalled
    ensures Bounded(p, q)
  {
    assert Stream(p, q) == [];
  }

  lemma FirstUnhandled(p: Peer)
    requires Initial(p)
    ensures Unhandled(p.queue) == []
  {
  }

  lemma StartBounded(p: Peer, q: Peer)
    requires Initial(p) && Initial(q)
    ensures Bounded(p, q)
  {
    StartsWithNothing(p);
    StartsWithNothing(q);
    FirstUnhandled(p);
    FirstBounded(p, q);
  }

  lemma {:induction false} StayInBounds(s: Pair, trace: seq<Action>, t: Pair)
    requires InBounds(s) && Leads(Modest, s, trace, t)
    ensures InBounds(t)
    decreases |trace|
  {
    if trace != [] {
      StepStaysInBounds(s, trace[0]);
      StayInBounds(s.Do(trace[0]), trace[1..], t);
    }
  }

  // ----- one SYNC_ACK per accepted SYNC_REQUEST -----

  /** The step accepts a SYNC_REQUEST. */
  ghost predicate AcceptsSync(q: Peer, step: Step) {
    && step.Handle? && q.queue.batch != [] && q.queue.batch[0].RecvWrite? && q.queue.batch[0].intent.Sync?
    && q.session.status == Work
  }

  ghost function SyncAcks(): Weighting { Weightless.(packet := SyncPosted()) }

  lemma SyncAcksHandled(q: Peer, e: Completion, v: Weighting)
    requires v == SyncAcks()
    ensures HandleGain(q, e, v) == One(e.ReadDone? && ReachesTarget(q, e.dest))
  {
  }

  lemma SyncAcksElsewhere(q: Peer, p: Peer, step: Step, v: Weighting)
    requires Enabled(q, p, step) && v == SyncAcks() && !step.Handle?
    ensures Gain(q, p, step, v) == 0
  {
  }

  /** The room left below the target. */
  ghost function Below(counts: Counts): nat { One(counts.total < counts.target) }

  lemma BelowHandled(q: Peer, p: Peer, counts: Counts)
    requires Enabled(q, p, Handle) && counts == CountsAfter(q, p, Handle) && CountsForward(q, Handle, counts)
    ensures One(q.queue.batch[0].ReadDone? && ReachesTarget(Taken(q), q.queue.batch[0].dest)) + Below(counts)
         <= Below(q.counts) + One(AcceptsSync(q, Handle))
  {
  }

  lemma BelowElsewhere(q: Peer, p: Peer, step: Step)
    requires Enabled(q, p, step) && !step.Handle?
    ensures CountsAfter(q, p, step) == q.counts
  {
  }

  lemma AnswererAcks(q: Peer, p: Peer, step: Step)
    requires Enabled(q, p, step) && Inv(q, p) && Sum(p.log.issued, ByteWeight()) < TWO_TO_THE_64
    ensures Gain(q, p, step, SyncAcks()) + Below(Act(q, p, step).counts) <= Below(q.counts) + One(AcceptsSync(q, step))
  {
    ActCounts(q, p, step);
    if step.Handle? {
      if q.queue.batch[0].ReadDone? { CountedWasSent(q, p); }
      ForwardCounts(q, p, step);
      SyncAcksHandled(Taken(q), q.queue.batch[0], SyncAcks());
      BelowHandled(q, p, CountsAfter(q, p, step));
    } else {
      SyncAcksElsewhere(q, p, step, SyncAcks());
      BelowElsewhere(q, p, step);
    }
  }

  /** SYNC_ACKs the right peer posts along a run. */
  ghost function SyncAcksAlong(s: Pair, trace: seq<Action>): nat
    decreases |trace|
  {
    if trace == [] || !s.CanDo(trace[0]) then 0
    else (if trace[0].side == Right then Gain(s.right, s.left, trace[0].step, SyncAcks()) else 0)
         + SyncAcksAlong(s.Do(trace[0]), trace[1..])
  }

  /** SYNC_REQUESTs it accepts. */
  ghost function SyncsAcceptedAlong(s: Pair, trace: seq<Action>): nat
    decreases |trace|
  {
    if trace == [] || !s.CanDo(trace[0]) then 0
    else One(trace[0].side == Right && AcceptsSync(s.right, trace[0].step))
         + SyncsAcceptedAlong(s.Do(trace[0]), trace[1..])
  }

  lemma AcksNow(s: Pair, a: Action)
    requires InBounds(s) && s.CanDo(a)
    ensures (if a.side == Right then Gain(s.right, s.left, a.step, SyncAcks()) else 0) + Below(s.Do(a).right.counts)
         <= Below(s.right.counts) + One(a.side == Right && AcceptsSync(s.right, a.step))
  {
    if a.side == Right { AnswererAcks(s.right, s.left, a.step); } else { ReactRest(s.left, s.right, a.step); }
  }

  /** From any point of a run on, no more SYNC_ACKs are posted than SYNC_REQUESTs were accepted, and one
      more if the target was still ahead. So between two acceptances there is at most one. */
  lemma {:induction false} AcksAlong(s: Pair, trace: seq<Action>, t: Pair)
    requires InBounds(s) && Leads(Modest, s, trace, t)
    ensures SyncAcksAlong(s, trace) + Below(t.right.counts) <= Below(s.right.counts) + SyncsAcceptedAlong(s, trace)
    decreases |trace|
  {
    if trace != [] {
      AcksNow(s, trace[0]);
      StepStaysInBounds(s, trace[0]);
      AcksAlong(s.Do(trace[0]), trace[1..], t);
    }
  }

  lemma StartInBounds(s: Pair)
    requires Start(s)
    ensures InBounds(s)
  {
    StartIsGood(s);
    StartBounded(s.left, s.right);
    StartBounded(s.right, s.left);
  }

  lemma NothingBelow(p: Peer)
    requires Initial(p)
    ensures Below(p.counts) == 0
  {
  }

  /** In every run SYNC_ACK is posted at most once per accepted SYNC_REQUEST: from the start no more often
      than requests were accepted, and from any later point on no more than once more, so that a stretch
      that accepts none posts at most one. */
  lemma OneAckPerRequest(s: Pair, before: seq<Action>, t: Pair, trace: seq<Action>, u: Pair)
    requires Start(s) && Leads(Modest, s, before, t) && Leads(Modest, t, trace, u)
    ensures SyncAcksAlong(s, before) <= SyncsAcceptedAlong(s, before)
    ensures SyncAcksAlong(t, trace) <= SyncsAcceptedAlong(t, trace) + 1
  {
    AcksFromStart(s, before, t);
    BoundsOfRuns(s, before, t);
    AcksAlong(t, trace, u);
  }

  lemma AcksFromStart(s: Pair, trace: seq<Action>, t: Pair)
    requires Start(s) && Leads(Modest, s, trace, t)
    ensures SyncAcksAlong(s, trace) <= SyncsAcceptedAlong(s, trace)
  {
    StartInBounds(s);
    NothingBelow(s.right);
    AcksAlong(s, trace, t);
  }

  // ----- the receives are enough -----

  /** Messages posted by `q` and not yet handled by `p`. */
  ghost function Coming(p: Peer, q: Peer): nat { |q.card.wire| + Weight(p, Receives()) }

  function Attached(): Packet -> nat { (e: Packet) => One(e.WritePacket?) }

  function AttachedHeard(): Completion -> nat { (e: Completion) => One(e.RecvWrite?) }

  function ClosePosted(): Packet -> nat { (e: Packet) => One(e.SendPacket? && CloseLike(e.imm)) }

  function CloseHeard(): Completion -> nat { (e: Completion) => One(e.RecvSend? && CloseLike(e.imm)) }

  /** The messages of one kind on their way to `p`, posted or waiting to be handled. */
  ghost function OnTheWay(p: Peer, q: Peer, w: Packet -> nat, v: Completion -> nat): nat {
    Sum(q.card.wire, w) + Sum(p.queue.batch, v) + Sum(p.queue.cq, v)
  }

  /** At most one attached message, one ACK, two SYNC_ACKs, four messages of a close. */
  ghost predicate FewOfEach(p: Peer, q: Peer) {
    && OnTheWay(p, q, Attached(), AttachedHeard()) <= 1
    && OnTheWay(p, q, AckPosted(), AckHeard()) <= 1
    && OnTheWay(p, q, SyncPosted(), SyncHeard()) <= 2
    && OnTheWay(p, q, ClosePosted(), CloseHeard()) <= 4
  }

  /** Every message is an attached one, an ACK, a SYNC_ACK, or one of a close. */
  lemma {:induction false} PacketsSplit(es: seq<Packet>)
    ensures |es| == Sum(es, Attached()) + Sum(es, AckPosted()) + Sum(es, SyncPosted()) + Sum(es, ClosePosted())
  {
    if es != [] { PacketsSplit(es[1..]); }
  }

  lemma {:induction false} CompletionsSplit(es: seq<Completion>, w: Completion -> nat)
    requires w == Receives().completion
    ensures Sum(es, w) == Sum(es, AttachedHeard()) + Sum(es, AckHeard()) + Sum(es, SyncHeard()) + Sum(es, CloseHeard())
  {
    if es != [] { CompletionsSplit(es[1..], w); }
  }

  lemma AttachedPosted(q: Peer)
    ensures Sum(q.card.wire, Attached()) <= Weight(q, RemoteTokens(None))
  {
    PacketsWeigh(q, Attached());
    WeightMonotone(q, Weightless.(packet := Attached()), RemoteTokens(None));
  }

  lemma AttachedRaised(p: Peer)
    ensures Sum(p.queue.batch, AttachedHeard()) + Sum(p.queue.cq, AttachedHeard()) <= Weight(p, FarTokens(None))
  {
    CompletionsWeigh(p, AttachedHeard());
    WeightMonotone(p, Weightless.(completion := AttachedHeard()), FarTokens(None));
  }

  lemma AttachedOut(p: Peer, q: Peer)
    requires OneToken(q, p)
    ensures OnTheWay(p, q, Attached(), AttachedHeard()) <= 1
  {
    assert RemoteToken(q, p, None);
    AttachedPosted(q);
    AttachedRaised(p);
  }

  lemma RepliesOut(p: Peer, q: Peer)
    requires OneToken(p, q) && SyncsBounded(Stream(p, q), q.counts)
    ensures OnTheWay(p, q, AckPosted(), AckHeard()) <= 1 && OnTheWay(p, q, SyncPosted(), SyncHeard()) <= 2
  {
    assert RemoteToken(p, q, None);
    StreamCounts(p, q);
    AcksIn(p);
    AcksOut(q);
  }

  lemma CloseOut(p: Peer, q: Peer)
    requires Debt(p, q) <= 4
    ensures OnTheWay(p, q, ClosePosted(), CloseHeard()) <= 4
  {
    EmptyHanded(q, DebtFar());
    EmptyHanded(p, DebtNear());
    SumMonotone(q.card.wire, ClosePosted(), DebtFar().packet);
    SumMonotone(p.queue.batch, CloseHeard(), DebtNear().completion);
    SumMonotone(p.queue.cq, CloseHeard(), DebtNear().completion);
  }

  lemma ComingSplit(p: Peer, q: Peer)
    ensures Coming(p, q) == OnTheWay(p, q, Attached(), AttachedHeard()) + OnTheWay(p, q, AckPosted(), AckHeard())
                            + OnTheWay(p, q, SyncPosted(), SyncHeard()) + OnTheWay(p, q, ClosePosted(), CloseHeard())
  {
    CompletionsWeigh(p, Receives().completion);
    PacketsSplit(q.card.wire);
    CompletionsSplit(p.queue.batch, Receives().completion);
    CompletionsSplit(p.queue.cq, Receives().completion);
  }

  lemma FewComing(p: Peer, q: Peer)
    requires Inv(p, q) && Bounded(p, q)
    ensures FewOfEach(p, q)
  {
    AttachedOut(p, q);
    RepliesOut(p, q);
    CloseOut(p, q);
  }

  lemma CreditsLeft(p: Peer, q: Peer)
    requires FewOfEach(p, q) && CreditExact(p)
    ensures Coming(p, q) <= 8 && p.card.credits >= POSTED_RECEIVES - 8
  {
    ComingSplit(p, q);
  }

  lemma FewInBounds(t: Pair)
    requires InBounds(t)
    ensures FewOfEach(t.left, t.right) && FewOfEach(t.right, t.left)
    ensures Coming(t.left, t.right) <= 8 && Coming(t.right, t.left) <= 8
    ensures t.left.card.credits >= POSTED_RECEIVES - 8 && t.right.card.credits >= POSTED_RECEIVES - 8
  {
    FewComing(t.left, t.right);
    FewComing(t.right, t.left);
    CreditsLeft(t.left, t.right);
    CreditsLeft(t.right, t.left);
  }

  lemma BoundsOfRuns(s: Pair, trace: seq<Action>, t: Pair)
    requires Start(s) && Leads(Modest, s, trace, t)
    ensures InBounds(t)
  {
    StartInBounds(s);
    StayInBounds(s, trace, t);
  }

  /** Receive credits never run out. In every run in which each application calls close at most once, at
      most one attached message, one ACK, two SYNC_ACKs and four messages of a close are on their way to
      a peer, posted or waiting to be handled, and these are all there are; so at least 92 of its 100
      receives stay posted. */
  lemma CreditsSuffice(s: Pair, trace: seq<Action>, t: Pair)
    requires Start(s) && Leads(Modest, s, trace, t)
    ensures FewOfEach(t.left, t.right) && FewOfEach(t.right, t.left)
    ensures Coming(t.left, t.right) <= 8 && Coming(t.right, t.left) <= 8
    ensures t.left.card.credits >= POSTED_RECEIVES - 8 && t.right.card.credits >= POSTED_RECEIVES - 8
  {
    BoundsOfRuns(s, trace, t);
    FewInBounds(t);
  }
}
