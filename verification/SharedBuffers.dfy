/** Two 20-byte buffers shared by every message of a connection are never overwritten too early
    (src/rdma_channel.cpp, src/rdma_message.cpp). */
module SharedBuffers {
  import opened Bags
  import opened Message
  import opened Protocol
  import opened System
  import opened CompletionLoop
  import opened Frames
  import opened Ledger
  import opened LockTokens

  /** What the sending task means to say. */
  function Meant(t: Task): Content {
    match t
    case Request(x) => x.Describe()
    case Over(addr, _) => Content(addr, 0, 0)
    case Sync(size) => Content(0, size, 0)
  }

  ghost predicate Carries(b: Block, t: Task) { SameFields(t.Imm(), Parse(b), Meant(t)) }

  ghost predicate PostIntact(outgoing: Block, e: Packet) {
    e.WritePacket? ==>
      && Carries(outgoing, e.intent)
      && (e.payload.Some? ==> e.payload.value == outgoing[..PrefixLength(e.intent.Imm())])
  }

  /** Posted writes that a buffer holding `outgoing` would send wrong, or has. */
  ghost function SpoiledPosts(outgoing: Block): Weighting {
    Weightless.(packet := (e: Packet) => One(!PostIntact(outgoing, e)))
  }

  /** Unparsed messages that a buffer holding `incoming` would decode wrong. */
  ghost function SpoiledArrivals(incoming: Block): Weighting {
    Weightless.(completion := (e: Completion) => One(e.RecvWrite? && !Carries(incoming, e.intent)))
  }

  ghost predicate BuffersIntact(p: Peer) {
    Weight(p, SpoiledPosts(p.lanes.outgoing)) == 0 && Weight(p, SpoiledArrivals(p.lanes.incoming)) == 0
  }

  /** Every task fills in all it means, and none but a request touches the stale key. */
  lemma FillCarries(t: Task, outgoing: Block)
    ensures Carries(FillFor(t, outgoing), t)
    ensures Parse(FillFor(t, outgoing))
         == if t.Request? then t.x.Describe() else Meant(t).(rkey := Parse(outgoing).rkey)
  {
    match t
    case Request(x) => ParseOfFill(outgoing, x.addr, |x.data|, Some(x.rkey));
    case Over(addr, _) => ParseOfFill(outgoing, addr, 0, None);
    case Sync(size) => ParseOfFill(outgoing, 0, size, None);
  }

  lemma LandCarries(t: Task, outgoing: Block, incoming: Block)
    requires Carries(outgoing, t)
    ensures Carries(Land(outgoing[..PrefixLength(t.Imm())], incoming), t)
  {
    var landed := Land(outgoing[..PrefixLength(t.Imm())], incoming);
    assert landed[..PrefixLength(t.Imm())] == outgoing[..PrefixLength(t.Imm())];
    PrefixDecides(t.Imm(), landed, outgoing);
  }

  /** With the local lock free nothing is posted, so any refill is safe. */
  lemma FreeToFill(p: Peer, outgoing: Block)
    requires LocalToken(p, None) && p.lanes.local == Idle
    ensures Weight(p, SpoiledPosts(outgoing)) == 0
  {
    WeightMonotone(p, SpoiledPosts(outgoing), LocalTokens(None));
  }

  /** While a message is on its way nothing else is unparsed, so it may land. */
  lemma FreeToLand(p: Peer, q: Peer, e: Packet, incoming: Block)
    requires RemoteToken(p, q, None) && e in p.card.wire && e.WritePacket?
    ensures Weight(q, SpoiledArrivals(incoming)) == 0
  {
    Outweighed(p.card.wire, RemoteTokens(None).packet, e);
    WeightMonotone(q, SpoiledArrivals(incoming), FarTokens(None));
  }

  lemma PostsElsewhere(p: Peer, q: Peer, step: Step, v: Weighting)
    requires Enabled(p, q, step) && v == SpoiledPosts(p.lanes.outgoing) && !step.CheckTask? && !step.Gather?
    ensures Gain(p, q, step, v) == 0
  {
  }

  lemma CheckedPost(p: Peer, q: Peer, k: nat, v: Weighting)
    requires Enabled(p, q, CheckTask(k)) && v == SpoiledPosts(LanesAfter(p, q, CheckTask(k)).outgoing)
    ensures Gain(p, q, CheckTask(k), v) == 0
  {
    FillCarries(p.pools.awake[k], p.lanes.outgoing);
  }

  lemma PostsMove(p: Peer, q: Peer, step: Step, out: Block, v: Weighting)
    requires Enabled(p, q, step)
    requires out == LanesAfter(p, q, step).outgoing && v == SpoiledPosts(out)
    requires Weight(p, v) == 0
    ensures Gain(p, q, step, v) <= Loss(p, q, step, v)
  {
    match step
    case CheckTask(k) => CheckedPost(p, q, k, v);
    case Gather(k) => Outweighed(p.card.wire, v.packet, p.card.wire[k]);
    case _ => PostsElsewhere(p, q, step, v);
  }

  lemma PostsKept(p: Peer, q: Peer, step: Step)
    requires Enabled(p, q, step) && NothingStranded(p.queue) && LocalToken(p, None)
    requires BuffersIntact(p)
    ensures Weight(Act(p, q, step), SpoiledPosts(Act(p, q, step).lanes.outgoing)) == 0
  {
    ActLanes(p, q, step);
    var out := LanesAfter(p, q, step).outgoing;
    var v := SpoiledPosts(out);
    if step.CheckTask? && p.lanes.MayLock() { FreeToFill(p, out); }
    Balanced(p, q, step, v);
    PostsMove(p, q, step, out, v);
  }

  lemma ArrivalsMove(p: Peer, q: Peer, step: Step, v: Weighting)
    requires Enabled(p, q, step) && v == SpoiledArrivals(p.lanes.incoming)
    ensures Gain(p, q, step, v) == 0
  {
  }

  lemma ActorIntact(p: Peer, q: Peer, step: Step)
    requires Enabled(p, q, step) && NothingStranded(p.queue) && LocalToken(p, None)
    requires BuffersIntact(p)
    ensures BuffersIntact(Act(p, q, step))
  {
    PostsKept(p, q, step);
    ActLanes(p, q, step);
    Balanced(p, q, step, SpoiledArrivals(p.lanes.incoming));
    ArrivalsMove(p, q, step, SpoiledArrivals(p.lanes.incoming));
  }

  /** The message that lands decodes to what its task meant. */
  lemma DeliveryIntact(p: Peer, q: Peer)
    requires Enabled(p, q, Deliver) && RemoteToken(p, q, None)
    requires BuffersIntact(p) && BuffersIntact(q)
    ensures BuffersIntact(React(p, q, Deliver))
  {
    var e := p.card.wire[0];
    var incoming := React(p, q, Deliver).lanes.incoming;
    ReactLanes(p, q, Deliver);
    ReactionBalanced(p, q, Deliver, SpoiledPosts(q.lanes.outgoing));
    ReactionBalanced(p, q, Deliver, SpoiledArrivals(incoming));
    if e.WritePacket? {
      Outweighed(p.card.wire, SpoiledPosts(p.lanes.outgoing).packet, e);
      FreeToLand(p, q, e, incoming);
      LandCarries(e.intent, p.lanes.outgoing, q.lanes.incoming);
    }
  }

  lemma BuffersIntactKept(p: Peer, q: Peer, step: Step)
    requires Enabled(p, q, step) && NothingStranded(p.queue) && OneToken(p, q)
    requires BuffersIntact(p) && BuffersIntact(q)
    ensures BuffersIntact(Act(p, q, step)) && BuffersIntact(React(p, q, step))
  {
    assert LocalToken(p, None) && RemoteToken(p, q, None);
    ActorIntact(p, q, step);
    if step.Deliver? { DeliveryIntact(p, q); }
  }

  /** Whenever a handler parses the incoming buffer it decodes the fields its type uses, exactly as the
      sending task filled them. */
  lemma HandlerDecodes(p: Peer, intent: Task, round: nat)
    requires BuffersIntact(p) && p.queue.batch != [] && p.queue.batch[0] == RecvWrite(intent, round)
    ensures Carries(p.lanes.incoming, intent)
  {
    Outweighed(p.queue.batch, SpoiledArrivals(p.lanes.incoming).completion, p.queue.batch[0]);
  }
}
