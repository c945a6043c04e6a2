/** How a connection closes (src/rdma_message.cpp, src/rdma_endpoint.cpp).

    One peer, the closer, sends data and calls close once, when every request it made has been handled
    by the other peer; the other peer only receives. The whole system then follows a small handshake
    automaton, and the automaton says when each session may stop. */
module CloseHandshake {
  import opened Bags
  import opened Message
  import opened Protocol
  import opened System
  import opened CompletionLoop
  import opened Frames
  import opened Ledger
  import opened Lifecycle
  import opened Stages
  import opened Lifetimes
  import opened Reachable
  import opened Progress
  import opened Delivery

  // ----- the automaton -----

  /** Whether close was called, the two session statuses, whether the closer's table is empty, how many
      requests are unhandled, and how many messages of the close (CLOSE or CLOSE_ACK; CLOSE_TERMINATE)
      are on their way. */
  datatype Handshake = Handshake(called: bool, closer: SessionStatus, peer: SessionStatus, empty: bool,
                                 asks: nat, closes: nat, terms: nat)

  datatype CloserEvent = Ask | Call | AckHeard | OverHandled | CloserOther

  datatype PeerEvent = CloseHeard(hasPre: bool) | TerminateHeard | AskHandled | PeerOther

  function CloserNext(h: Handshake, e: CloserEvent, empty: bool): Handshake {
    match e
    case Ask => h.(asks := h.asks + 1)
    case Call => h.(called := true, closes := h.closes + 1)
    case AckHeard =>
      var closes := if h.closes > 0 then h.closes - 1 else 0;
      if h.empty then h.(closes := closes, closer := Closed, terms := h.terms + 1)
      else h.(closes := closes, closer := Closing)
    case OverHandled =>
      if h.closer == Closing && empty then h.(empty := empty, closer := Closed, terms := h.terms + 1)
      else h.(empty := empty)
    case CloserOther => h.(empty := empty)
  }

  function PeerNext(h: Handshake, e: PeerEvent): Handshake {
    match e
    case CloseHeard(hasPre) => h.(peer := if hasPre then h.peer else Closing)
    case TerminateHeard => h.(peer := Closed, terms := if h.terms > 0 then h.terms - 1 else 0)
    case AskHandled => h.(asks := if h.asks > 0 then h.asks - 1 else 0)
    case PeerOther => h
  }

  ghost predicate HandshakeOk(h: Handshake) {
    && h.closes + One(h.closer != Work) == One(h.called)
    && h.terms + One(h.peer == Closed) == One(h.closer == Closed)
    && (h.called ==> h.asks == 0)
    && (h.peer != Work ==> h.called)
    && (h.closer == Closing ==> !h.empty)
    && (h.closer == Closed ==> h.empty)
  }

  ghost predicate CloserMay(h: Handshake, e: CloserEvent, empty: bool) {
    match e
    case Ask => !h.called
    case Call => !h.called && h.asks == 0
    case AckHeard => h.closes > 0
    case OverHandled => h.empty ==> empty
    case CloserOther => h.asks == 0 ==> h.empty == empty
  }

  ghost predicate PeerMay(h: Handshake, e: PeerEvent) {
    match e
    case CloseHeard(_) => h.closes > 0
    case TerminateHeard => h.terms > 0
    case AskHandled => h.asks > 0
    case PeerOther => true
  }

  /** WORK, then CLOSING, then CLOSED. */
  predicate Forward(s: SessionStatus, t: SessionStatus) {
    s == t || s == Work || t == Closed
  }

  lemma CloserKeeps(h: Handshake, e: CloserEvent, empty: bool)
    requires HandshakeOk(h) && CloserMay(h, e, empty)
    ensures HandshakeOk(CloserNext(h, e, empty))
    ensures Forward(h.closer, CloserNext(h, e, empty).closer) && CloserNext(h, e, empty).peer == h.peer
  {
  }

  lemma PeerKeeps(h: Handshake, e: PeerEvent)
    requires HandshakeOk(h) && PeerMay(h, e)
    ensures HandshakeOk(PeerNext(h, e))
    ensures Forward(h.peer, PeerNext(h, e).peer) && PeerNext(h, e).closer == h.closer
  {
  }

  // ----- what is on its way -----

  predicate IsAsk(t: Task) { t.Request? || t.Sync? }

  predicate Says(e: Completion, imm: MessageType) { e.RecvSend? && e.imm == imm }

  predicate Sends(e: Packet, imm: MessageType) { e.SendPacket? && e.imm == imm }

  ghost function AskHere(): Weighting {
    Weightless.(pooled := (t: Task) => One(IsAsk(t)), awake := (t: Task) => One(IsAsk(t)),
                asleep := (t: Task) => One(IsAsk(t)), packet := (e: Packet) => One(e.WritePacket? && IsAsk(e.intent)))
  }

  ghost function AskThere(): Weighting {
    Weightless.(completion := (e: Completion) => One(e.RecvWrite? && IsAsk(e.intent)))
  }

  ghost function CloseHere(): Weighting {
    Weightless.(packet := (e: Packet) => One(Sends(e, Close)), completion := (e: Completion) => One(Says(e, CloseAck)))
  }

  ghost function CloseThere(): Weighting {
    Weightless.(packet := (e: Packet) => One(Sends(e, CloseAck)), completion := (e: Completion) => One(Says(e, Close)))
  }

  ghost function TermHere(): Weighting { Weightless.(packet := (e: Packet) => One(Sends(e, CloseTerminate))) }

  ghost function TermThere(): Weighting { Weightless.(completion := (e: Completion) => One(Says(e, CloseTerminate))) }

  /** Requests and barriers of `c` that `p` has not handled. */
  ghost function Asks(c: Peer, p: Peer): nat { Weight(c, AskHere()) + Weight(p, AskThere()) }

  ghost function Closes(c: Peer, p: Peer): nat { Weight(c, CloseHere()) + Weight(p, CloseThere()) }

  ghost function Terms(c: Peer, p: Peer): nat { Weight(c, TermHere()) + Weight(p, TermThere()) }

  /** What only a receiver does, on the closer ... */
  ghost function StrayHere(): Weighting {
    Weightless.(pooled := (t: Task) => One(t.Over?), awake := (t: Task) => One(t.Over?),
                asleep := (t: Task) => One(t.Over?),
                accept := (a: Accept) => 1, fetch := (e: Fetch) => 1,
                packet := (e: Packet) => One((e.WritePacket? && e.intent.Over?) || Sends(e, CloseAck)),
                completion := (e: Completion) =>
                  One((e.RecvWrite? && IsAsk(e.intent)) || e.ReadDone? || Says(e, Close) || Says(e, CloseTerminate)))
  }

  /** ... and what only a sender or a closer does, on its peer. */
  ghost function StrayThere(): Weighting {
    Weightless.(pooled := (t: Task) => One(IsAsk(t)), awake := (t: Task) => One(IsAsk(t)),
                asleep := (t: Task) => One(IsAsk(t)),
                packet := (e: Packet) =>
                  One((e.WritePacket? && IsAsk(e.intent)) || Sends(e, Close) || Sends(e, CloseTerminate)),
                completion := (e: Completion) => One((e.RecvWrite? && e.intent.Over?) || Says(e, CloseAck)))
  }

  ghost function Strays(c: Peer, p: Peer): nat { Weight(c, StrayHere()) + Weight(p, StrayThere()) }

  ghost function HandshakeWith(c: Peer, p: Peer, asks: nat, closes: nat, terms: nat): Handshake {
    Handshake(c.app.closeCalled, c.session.status, p.session.status, |c.store.table| == 0, asks, closes, terms)
  }

  ghost function HandshakeOf(c: Peer, p: Peer): Handshake {
    HandshakeWith(c, p, Asks(c, p), Closes(c, p), Terms(c, p))
  }

  // ----- the steps of the system as events -----

  ghost function CloserEventOf(c: Peer, step: Step): CloserEvent {
    match step
    case SendData(_) => Ask
    case SetSyncBarrier(_) => Ask
    case CloseEndpoint => Call
    case Handle =>
      if c.queue.batch == [] then CloserOther
      else if Says(c.queue.batch[0], CloseAck) then AckHeard
      else if c.queue.batch[0].RecvWrite? && c.queue.batch[0].intent.Over? then OverHandled
      else CloserOther
    case _ => CloserOther
  }

  ghost function PeerEventOf(p: Peer, step: Step): PeerEvent {
    if !step.Handle? || p.queue.batch == [] then PeerOther
    else
      var e := p.queue.batch[0];
      if Says(e, Close) then CloseHeard(p.session.hasPre)
      else if Says(e, CloseTerminate) then TerminateHeard
      else if e.RecvWrite? && IsAsk(e.intent) then AskHandled
      else PeerOther
  }

  ghost function EmptyAfter(c: Peer, p: Peer, step: Step): bool
    requires Enabled(c, p, step)
  {
    |StoreAfter(c, p, step).table| == 0
  }

  lemma CloserAsks(c: Peer, p: Peer, step: Step, v: Weighting, w: Weighting)
    requires Enabled(c, p, step) && v == AskHere() && w == AskThere()
    ensures Gain(c, p, step, v) + Arrives(c, p, step, w) == Loss(c, p, step, v) + One(CloserEventOf(c, step) == Ask)
  {
  }

  lemma PeerAsks(p: Peer, c: Peer, step: Step, v: Weighting, w: Weighting)
    requires Enabled(p, c, step) && v == AskThere() && w == AskHere()
    ensures Gain(p, c, step, v) + Arrives(p, c, step, w) + One(PeerEventOf(p, step) == AskHandled)
         == Loss(p, c, step, v)
  {
  }

  lemma CloserCloses(c: Peer, p: Peer, step: Step, v: Weighting, w: Weighting)
    requires Enabled(c, p, step) && v == CloseHere() && w == CloseThere()
    ensures Gain(c, p, step, v) + Arrives(c, p, step, w) + One(CloserEventOf(c, step) == AckHeard)
         == Loss(c, p, step, v) + One(step.CloseEndpoint?)
  {
  }

  lemma PeerCloses(p: Peer, c: Peer, step: Step, v: Weighting, w: Weighting)
    requires Enabled(p, c, step) && v == CloseThere() && w == CloseHere()
    ensures Gain(p, c, step, v) + Arrives(p, c, step, w) == Loss(p, c, step, v)
  {
  }

  lemma TermsHandled(c: Peer, e: Completion, v: Weighting)
    requires v == TermHere()
    ensures HandleGain(c, e, v) == One(Says(e, CloseAck) && |c.store.table| == 0)
                                   + One(e.RecvWrite? && e.intent.Over? && LastRelease(c))
  {
  }

  lemma TermsElsewhere(c: Peer, p: Peer, step: Step, v: Weighting)
    requires Enabled(c, p, step) && v == TermHere() && !step.Handle?
    ensures Gain(c, p, step, v) == 0
  {
  }

  lemma CloserTerms(c: Peer, p: Peer, step: Step, v: Weighting)
    requires Enabled(c, p, step) && v == TermHere()
    ensures Gain(c, p, step, v)
         == One(CloserEventOf(c, step) == AckHeard && |c.store.table| == 0)
            + One(CloserEventOf(c, step) == OverHandled && c.session.status == Closing && EmptyAfter(c, p, step))
  {
    if step.Handle? { TermsHandled(Taken(c), c.queue.batch[0], v); } else { TermsElsewhere(c, p, step, v); }
  }

  lemma TermsTravel(c: Peer, p: Peer, step: Step, v: Weighting, w: Weighting)
    requires Enabled(c, p, step) && v == TermHere() && w == TermThere()
    ensures Arrives(c, p, step, w) == Loss(c, p, step, v)
  {
  }

  lemma PeerTerms(p: Peer, c: Peer, step: Step, v: Weighting, w: Weighting)
    requires Enabled(p, c, step) && v == TermThere() && w == TermHere()
    ensures Gain(p, c, step, v) + Arrives(p, c, step, w) + One(PeerEventOf(p, step) == TerminateHeard)
         == Loss(p, c, step, v)
  {
  }

  lemma CloserStraysAttached(c: Peer, intent: Task, round: nat, v: Weighting)
    requires v == StrayHere()
    ensures AttachedGain(c, intent, round, v) <= One(IsAsk(intent))
  {
  }

  lemma CloserStraysHandled(c: Peer, e: Completion, v: Weighting)
    requires v == StrayHere()
    ensures HandleGain(c, e, v) <= v.completion(e)
  {
    if e.RecvWrite? { CloserStraysAttached(c, e.intent, e.round, v); }
  }

  lemma CloserStraysElsewhere(c: Peer, p: Peer, step: Step, v: Weighting, w: Weighting)
    requires Enabled(c, p, step) && v == StrayHere() && w == StrayThere() && !step.Handle?
    ensures Gain(c, p, step, v) + Arrives(c, p, step, w) <= Loss(c, p, step, v)
  {
  }

  lemma CloserStrays(c: Peer, p: Peer, step: Step, v: Weighting, w: Weighting)
    requires Enabled(c, p, step) && v == StrayHere() && w == StrayThere()
    ensures Gain(c, p, step, v) + Arrives(c, p, step, w) <= Loss(c, p, step, v)
  {
    if step.Handle? { CloserStraysHandled(Taken(c), c.queue.batch[0], v); }
    else { CloserStraysElsewhere(c, p, step, v, w); }
  }

  lemma PeerStraysAttached(p: Peer, intent: Task, round: nat, v: Weighting)
    requires v == StrayThere()
    ensures AttachedGain(p, intent, round, v) <= One(intent.Over?)
  {
  }

  lemma PeerStraysHandled(p: Peer, e: Completion, v: Weighting)
    requires v == StrayThere()
    ensures HandleGain(p, e, v) <= v.completion(e)
  {
    if e.RecvWrite? { PeerStraysAttached(p, e.intent, e.round, v); }
  }

  lemma PeerStraysElsewhere(p: Peer, c: Peer, step: Step, v: Weighting, w: Weighting)
    requires Enabled(p, c, step) && v == StrayThere() && w == StrayHere() && !step.Handle?
    requires !step.SendData? && !step.SetSyncBarrier? && !step.CloseEndpoint?
    ensures Gain(p, c, step, v) + Arrives(p, c, step, w) <= Loss(p, c, step, v)
  {
  }

  lemma PeerStrays(p: Peer, c: Peer, step: Step, v: Weighting, w: Weighting)
    requires Enabled(p, c, step) && v == StrayThere() && w == StrayHere()
    requires !step.SendData? && !step.SetSyncBarrier? && !step.CloseEndpoint?
    ensures Gain(p, c, step, v) + Arrives(p, c, step, w) <= Loss(p, c, step, v)
  {
    if step.Handle? { PeerStraysHandled(Taken(p), p.queue.batch[0], v); }
    else { PeerStraysElsewhere(p, c, step, v, w); }
  }

  // ----- the system follows the automaton -----

  ghost predicate Quiet(c: Peer, p: Peer) { Strays(c, p) == 0 }

  lemma QuietKept(c: Peer, p: Peer, step: Step)
    requires Enabled(c, p, step) && NothingStranded(c.queue) && Quiet(c, p)
    ensures Quiet(Act(c, p, step), React(c, p, step))
  {
    Balanced(c, p, step, StrayHere());
    ReactionBalanced(c, p, step, StrayThere());
    CloserStrays(c, p, step, StrayHere(), StrayThere());
  }

  lemma PeerQuietKept(p: Peer, c: Peer, step: Step)
    requires Enabled(p, c, step) && NothingStranded(p.queue) && Quiet(c, p)
    requires !step.SendData? && !step.SetSyncBarrier? && !step.CloseEndpoint?
    ensures Quiet(React(p, c, step), Act(p, c, step))
  {
    Balanced(p, c, step, StrayThere());
    ReactionBalanced(p, c, step, StrayHere());
    PeerStrays(p, c, step, StrayThere(), StrayHere());
  }

  /** What the closer never has to handle. */
  lemma CloserSpared(c: Peer, p: Peer)
    requires Quiet(c, p)
    ensures c.pools.accepts == []
    ensures c.queue.batch != [] ==>
              var e := c.queue.batch[0];
              !(e.RecvWrite? && IsAsk(e.intent)) && !e.ReadDone? && !Says(e, Close) && !Says(e, CloseTerminate)
  {
    HeadWeighs(c.queue.batch, StrayHere().completion);
    HeadWeighs(c.pools.accepts, StrayHere().accept);
  }

  lemma PeerSpared(c: Peer, p: Peer)
    requires Quiet(c, p)
    ensures p.queue.batch != [] ==>
              var e := p.queue.batch[0]; !(e.RecvWrite? && e.intent.Over?) && !Says(e, CloseAck)
  {
    HeadWeighs(p.queue.batch, StrayThere().completion);
  }

  ghost predicate Asking(c: Peer, step: Step) {
    step.CheckTask? && step.k < |c.pools.awake| && IsAsk(c.pools.awake[step.k])
  }

  /** The closer's table changes only when it announces a transfer or releases one. */
  lemma TableUntouched(c: Peer, p: Peer, step: Step)
    requires Enabled(c, p, step) && Quiet(c, p)
    ensures CloserEventOf(c, step) != OverHandled && !Asking(c, step) ==> StoreAfter(c, p, step).table == c.store.table
  {
    CloserSpared(c, p);
  }

  lemma AskingCounts(c: Peer, p: Peer, step: Step)
    requires Enabled(c, p, step) && Asking(c, step)
    ensures Asks(c, p) > 0
  {
    Outweighed(c.pools.awake, AskHere().awake, c.pools.awake[step.k]);
  }

  lemma OverEmpties(c: Peer, p: Peer, step: Step)
    requires Enabled(c, p, step) && CloserEventOf(c, step) == OverHandled
    ensures |c.store.table| == 0 ==> EmptyAfter(c, p, step)
  {
  }

  lemma AckCounts(c: Peer, p: Peer, step: Step)
    requires CloserEventOf(c, step) == AckHeard
    ensures Closes(c, p) > 0
  {
    Outweighed(c.queue.batch, CloseHere().completion, c.queue.batch[0]);
  }

  lemma CloserSession(c: Peer, p: Peer, step: Step)
    requires Enabled(c, p, step) && Quiet(c, p)
    ensures SessionAfter(c, p, step).status
         == match CloserEventOf(c, step)
            case AckHeard => if |c.store.table| == 0 then Closed else Closing
            case OverHandled =>
              if c.session.status == Closing && EmptyAfter(c, p, step) then Closed else c.session.status
            case _ => c.session.status
    ensures AppAfter(c, p, step).closeCalled == (c.app.closeCalled || step.CloseEndpoint?)
  {
    CloserSpared(c, p);
  }

  lemma CloserFields(c: Peer, p: Peer, step: Step)
    requires Enabled(c, p, step) && Quiet(c, p)
    ensures Act(c, p, step).session.status == SessionAfter(c, p, step).status
    ensures Act(c, p, step).store.table == StoreAfter(c, p, step).table
    ensures Act(c, p, step).app.closeCalled == (c.app.closeCalled || step.CloseEndpoint?)
    ensures React(c, p, step).session == p.session
  {
    ActSession(c, p, step);
    ActStore(c, p, step);
    ActCounts(c, p, step);
    ReactRest(c, p, step);
    CloserSession(c, p, step);
  }

  lemma CloserWith(c: Peer, p: Peer, step: Step, h: Handshake, asks: nat, closes: nat, terms: nat)
    requires Enabled(c, p, step) && Quiet(c, p)
    requires h == HandshakeWith(c, p, h.asks, h.closes, h.terms)
    requires asks == h.asks + One(CloserEventOf(c, step) == Ask)
    requires closes + One(CloserEventOf(c, step) == AckHeard) == h.closes + One(step.CloseEndpoint?)
    requires terms == h.terms + One(CloserEventOf(c, step) == AckHeard && |c.store.table| == 0)
                      + One(CloserEventOf(c, step) == OverHandled && c.session.status == Closing
                            && EmptyAfter(c, p, step))
    requires CloserEventOf(c, step) !in {OverHandled, CloserOther} ==> EmptyAfter(c, p, step) == h.empty
    ensures HandshakeWith(Act(c, p, step), React(c, p, step), asks, closes, terms)
         == CloserNext(h, CloserEventOf(c, step), EmptyAfter(c, p, step))
  {
    CloserFields(c, p, step);
    CloserSession(c, p, step);
  }

  lemma CloserFlows(c: Peer, p: Peer, step: Step)
    requires Enabled(c, p, step) && NothingStranded(c.queue)
    ensures Asks(Act(c, p, step), React(c, p, step)) == Asks(c, p) + One(CloserEventOf(c, step) == Ask)
    ensures Closes(Act(c, p, step), React(c, p, step)) + One(CloserEventOf(c, step) == AckHeard)
         == Closes(c, p) + One(step.CloseEndpoint?)
  {
    Balanced(c, p, step, AskHere());
    ReactionBalanced(c, p, step, AskThere());
    CloserAsks(c, p, step, AskHere(), AskThere());
    Balanced(c, p, step, CloseHere());
    ReactionBalanced(c, p, step, CloseThere());
    CloserCloses(c, p, step, CloseHere(), CloseThere());
  }

  lemma CloserTerminates(c: Peer, p: Peer, step: Step)
    requires Enabled(c, p, step) && NothingStranded(c.queue)
    ensures Terms(Act(c, p, step), React(c, p, step))
         == Terms(c, p) + One(CloserEventOf(c, step) == AckHeard && |c.store.table| == 0)
            + One(CloserEventOf(c, step) == OverHandled && c.session.status == Closing && EmptyAfter(c, p, step))
  {
    Balanced(c, p, step, TermHere());
    ReactionBalanced(c, p, step, TermThere());
    CloserTerms(c, p, step, TermHere());
    TermsTravel(c, p, step, TermHere(), TermThere());
  }

  /** Every step of the closer is a step of the automaton. */
  lemma CloserFollows(c: Peer, p: Peer, step: Step)
    requires Enabled(c, p, step) && NothingStranded(c.queue) && Quiet(c, p)
    ensures HandshakeOf(Act(c, p, step), React(c, p, step))
         == CloserNext(HandshakeOf(c, p), CloserEventOf(c, step), EmptyAfter(c, p, step))
  {
    CloserFlows(c, p, step);
    CloserTerminates(c, p, step);
    TableUntouched(c, p, step);
    CloserWith(c, p, step, HandshakeOf(c, p), Asks(Act(c, p, step), React(c, p, step)),
               Closes(Act(c, p, step), React(c, p, step)), Terms(Act(c, p, step), React(c, p, step)));
  }

  lemma CloserPermitted(c: Peer, p: Peer, step: Step)
    requires Enabled(c, p, step) && Quiet(c, p)
    requires step.CloseEndpoint? ==> !c.app.closeCalled && Asks(c, p) == 0
    requires step.SendData? || step.SetSyncBarrier? ==> !c.app.closeCalled
    ensures CloserMay(HandshakeOf(c, p), CloserEventOf(c, step), EmptyAfter(c, p, step))
  {
    match CloserEventOf(c, step)
    case AckHeard => AckCounts(c, p, step);
    case OverHandled => OverEmpties(c, p, step);
    case CloserOther =>
      TableUntouched(c, p, step);
      if Asking(c, step) { AskingCounts(c, p, step); }
    case _ =>
  }

  lemma PeerFlows(p: Peer, c: Peer, step: Step)
    requires Enabled(p, c, step) && NothingStranded(p.queue)
    ensures Asks(React(p, c, step), Act(p, c, step)) + One(PeerEventOf(p, step) == AskHandled) == Asks(c, p)
    ensures Closes(React(p, c, step), Act(p, c, step)) == Closes(c, p)
  {
    Balanced(p, c, step, AskThere());
    ReactionBalanced(p, c, step, AskHere());
    PeerAsks(p, c, step, AskThere(), AskHere());
    Balanced(p, c, step, CloseThere());
    ReactionBalanced(p, c, step, CloseHere());
    PeerCloses(p, c, step, CloseThere(), CloseHere());
  }

  lemma PeerTerminates(p: Peer, c: Peer, step: Step)
    requires Enabled(p, c, step) && NothingStranded(p.queue)
    ensures Terms(React(p, c, step), Act(p, c, step)) + One(PeerEventOf(p, step) == TerminateHeard) == Terms(c, p)
  {
    Balanced(p, c, step, TermThere());
    ReactionBalanced(p, c, step, TermHere());
    PeerTerms(p, c, step, TermThere(), TermHere());
  }

  lemma PeerSession(p: Peer, c: Peer, step: Step)
    requires Enabled(p, c, step) && Quiet(c, p)
    ensures SessionAfter(p, c, step).status
         == match PeerEventOf(p, step)
            case CloseHeard(hasPre) => if hasPre then p.session.status else Closing
            case TerminateHeard => Closed
            case _ => p.session.status
  {
    PeerSpared(c, p);
  }

  lemma PeerWith(p: Peer, c: Peer, step: Step, h: Handshake, asks: nat, closes: nat, terms: nat)
    requires Enabled(p, c, step) && Quiet(c, p)
    requires h == HandshakeWith(c, p, h.asks, h.closes, h.terms)
    requires asks + One(PeerEventOf(p, step) == AskHandled) == h.asks
    requires closes == h.closes
    requires terms + One(PeerEventOf(p, step) == TerminateHeard) == h.terms
    ensures HandshakeWith(React(p, c, step), Act(p, c, step), asks, closes, terms) == PeerNext(h, PeerEventOf(p, step))
  {
    ActSession(p, c, step);
    ReactStore(p, c, step);
    ReactRest(p, c, step);
    PeerSession(p, c, step);
  }

  /** Every step of the other peer is a step of the automaton. */
  lemma PeerFollows(p: Peer, c: Peer, step: Step)
    requires Enabled(p, c, step) && NothingStranded(p.queue) && Quiet(c, p)
    ensures HandshakeOf(React(p, c, step), Act(p, c, step)) == PeerNext(HandshakeOf(c, p), PeerEventOf(p, step))
  {
    PeerFlows(p, c, step);
    PeerTerminates(p, c, step);
    PeerWith(p, c, step, HandshakeOf(c, p), Asks(React(p, c, step), Act(p, c, step)),
             Closes(React(p, c, step), Act(p, c, step)), Terms(React(p, c, step), Act(p, c, step)));
  }

  lemma PeerPermitted(p: Peer, c: Peer, step: Step)
    ensures PeerMay(HandshakeOf(c, p), PeerEventOf(p, step))
  {
    match PeerEventOf(p, step)
    case CloseHeard(_) => Outweighed(p.queue.batch, CloseThere().completion, p.queue.batch[0]);
    case TerminateHeard => Outweighed(p.queue.batch, TermThere().completion, p.queue.batch[0]);
    case AskHandled => Outweighed(p.queue.batch, AskThere().completion, p.queue.batch[0]);
    case PeerOther =>
  }

  // ----- nothing is dropped -----

  ghost predicate Lossless(log: Log) { log.dropped == [] && log.lost == [] }

  lemma CloserLossless(c: Peer, p: Peer, step: Step)
    requires Enabled(c, p, step) && Quiet(c, p) && Lossless(c.log)
    ensures Lossless(LogAfter(c, p, step))
  {
    CloserSpared(c, p);
  }

  /** A request the peer handles meets a session that still works. */
  lemma PeerLossless(p: Peer, c: Peer, step: Step)
    requires Enabled(p, c, step) && Quiet(c, p) && Lossless(p.log) && HandshakeOk(HandshakeOf(c, p))
    ensures Lossless(LogAfter(p, c, step))
  {
    PeerPermitted(p, c, step);
  }

  // ----- whole runs -----

  predicate OnlyReceives(step: Step) { !step.SendData? && !step.SetSyncBarrier? && !step.CloseEndpoint? }

  /** The left peer closes, once, when all it asked for was handled, and asks for nothing more. The right
      peer only receives. */
  ghost const OneCloser: Rule := (s: Pair, a: Action) =>
    match a.step
    case SendData(_) => a.side == Left && !s.left.app.closeCalled
    case SetSyncBarrier(_) => a.side == Left && !s.left.app.closeCalled
    case CloseEndpoint => a.side == Left && !s.left.app.closeCalled && Asks(s.left, s.right) == 0
    case _ => true

  ghost predicate OrderlyPeers(c: Peer, p: Peer) {
    Quiet(c, p) && Lossless(c.log) && Lossless(p.log) && HandshakeOk(HandshakeOf(c, p))
  }

  ghost predicate Orderly(s: Pair) { OrderlyPeers(s.left, s.right) }

  ghost predicate InClose(s: Pair) { Good(s) && Orderly(s) }

  lemma CloserStaysLossless(c: Peer, p: Peer, step: Step)
    requires Enabled(c, p, step) && Quiet(c, p) && Lossless(c.log) && Lossless(p.log)
    ensures Lossless(Act(c, p, step).log) && Lossless(React(c, p, step).log)
  {
    CloserLossless(c, p, step);
    ActLog(c, p, step);
    ReactLog(c, p, step);
  }

  lemma CloserHandshake(c: Peer, p: Peer, step: Step)
    requires Enabled(c, p, step) && NothingStranded(c.queue) && Quiet(c, p) && HandshakeOk(HandshakeOf(c, p))
    requires step.CloseEndpoint? ==> !c.app.closeCalled && Asks(c, p) == 0
    requires step.SendData? || step.SetSyncBarrier? ==> !c.app.closeCalled
    ensures HandshakeOk(HandshakeOf(Act(c, p, step), React(c, p, step)))
    ensures Forward(c.session.status, Act(c, p, step).session.status)
  {
    CloserFollows(c, p, step);
    CloserPermitted(c, p, step);
    CloserKeeps(HandshakeOf(c, p), CloserEventOf(c, step), EmptyAfter(c, p, step));
  }

  lemma CloserOrderly(c: Peer, p: Peer, step: Step)
    requires Enabled(c, p, step) && NothingStranded(c.queue) && OrderlyPeers(c, p)
    requires step.CloseEndpoint? ==> !c.app.closeCalled && Asks(c, p) == 0
    requires step.SendData? || step.SetSyncBarrier? ==> !c.app.closeCalled
    ensures OrderlyPeers(Act(c, p, step), React(c, p, step))
    ensures Forward(c.session.status, Act(c, p, step).session.status)
  {
    QuietKept(c, p, step);
    CloserStaysLossless(c, p, step);
    CloserHandshake(c, p, step);
  }

  lemma CloserStep(s: Pair, step: Step)
    requires InClose(s) && s.CanDo(Action(Left, step)) && OneCloser(s, Action(Left, step))
    ensures Orderly(s.Do(Action(Left, step)))
    ensures Forward(s.left.session.status, s.Do(Action(Left, step)).left.session.status)
  {
    CloserOrderly(s.left, s.right, step);
  }

  lemma PeerStep(s: Pair, step: Step)
    requires InClose(s) && s.CanDo(Action(Right, step)) && OneCloser(s, Action(Right, step))
    ensures Orderly(s.Do(Action(Right, step)))
    ensures Forward(s.right.session.status, s.Do(Action(Right, step)).right.session.status)
  {
    var (p, c) := (s.right, s.left);
    PeerQuietKept(p, c, step);
    PeerLossless(p, c, step);
    ActLog(p, c, step);
    ReactLog(p, c, step);
    PeerFollows(p, c, step);
    PeerPermitted(p, c, step);
    PeerKeeps(HandshakeOf(c, p), PeerEventOf(p, step));
  }

  lemma StepKeepsClose(s: Pair, a: Action)
    requires InClose(s) && s.CanDo(a) && OneCloser(s, a)
    ensures InClose(s.Do(a))
    ensures Forward(s.left.session.status, s.Do(a).left.session.status)
    ensures Forward(s.right.session.status, s.Do(a).right.session.status)
  {
    StepIsGood(s, a);
    if a.side == Left {
      CloserStep(s, a.step);
      ReactRest(s.left, s.right, a.step);
    } else {
      PeerStep(s, a.step);
      ReactRest(s.right, s.left, a.step);
    }
  }

  lemma NothingAtStart(c: Peer, p: Peer)
    requires Nothing(c) && Nothing(p)
    ensures Strays(c, p) == 0 && Asks(c, p) == 0 && Closes(c, p) == 0 && Terms(c, p) == 0
  {
  }

  lemma FirstHandshake(c: Peer, p: Peer)
    requires Initial(c) && Initial(p)
    ensures HandshakeWith(c, p, 0, 0, 0) == Handshake(false, Work, Work, true, 0, 0, 0)
    ensures Lossless(c.log) && Lossless(p.log)
  {
  }

  lemma FirstIsOrderly(c: Peer, p: Peer)
    requires Nothing(c) && Nothing(p) && Lossless(c.log) && Lossless(p.log)
    requires HandshakeWith(c, p, 0, 0, 0) == Handshake(false, Work, Work, true, 0, 0, 0)
    ensures OrderlyPeers(c, p) && c.session.status == Work && !c.app.closeCalled
  {
    NothingAtStart(c, p);
  }

  lemma StartIsOrderly(s: Pair)
    requires Start(s)
    ensures Orderly(s) && s.left.session.status == Work && !s.left.app.closeCalled
  {
    StartsWithNothing(s.left);
    StartsWithNothing(s.right);
    FirstHandshake(s.left, s.right);
    FirstIsOrderly(s.left, s.right);
  }

  lemma StartInClose(s: Pair)
    requires Start(s)
    ensures InClose(s) && s.left.session.status == Work
  {
    StartIsGood(s);
    StartIsOrderly(s);
  }

  lemma {:induction false} CloseGoesOn(s: Pair, trace: seq<Action>, t: Pair)
    requires InClose(s) && Leads(OneCloser, s, trace, t)
    ensures InClose(t)
    decreases |trace|
  {
    if trace != [] {
      StepKeepsClose(s, trace[0]);
      CloseGoesOn(s.Do(trace[0]), trace[1..], t);
    }
  }

  lemma CloseRuns(s: Pair, trace: seq<Action>, t: Pair)
    requires Start(s) && Leads(OneCloser, s, trace, t)
    ensures InClose(t)
  {
    StartInClose(s);
    CloseGoesOn(s, trace, t);
  }

  // ----- close safety -----

  /** With the closer's table empty, none of its transfers is under way. */
  lemma Gone(c: Peer, p: Peer, s: Stage, x: Transfer)
    requires Inv(c, p) && c.store.table == map[] && InFlight(s) && s != Queued
    ensures Found(c, p, s, x) == 0
  {
    if Found(c, p, s, x) > 0 { InFlightAlive(c, p, s, x); }
  }

  lemma NotQueued(c: Peer, p: Peer, x: Transfer)
    requires Asks(c, p) == 0
    ensures Found(c, p, Queued, x) == 0
  {
    NotQueuedHere(c, x, SenderGauge(OnStage(Queued, Is(x))), AskHere());
    NotQueuedThere(p, x, ReceiverGauge(OnStage(Queued, Is(x))), AskThere());
  }

  lemma NotQueuedHere(c: Peer, x: Transfer, v: Weighting, w: Weighting)
    requires v == SenderGauge(OnStage(Queued, Is(x))) && w == AskHere()
    ensures Weight(c, v) <= Weight(c, w)
  {
    WeightMonotone(c, v, w);
  }

  lemma NotQueuedThere(p: Peer, x: Transfer, v: Weighting, w: Weighting)
    requires v == ReceiverGauge(OnStage(Queued, Is(x))) && w == AskThere()
    ensures Weight(p, v) <= Weight(p, w)
  {
    WeightMonotone(p, v, w);
  }

  lemma NotUnderWay(c: Peer, p: Peer, x: Transfer, s: Stage)
    requires Inv(c, p) && c.store.table == map[] && Asks(c, p) == 0 && InFlight(s)
    ensures Found(c, p, s, x) == 0
  {
    if s == Queued { NotQueued(c, p, x); } else { Gone(c, p, s, x); }
  }

  lemma SomeStage(c: Peer, p: Peer, x: Transfer)
    requires Conserved(c, p) && Numbered(c.log) && x in c.log.issued
    ensures Found(c, p, StageOf(c, p, x), x) == 1
  {
    ExactlyOneStage(c, p, x);
  }

  lemma LostStage(c: Peer, p: Peer, x: Transfer)
    ensures StageOf(c, p, x) == Dropped ==> x in p.log.lost
  {
  }

  lemma AllFreed(c: Peer, p: Peer, x: Transfer)
    requires Inv(c, p) && c.store.table == map[] && Asks(c, p) == 0 && p.log.lost == [] && x in c.log.issued
    ensures StageOf(c, p, x) == Freed
  {
    SomeStage(c, p, x);
    LostStage(c, p, x);
    if InFlight(StageOf(c, p, x)) { NotUnderWay(c, p, x, StageOf(c, p, x)); }
  }

  lemma AcceptFound(c: Peer, p: Peer, a: Accept)
    ensures a in p.pools.accepts ==> Found(c, p, Accepted, a.x) > 0
  {
    if a in p.pools.accepts { Outweighed(p.pools.accepts, ReceiverGauge(OnStage(Accepted, Is(a.x))).accept, a); }
  }

  lemma FetchFound(c: Peer, p: Peer, e: Fetch)
    ensures e in p.card.fetches ==> Found(c, p, Reading, e.x) > 0
  {
    if e in p.card.fetches { PostedReadFound(p, c, e); }
  }

  lemma ReadFound(c: Peer, p: Peer, e: Completion)
    requires e.ReadDone?
    ensures e in p.queue.batch || e in p.queue.cq ==> Found(c, p, Stage.Fetched, e.x) > 0
  {
    var w := ReceiverGauge(OnStage(Stage.Fetched, Is(e.x))).completion;
    if e in p.queue.batch { Outweighed(p.queue.batch, w, e); } else if e in p.queue.cq { Outweighed(p.queue.cq, w, e); }
  }

  lemma ReturnFound(c: Peer, p: Peer, t: Task)
    requires t.Over?
    ensures t in p.pools.pool || t in p.pools.awake || t in p.pools.asleep ==> Found(c, p, Returning, t.x) > 0
  {
    var w := TaskGauge(OnStage(Returning, Is(t.x)), false);
    if t in p.pools.pool { Outweighed(p.pools.pool, w, t); }
    else if t in p.pools.awake { Outweighed(p.pools.awake, w, t); }
    else if t in p.pools.asleep { Outweighed(p.pools.asleep, w, t); }
  }

  lemma PostFound(c: Peer, p: Peer, e: Packet)
    requires e.WritePacket? && e.intent.Over?
    ensures e in p.card.wire ==> Found(c, p, Releasing, e.intent.x) > 0
  {
    if e in p.card.wire { Outweighed(p.card.wire, ReceiverGauge(OnStage(Releasing, Is(e.intent.x))).packet, e); }
  }

  lemma OverFound(c: Peer, p: Peer, e: Completion)
    requires e.RecvWrite? && e.intent.Over?
    ensures e in c.queue.batch || e in c.queue.cq ==> Found(c, p, Releasing, e.intent.x) > 0
  {
    var w := SenderGauge(OnStage(Releasing, Is(e.intent.x))).completion;
    if e in c.queue.batch { Outweighed(c.queue.batch, w, e); } else if e in c.queue.cq { Outweighed(c.queue.cq, w, e); }
  }

  lemma NoReadsLeft(c: Peer, p: Peer)
    requires Inv(c, p) && c.store.table == map[]
    ensures p.pools.accepts == [] && p.card.fetches == []
  {
    forall a ensures a !in p.pools.accepts {
      AcceptFound(c, p, a);
      Gone(c, p, Accepted, a.x);
    }
    forall e ensures e !in p.card.fetches {
      FetchFound(c, p, e);
      Gone(c, p, Reading, e.x);
    }
    HeadBelongs(p.pools.accepts);
    HeadBelongs(p.card.fetches);
  }

  lemma NoCompletionsLeft(c: Peer, p: Peer)
    requires Inv(c, p) && c.store.table == map[]
    ensures forall e :: e in p.queue.batch || e in p.queue.cq ==> !e.ReadDone?
    ensures forall e :: e in c.queue.batch || e in c.queue.cq ==> !(e.RecvWrite? && e.intent.Over?)
  {
    forall e: Completion | e.ReadDone? ensures e !in p.queue.batch && e !in p.queue.cq {
      ReadFound(c, p, e);
      Gone(c, p, Stage.Fetched, e.x);
    }
    forall e: Completion | e.RecvWrite? && e.intent.Over? ensures e !in c.queue.batch && e !in c.queue.cq {
      OverFound(c, p, e);
      Gone(c, p, Releasing, e.intent.x);
    }
  }

  lemma NoReleasesLeft(c: Peer, p: Peer)
    requires Inv(c, p) && c.store.table == map[]
    ensures forall t :: t in p.pools.pool || t in p.pools.awake || t in p.pools.asleep ==> !t.Over?
    ensures forall e :: e in p.card.wire ==> !(e.WritePacket? && e.intent.Over?)
  {
    forall t: Task | t.Over? ensures t !in p.pools.pool && t !in p.pools.awake && t !in p.pools.asleep {
      ReturnFound(c, p, t);
      Gone(c, p, Returning, t.x);
    }
    forall e: Packet | e.WritePacket? && e.intent.Over? ensures e !in p.card.wire {
      PostFound(c, p, e);
      Gone(c, p, Releasing, e.intent.x);
    }
  }

  /** No transfer of `c` is being read or released by `p`, or on its way between them. */
  ghost predicate NothingUnderWay(c: Peer, p: Peer) {
    && p.pools.accepts == [] && p.card.fetches == []
    && (forall e :: e in p.queue.batch || e in p.queue.cq ==> !e.ReadDone?)
    && (forall t :: t in p.pools.pool || t in p.pools.awake || t in p.pools.asleep ==> !t.Over?)
    && (forall e :: e in p.card.wire ==> !(e.WritePacket? && e.intent.Over?))
    && (forall e :: e in c.queue.batch || e in c.queue.cq ==> !(e.RecvWrite? && e.intent.Over?))
  }

  /** Close safety. No request ever reaches the branches that drop it. The other peer is CLOSED only after
      the closer is; and when the closer is, its table is empty, nothing of its data is under way any
      more, and everything it sent was read by the peer, byte for byte, and released. */
  lemma ClosedMeansDone(s: Pair, trace: seq<Action>, t: Pair)
    requires Start(s) && Leads(OneCloser, s, trace, t)
    ensures t.left.log.dropped == [] && t.right.log.dropped == [] && t.right.log.lost == []
    ensures t.right.session.status == Closed ==> t.left.session.status == Closed
    ensures t.left.session.status == Closed ==> t.left.store.table == map[] && NothingUnderWay(t.left, t.right)
    ensures t.left.session.status == Closed ==>
              forall x :: x in t.left.log.issued ==> x in t.left.log.freed && x.data in t.right.log.received
  {
    CloseRuns(s, trace, t);
    if t.left.session.status == Closed {
      NoReadsLeft(t.left, t.right);
      NoCompletionsLeft(t.left, t.right);
      NoReleasesLeft(t.left, t.right);
      forall x | x in t.left.log.issued ensures x in t.left.log.freed && x.data in t.right.log.received {
        AllFreed(t.left, t.right, x);
        FreedWasReceived(t.left, t.right, x);
      }
    }
  }

  lemma FreedWasReceived(c: Peer, p: Peer, x: Transfer)
    requires Inv(c, p) && x in c.log.issued && StageOf(c, p, x) == Freed
    ensures x in c.log.freed && x in p.log.read && x.data in p.log.received
  {
    InItsStage(c, p, x);
    assert x in LogOf(c, p, Freed) <==> Passed(Freed, Freed);
    assert x in LogOf(c, p, Returning) <==> Passed(Returning, Freed);
    var i :| 0 <= i < |p.log.read| && p.log.read[i] == x;
    assert p.log.received[i] == x.data;
  }

  // ----- exactly one CLOSE_TERMINATE -----

  /** CLOSE_TERMINATE messages posted along a run, by either peer. */
  ghost function Terminates(s: Pair, trace: seq<Action>): nat
    decreases |trace|
  {
    if trace == [] || !s.CanDo(trace[0]) then 0
    else
      (if trace[0].side == Left then Gain(s.left, s.right, trace[0].step, TermHere())
       else Gain(s.right, s.left, trace[0].step, TermHere()))
      + Terminates(s.Do(trace[0]), trace[1..])
  }

  lemma TermsTell(h: Handshake, h': Handshake, n: nat)
    requires HandshakeOk(h) && HandshakeOk(h') && h'.peer == h.peer && h'.terms == h.terms + n
    ensures n + One(h.closer == Closed) == One(h'.closer == Closed)
  {
  }

  lemma TerminatesNowCount(c: Peer, p: Peer, step: Step)
    requires Enabled(c, p, step) && NothingStranded(c.queue)
    ensures Terms(Act(c, p, step), React(c, p, step)) == Terms(c, p) + Gain(c, p, step, TermHere())
  {
    CloserTerms(c, p, step, TermHere());
    CloserTerminates(c, p, step);
  }

  lemma CloserTerminatesOnce(s: Pair, step: Step)
    requires InClose(s) && s.CanDo(Action(Left, step)) && OneCloser(s, Action(Left, step))
    ensures Gain(s.left, s.right, step, TermHere()) + One(s.left.session.status == Closed)
         == One(s.Do(Action(Left, step)).left.session.status == Closed)
  {
    TerminatesNowCount(s.left, s.right, step);
    CloserStep(s, step);
    ReactRest(s.left, s.right, step);
    TermsTell(HandshakeOf(s.left, s.right), HandshakeOf(Act(s.left, s.right, step), React(s.left, s.right, step)),
              Gain(s.left, s.right, step, TermHere()));
  }

  lemma PeerNeverTerminates(s: Pair, step: Step)
    requires InClose(s) && s.CanDo(Action(Right, step))
    ensures Gain(s.right, s.left, step, TermHere()) == 0
  {
    PeerSpared(s.left, s.right);
    if step.Handle? { TermsHandled(Taken(s.right), s.right.queue.batch[0], TermHere()); }
    else { TermsElsewhere(s.right, s.left, step, TermHere()); }
  }

  lemma TerminatesStep(s: Pair, a: Action)
    requires InClose(s) && s.CanDo(a) && OneCloser(s, a)
    ensures (if a.side == Left then Gain(s.left, s.right, a.step, TermHere())
             else Gain(s.right, s.left, a.step, TermHere()))
            + One(s.left.session.status == Closed)
         == One(s.Do(a).left.session.status == Closed)
  {
    if a.side == Left { CloserTerminatesOnce(s, a.step); }
    else {
      PeerNeverTerminates(s, a.step);
      ReactRest(s.right, s.left, a.step);
    }
  }

  lemma {:induction false} TerminatesCount(s: Pair, trace: seq<Action>, t: Pair)
    requires InClose(s) && Leads(OneCloser, s, trace, t)
    ensures Terminates(s, trace) + One(s.left.session.status == Closed) == One(t.left.session.status == Closed)
    decreases |trace|
  {
    if trace != [] {
      TerminatesStep(s, trace[0]);
      StepKeepsClose(s, trace[0]);
      TerminatesCount(s.Do(trace[0]), trace[1..], t);
    }
  }

  lemma TerminatesFromWork(s: Pair, trace: seq<Action>, t: Pair)
    requires InClose(s) && s.left.session.status == Work && Leads(OneCloser, s, trace, t)
    ensures Terminates(s, trace) == One(t.left.session.status == Closed)
  {
    TerminatesCount(s, trace, t);
  }

  /** CLOSE_TERMINATE is sent once, with the step that closes the closer, whichever of CLOSE_ACK and the
      last READ_OVER comes first. */
  lemma OneTerminate(s: Pair, trace: seq<Action>, t: Pair)
    requires Start(s) && Leads(OneCloser, s, trace, t)
    ensures Terminates(s, trace) == One(t.left.session.status == Closed)
  {
    StartInClose(s);
    TerminatesFromWork(s, trace, t);
  }

  lemma {:induction false} StatusMovesForward(s: Pair, trace: seq<Action>, t: Pair)
    requires InClose(s) && Leads(OneCloser, s, trace, t)
    ensures Forward(s.left.session.status, t.left.session.status)
    ensures Forward(s.right.session.status, t.right.session.status)
    decreases |trace|
  {
    if trace != [] {
      StepKeepsClose(s, trace[0]);
      StatusMovesForward(s.Do(trace[0]), trace[1..], t);
    }
  }

  // ----- close completion -----

  /** With no work left, a close that was called has taken place. */
  lemma NoWorkClosed(c: Peer, p: Peer)
    requires Inv(c, p) && WorkLeft(c) == 0 && WorkLeft(p) == 0 && Lossless(c.log) && Lossless(p.log)
    requires HandshakeOk(HandshakeOf(c, p)) && c.app.closeCalled
    ensures c.session.status == Closed && p.session.status == Closed
  {
    NoWorkNoItems(c);
    NoWorkNoItems(p);
    NothingKept(c, p);
    assert Closes(c, p) == 0 && Terms(c, p) == 0;
  }

  lemma TerminateMoves(c: Peer, p: Peer)
    requires Inv(c, p) && p.session.status != Closed && Terms(c, p) > 0
    ensures CanMove(c, p) || CanMove(p, c)
  {
    if c.card.wire != [] { WireMoves(c, p); }
    else {
      TermOnlyThere(c, p);
      LoopCanMove(p, c);
    }
  }

  lemma TermOnlyThere(c: Peer, p: Peer)
    requires Terms(c, p) > 0 && c.card.wire == []
    ensures p.queue.batch != [] || p.queue.cq != []
  {
    PacketsWeigh(c, TermHere().packet);
    CompletionsWeigh(p, TermThere().completion);
  }

  lemma CloseCanMove(t: Pair)
    requires InClose(t) && t.left.app.closeCalled && HasMemory(t.left) && HasMemory(t.right)
    requires t.right.session.status != Closed
    ensures CanMove(t.left, t.right) || CanMove(t.right, t.left)
  {
    if t.left.session.status == Closed { TerminateMoves(t.left, t.right); }
    else {
      if Remaining(t) == 0 { NoWorkClosed(t.left, t.right); }
      NoDeadlock(t.left, t.right);
    }
  }

  /** Close completion: a run that can go no further after close has closed both sessions. */
  lemma CloseCompletes(s: Pair, trace: seq<Action>, t: Pair)
    requires Start(s) && Leads(OneCloser, s, trace, t)
    requires Stuck(t) && t.left.app.closeCalled && HasMemory(t.left) && HasMemory(t.right)
    ensures t.left.session.status == Closed && t.right.session.status == Closed
  {
    CloseRuns(s, trace, t);
    if t.right.session.status != Closed {
      CloseCanMove(t);
      SomeAction(t);
    }
  }
}
