/** The life of a send_data buffer across both peers.

    A transfer handed to send_data by `p` passes through the stages below, the middle ones on the other
    peer `q`. Total weighs every place a transfer can be in by its stage; every step of the system moves
    at most one transfer, by one stage, forward. */
module Lifecycle {
  import opened Bags
  import opened Protocol
  import opened System
  import opened CompletionLoop
  import opened Frames
  import opened Ledger

  datatype Stage = Queued | Requested | Accepted | Reading | Fetched | Returning | Releasing | Freed | Dropped

  ghost predicate Follows(s: Stage, t: Stage) {
    match s
    case Queued => t == Requested
    case Requested => t == Accepted || t == Dropped
    case Accepted => t == Reading
    case Reading => t == Fetched
    case Fetched => t == Returning
    case Returning => t == Releasing
    case Releasing => t == Freed
    case _ => false
  }

  /** In the last two stages nothing of the transfer is left but the logs. */
  predicate InFlight(s: Stage) { s != Freed && s != Dropped }

  type Gauge = (Stage, Transfer) -> nat

  ghost function TaskGauge(g: Gauge, mine: bool): Task -> nat {
    (t: Task) => if mine && t.Request? then g(Queued, t.x) else if !mine && t.Over? then g(Returning, t.x) else 0
  }

  /** Where `p`'s own transfers are on `p`. */
  ghost function SenderGauge(g: Gauge): Weighting {
    Weightless.(pooled := TaskGauge(g, true), awake := TaskGauge(g, true), asleep := TaskGauge(g, true),
                packet := (e: Packet) => if e.WritePacket? && e.intent.Request? then g(Requested, e.intent.x) else 0,
                completion := (e: Completion) =>
                  if e.RecvWrite? && e.intent.Over? then g(Releasing, e.intent.x) else 0)
  }

  /** Where they are on the other peer. */
  ghost function ReceiverGauge(g: Gauge): Weighting {
    Weightless.(pooled := TaskGauge(g, false), awake := TaskGauge(g, false), asleep := TaskGauge(g, false),
                packet := (e: Packet) => if e.WritePacket? && e.intent.Over? then g(Releasing, e.intent.x) else 0,
                completion := (e: Completion) =>
                  if e.RecvWrite? && e.intent.Request? then g(Requested, e.intent.x)
                  else if e.ReadDone? then g(Fetched, e.x) else 0,
                accept := (a: Accept) => g(Accepted, a.x),
                fetch := (e: Fetch) => g(Reading, e.x))
  }

  ghost function Total(p: Peer, q: Peer, g: Gauge): nat {
    Weight(p, SenderGauge(g)) + Weight(q, ReceiverGauge(g))
  }

  // ----- one step, one stage -----

  datatype Move = Stay | Enter(x: Transfer) | Advance(x: Transfer, from: Stage, to: Stage)

  /** What a step of the sender does to its own transfers. */
  ghost function SenderMove(p: Peer, q: Peer, step: Step): Move
    requires Enabled(p, q, step)
  {
    match step
    case SendData(x) => Enter(x)
    case CheckTask(k) =>
      if p.lanes.MayLock() && p.pools.awake[k].Request? then Advance(p.pools.awake[k].x, Queued, Requested) else Stay
    case Handle =>
      var e := p.queue.batch[0];
      if e.RecvWrite? && e.intent.Over? then Advance(e.intent.x, Releasing, Freed) else Stay
    case _ => Stay
  }

  /** What a step of a peer does to the transfers it receives. */
  ghost function ReceiverMove(p: Peer, q: Peer, step: Step): Move
    requires Enabled(p, q, step)
  {
    match step
    case CheckTask(k) =>
      if p.lanes.MayLock() && p.pools.awake[k].Over? then Advance(p.pools.awake[k].x, Returning, Releasing) else Stay
    case AcceptTask(k, _, _) => Advance(p.pools.accepts[k].x, Accepted, Reading)
    case ReadCompletes(k, _) => Advance(p.card.fetches[k].x, Reading, Fetched)
    case Handle =>
      var e := p.queue.batch[0];
      if e.RecvWrite? && e.intent.Request?
      then Advance(e.intent.x, Requested, if p.session.status == Work then Accepted else Dropped)
      else if e.ReadDone? then Advance(e.x, Fetched, Returning) else Stay
    case _ => Stay
  }

  ghost function Before(m: Move, g: Gauge): nat { if m.Advance? then g(m.from, m.x) else 0 }

  ghost function After(m: Move, g: Gauge): nat {
    match m
    case Stay => 0
    case Enter(x) => g(Queued, x)
    case Advance(x, _, to) => if InFlight(to) then g(to, x) else 0
  }

  lemma SenderGains(p: Peer, q: Peer, step: Step, g: Gauge, v: Weighting, w: Weighting)
    requires Enabled(p, q, step) && v == SenderGauge(g) && w == ReceiverGauge(g)
    ensures var m := SenderMove(p, q, step);
            Gain(p, q, step, v) + Arrives(p, q, step, w) + Before(m, g) == Loss(p, q, step, v) + After(m, g)
  {
  }

  lemma ReceiverGains(p: Peer, q: Peer, step: Step, g: Gauge, v: Weighting, w: Weighting)
    requires Enabled(p, q, step) && v == ReceiverGauge(g) && w == SenderGauge(g)
    ensures var m := ReceiverMove(p, q, step);
            Gain(p, q, step, v) + Arrives(p, q, step, w) + Before(m, g) == Loss(p, q, step, v) + After(m, g)
  {
  }

  /** Every step moves at most one transfer of the acting peer, to the next stage. */
  lemma SenderAdvances(p: Peer, q: Peer, step: Step, g: Gauge)
    requires Enabled(p, q, step) && NothingStranded(p.queue)
    ensures var m := SenderMove(p, q, step);
            Total(Act(p, q, step), React(p, q, step), g) + Before(m, g) == Total(p, q, g) + After(m, g)
  {
    Balanced(p, q, step, SenderGauge(g));
    ReactionBalanced(p, q, step, ReceiverGauge(g));
    SenderGains(p, q, step, g, SenderGauge(g), ReceiverGauge(g));
  }

  /** ... and at most one of the other peer's transfers. */
  lemma ReceiverAdvances(p: Peer, q: Peer, step: Step, g: Gauge)
    requires Enabled(p, q, step) && NothingStranded(p.queue)
    ensures var m := ReceiverMove(p, q, step);
            Total(React(p, q, step), Act(p, q, step), g) + Before(m, g) == Total(q, p, g) + After(m, g)
  {
    Balanced(p, q, step, ReceiverGauge(g));
    ReactionBalanced(p, q, step, SenderGauge(g));
    ReceiverGains(p, q, step, g, ReceiverGauge(g), SenderGauge(g));
  }

  lemma MovesFollow(p: Peer, q: Peer, step: Step)
    requires Enabled(p, q, step)
    ensures var m := SenderMove(p, q, step); m.Advance? ==> Follows(m.from, m.to)
    ensures var m := ReceiverMove(p, q, step); m.Advance? ==> Follows(m.from, m.to)
  {
  }

  // ----- the stages agree with the logs -----

  /** The log of the transfers that entered a stage. */
  ghost function LogIn(mine: Log, theirs: Log, s: Stage): seq<Transfer> {
    match s
    case Queued => mine.issued
    case Requested => mine.requested
    case Accepted => theirs.accepted
    case Reading => theirs.posted
    case Fetched => theirs.fetched
    case Returning => theirs.read
    case Releasing => theirs.returned
    case Freed => mine.freed
    case Dropped => theirs.lost
  }

  ghost function LogOf(p: Peer, q: Peer, s: Stage): seq<Transfer> { LogIn(p.log, q.log, s) }

  ghost function Entered(p: Peer, q: Peer, f: Transfer -> nat): Stage -> nat { (s: Stage) => Sum(LogOf(p, q, s), f) }

  /** Of what entered the stages, what left stage `s`. */
  ghost function Outflow(e: Stage -> nat, s: Stage): nat {
    match s
    case Queued => e(Requested)
    case Requested => e(Accepted) + e(Dropped)
    case Accepted => e(Reading)
    case Reading => e(Fetched)
    case Fetched => e(Returning)
    case Returning => e(Releasing)
    case Releasing => e(Freed)
    case _ => 0
  }

  ghost function OnStage(s: Stage, f: Transfer -> nat): Gauge { (t: Stage, x: Transfer) => if t == s then f(x) else 0 }

  ghost function Staying(p: Peer, q: Peer, s: Stage, f: Transfer -> nat): nat { Total(p, q, OnStage(s, f)) }

  /** The transfers found in a stage are those that entered it and did not leave, with multiplicity: this
      for every weight `f` is equality of multisets. */
  ghost predicate Accounted(p: Peer, q: Peer, s: Stage, f: Transfer -> nat) {
    Staying(p, q, s, f) + Outflow(Entered(p, q, f), s) == Entered(p, q, f)(s)
  }

  ghost predicate Conserved(p: Peer, q: Peer) {
    forall s, f: Transfer -> nat :: InFlight(s) ==> Accounted(p, q, s, f)
  }

  ghost function Joins(m: Move, s: Stage, f: Transfer -> nat): nat {
    match m
    case Stay => 0
    case Enter(x) => if s == Queued then f(x) else 0
    case Advance(x, _, to) => if s == to then f(x) else 0
  }

  ghost function Leaves(m: Move, s: Stage, f: Transfer -> nat): nat {
    if m.Advance? && m.from == s then f(m.x) else 0
  }

  lemma SenderJoins(p: Peer, q: Peer, step: Step, s: Stage, f: Transfer -> nat)
    requires Enabled(p, q, step)
    ensures Sum(LogIn(LogAfter(p, q, step), q.log, s), f)
         == Sum(LogIn(p.log, q.log, s), f) + Joins(SenderMove(p, q, step), s, f)
  {
  }

  lemma ReceiverJoins(p: Peer, q: Peer, step: Step, s: Stage, f: Transfer -> nat)
    requires Enabled(p, q, step)
    ensures Sum(LogIn(q.log, LogAfter(p, q, step), s), f)
         == Sum(LogIn(q.log, p.log, s), f) + Joins(ReceiverMove(p, q, step), s, f)
  {
  }

  lemma SenderLogs(p: Peer, q: Peer, step: Step, f: Transfer -> nat)
    requires Enabled(p, q, step)
    ensures forall s :: Entered(Act(p, q, step), React(p, q, step), f)(s)
                     == Entered(p, q, f)(s) + Joins(SenderMove(p, q, step), s, f)
  {
    ActLog(p, q, step);
    ReactLog(p, q, step);
    forall s { SenderJoins(p, q, step, s, f); }
  }

  lemma ReceiverLogs(p: Peer, q: Peer, step: Step, f: Transfer -> nat)
    requires Enabled(p, q, step)
    ensures forall s :: Entered(React(p, q, step), Act(p, q, step), f)(s)
                     == Entered(q, p, f)(s) + Joins(ReceiverMove(p, q, step), s, f)
  {
    ActLog(p, q, step);
    ReactLog(p, q, step);
    forall s { ReceiverJoins(p, q, step, s, f); }
  }

  lemma OutflowMoves(e: Stage -> nat, e': Stage -> nat, m: Move, s: Stage, f: Transfer -> nat)
    requires InFlight(s) && (m.Advance? ==> Follows(m.from, m.to))
    requires forall t :: e'(t) == e(t) + Joins(m, t, f)
    ensures Outflow(e', s) == Outflow(e, s) + Leaves(m, s, f)
  {
  }

  lemma StageWeighs(m: Move, s: Stage, f: Transfer -> nat)
    requires InFlight(s)
    ensures After(m, OnStage(s, f)) == Joins(m, s, f) && Before(m, OnStage(s, f)) == Leaves(m, s, f)
  {
  }

  lemma ConservedKept(p: Peer, q: Peer, step: Step)
    requires Enabled(p, q, step) && NothingStranded(p.queue)
    requires Conserved(p, q) && Conserved(q, p)
    ensures Conserved(Act(p, q, step), React(p, q, step)) && Conserved(React(p, q, step), Act(p, q, step))
  {
    MovesFollow(p, q, step);
    forall s, f: Transfer -> nat | InFlight(s) ensures Accounted(Act(p, q, step), React(p, q, step), s, f) {
      assert Accounted(p, q, s, f);
      SenderAdvances(p, q, step, OnStage(s, f));
      SenderLogs(p, q, step, f);
      OutflowMoves(Entered(p, q, f), Entered(Act(p, q, step), React(p, q, step), f), SenderMove(p, q, step), s, f);
      StageWeighs(SenderMove(p, q, step), s, f);
    }
    forall s, f: Transfer -> nat | InFlight(s) ensures Accounted(React(p, q, step), Act(p, q, step), s, f) {
      assert Accounted(q, p, s, f);
      ReceiverAdvances(p, q, step, OnStage(s, f));
      ReceiverLogs(p, q, step, f);
      OutflowMoves(Entered(q, p, f), Entered(React(p, q, step), Act(p, q, step), f), ReceiverMove(p, q, step), s, f);
      StageWeighs(ReceiverMove(p, q, step), s, f);
    }
  }
}
