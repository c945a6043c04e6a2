/** Each transfer is in exactly one stage of its life and only moves forward. */
module Stages {
  import opened Bags
  import opened Protocol
  import opened System
  import opened CompletionLoop
  import opened Frames
  import opened Lifecycle

  ghost predicate Numbered(log: Log) { forall i :: 0 <= i < |log.issued| ==> log.issued[i].id == i }

  lemma NumberedKept(p: Peer, q: Peer, step: Step)
    requires Enabled(p, q, step) && Numbered(p.log) && Numbered(q.log)
    ensures Numbered(Act(p, q, step).log) && Numbered(React(p, q, step).log)
  {
    ActLog(p, q, step);
    ReactLog(p, q, step);
  }

  /** How often transfer `x` of `p` is found in stage `s`. */
  ghost function Found(p: Peer, q: Peer, s: Stage, x: Transfer): nat {
    if InFlight(s) then Staying(p, q, s, Is(x)) else Entered(p, q, Is(x))(s)
  }

  /** Whether a transfer in stage `s` has entered stage `t`. */
  predicate Passed(t: Stage, s: Stage) {
    match t
    case Queued => true
    case Requested => s != Queued
    case Accepted => s != Queued && s != Requested && s != Dropped
    case Reading => s == Reading || s == Fetched || s == Returning || s == Releasing || s == Freed
    case Fetched => s == Fetched || s == Returning || s == Releasing || s == Freed
    case Returning => s == Returning || s == Releasing || s == Freed
    case Releasing => s == Releasing || s == Freed
    case Freed => s == Freed
    case Dropped => s == Dropped
  }

  /** Nothing leaves a stage that did not enter it. */
  ghost predicate Draining(e: Stage -> nat) {
    && Outflow(e, Queued) <= e(Queued) && Outflow(e, Requested) <= e(Requested)
    && Outflow(e, Accepted) <= e(Accepted) && Outflow(e, Reading) <= e(Reading)
    && Outflow(e, Fetched) <= e(Fetched) && Outflow(e, Returning) <= e(Returning)
    && Outflow(e, Releasing) <= e(Releasing)
  }

  lemma LogsShrink(p: Peer, q: Peer, f: Transfer -> nat)
    requires Conserved(p, q)
    ensures Draining(Entered(p, q, f))
  {
    var e := Entered(p, q, f);
    forall s | InFlight(s) ensures Outflow(e, s) <= e(s) { assert Accounted(p, q, s, f); }
  }

  lemma IssuedOnce(p: Peer, q: Peer, x: Transfer)
    requires Numbered(p.log)
    ensures Entered(p, q, Is(x))(Queued) == if x in p.log.issued then 1 else 0
  {
    OccursOnce(p.log.issued, x);
  }

  lemma Membership(p: Peer, q: Peer, x: Transfer)
    ensures forall s :: x in LogOf(p, q, s) <==> Entered(p, q, Is(x))(s) > 0
  {
    forall s ensures x in LogOf(p, q, s) <==> Entered(p, q, Is(x))(s) > 0 { Occurs(LogOf(p, q, s), x); }
  }

  lemma Remains(p: Peer, q: Peer, s: Stage, x: Transfer)
    requires Conserved(p, q)
    ensures Found(p, q, s, x) + Outflow(Entered(p, q, Is(x)), s) == Entered(p, q, Is(x))(s)
  {
    if InFlight(s) { assert Accounted(p, q, s, Is(x)); }
  }

  /** With one unit in the pipeline, finding it in `s` fixes every count. */
  lemma ChainTells(e: Stage -> nat, s: Stage)
    requires Draining(e) && e(Queued) <= 1 && Outflow(e, s) < e(s)
    ensures forall t :: e(t) == if Passed(t, s) then 1 else 0
    ensures forall t :: Outflow(e, t) + (if t == s then 1 else 0) == e(t)
  {
  }

  /** Finding a transfer in a stage determines the stage and which logs hold it. */
  lemma StageTells(p: Peer, q: Peer, s: Stage, x: Transfer)
    requires Conserved(p, q) && Numbered(p.log) && Found(p, q, s, x) > 0
    ensures forall t :: Found(p, q, t, x) == if t == s then 1 else 0
    ensures forall t :: x in LogOf(p, q, t) <==> Passed(t, s)
  {
    var e := Entered(p, q, Is(x));
    IssuedOnce(p, q, x);
    LogsShrink(p, q, Is(x));
    Remains(p, q, s, x);
    ChainTells(e, s);
    Membership(p, q, x);
    forall t ensures Found(p, q, t, x) == if t == s then 1 else 0 { Remains(p, q, t, x); }
  }

  /** The stage the logs give. */
  ghost function StageOf(p: Peer, q: Peer, x: Transfer): Stage {
    if x in p.log.freed then Freed
    else if x in q.log.lost then Dropped
    else if x in q.log.returned then Releasing
    else if x in q.log.read then Returning
    else if x in q.log.fetched then Fetched
    else if x in q.log.posted then Reading
    else if x in q.log.accepted then Accepted
    else if x in p.log.requested then Requested
    else Queued
  }

  lemma NothingMoves(e: Stage -> nat, t: Stage)
    requires Draining(e) && e(Queued) == 0
    ensures e(t) == 0
  {
  }

  /** Each buffer handed to send_data is in exactly one stage; no other transfer is in any. */
  lemma ExactlyOneStage(p: Peer, q: Peer, x: Transfer)
    requires Conserved(p, q) && Numbered(p.log)
    ensures forall t :: Found(p, q, t, x) == if x in p.log.issued && t == StageOf(p, q, x) then 1 else 0
  {
    var e := Entered(p, q, Is(x));
    IssuedOnce(p, q, x);
    LogsShrink(p, q, Is(x));
    Membership(p, q, x);
    if x in p.log.issued {
      var s := StageOf(p, q, x);
      LastLog(p, q, x, s);
      Remains(p, q, s, x);
      StageTells(p, q, s, x);
    } else {
      forall t ensures Found(p, q, t, x) == 0 { Remains(p, q, t, x); NothingMoves(e, t); }
    }
  }

  /** The logs stop at the stage they give. */
  lemma LastLog(p: Peer, q: Peer, x: Transfer, s: Stage)
    requires x in p.log.issued && s == StageOf(p, q, x)
    requires Draining(Entered(p, q, Is(x))) && Entered(p, q, Is(x))(Queued) == 1
    ensures Outflow(Entered(p, q, Is(x)), s) < Entered(p, q, Is(x))(s)
  {
    var e := Entered(p, q, Is(x));
    Membership(p, q, x);
    assert forall t :: x in LogOf(p, q, t) <==> e(t) > 0;
    assert x in LogOf(p, q, s);
  }

  lemma SentMoverFound(p: Peer, q: Peer, step: Step, m: Move)
    requires Enabled(p, q, step) && NothingStranded(p.queue)
    requires m == SenderMove(p, q, step) && m.Advance?
    ensures Follows(m.from, m.to) && Found(p, q, m.from, m.x) > 0
  {
    MovesFollow(p, q, step);
    SenderAdvances(p, q, step, OnStage(m.from, Is(m.x)));
  }

  lemma ReceivedMoverFound(p: Peer, q: Peer, step: Step, m: Move)
    requires Enabled(p, q, step) && NothingStranded(p.queue)
    requires m == ReceiverMove(p, q, step) && m.Advance?
    ensures Follows(m.from, m.to) && Found(q, p, m.from, m.x) > 0
  {
    MovesFollow(p, q, step);
    ReceiverAdvances(p, q, step, OnStage(m.from, Is(m.x)));
  }

  lemma LogsMove(p: Peer, q: Peer, p': Peer, q': Peer, m: Move, x: Transfer)
    requires forall s :: Entered(p', q', Is(x))(s) == Entered(p, q, Is(x))(s) + Joins(m, s, Is(x))
    ensures forall s :: x in LogOf(p', q', s) <==> x in LogOf(p, q, s) || Joins(m, s, Is(x)) > 0
  {
    Membership(p, q, x);
    Membership(p', q', x);
  }

  lemma StageFromLogs(p: Peer, q: Peer, x: Transfer, s: Stage)
    requires forall t :: x in LogOf(p, q, t) <==> Passed(t, s)
    ensures StageOf(p, q, x) == s
  {
    assert x in LogOf(p, q, s);
    assert x in LogOf(p, q, Freed) <==> Passed(Freed, s);
    assert x in LogOf(p, q, Dropped) <==> Passed(Dropped, s);
    assert x in LogOf(p, q, Releasing) <==> Passed(Releasing, s);
    assert x in LogOf(p, q, Returning) <==> Passed(Returning, s);
    assert x in LogOf(p, q, Fetched) <==> Passed(Fetched, s);
    assert x in LogOf(p, q, Reading) <==> Passed(Reading, s);
    assert x in LogOf(p, q, Accepted) <==> Passed(Accepted, s);
    assert x in LogOf(p, q, Requested) <==> Passed(Requested, s);
  }

  lemma InItsStage(p: Peer, q: Peer, x: Transfer)
    requires Conserved(p, q) && Numbered(p.log) && x in p.log.issued
    ensures forall t :: x in LogOf(p, q, t) <==> Passed(t, StageOf(p, q, x))
  {
    ExactlyOneStage(p, q, x);
    StageTells(p, q, StageOf(p, q, x), x);
  }

  lemma PassedNext(m: Move, x: Transfer, s: Stage, t: Stage)
    requires m.Advance? && m.x == x && m.from == s && Follows(s, m.to)
    ensures Passed(t, s) || Joins(m, t, Is(x)) > 0 <==> Passed(t, m.to)
  {
  }

  /** How the stage of one transfer changes when `m` happens. */
  lemma StageMoves(p: Peer, q: Peer, p': Peer, q': Peer, m: Move, x: Transfer, s: Stage)
    requires forall t :: x in LogOf(p, q, t) <==> Passed(t, s)
    requires forall s :: Entered(p', q', Is(x))(s) == Entered(p, q, Is(x))(s) + Joins(m, s, Is(x))
    requires m.Advance? && m.x == x ==> m.from == s && Follows(s, m.to)
    requires m.Enter? ==> m.x != x
    ensures StageOf(p', q', x) == if m.Advance? && m.x == x then m.to else s
  {
    LogsMove(p, q, p', q', m, x);
    if m.Advance? && m.x == x {
      forall t ensures x in LogOf(p', q', t) <==> Passed(t, m.to) { PassedNext(m, x, s, t); }
      StageFromLogs(p', q', x, m.to);
    } else {
      StageFromLogs(p', q', x, s);
    }
  }

  lemma FoundIsStage(p: Peer, q: Peer, s: Stage, x: Transfer)
    requires Conserved(p, q) && Numbered(p.log) && Found(p, q, s, x) > 0
    ensures StageOf(p, q, x) == s
  {
    StageTells(p, q, s, x);
    StageFromLogs(p, q, x, s);
  }

  /** A step of the sender moves at most one of its transfers, by one stage, forward. */
  lemma SenderMovesForward(p: Peer, q: Peer, step: Step, x: Transfer)
    requires Enabled(p, q, step) && NothingStranded(p.queue)
    requires Conserved(p, q) && Numbered(p.log) && x in p.log.issued
    ensures var (p', q') := (Act(p, q, step), React(p, q, step));
            var (s, s') := (StageOf(p, q, x), StageOf(p', q', x));
            (s' == s || (Follows(s, s') && SenderMove(p, q, step) == Advance(x, s, s')))
  {
    var m := SenderMove(p, q, step);
    InItsStage(p, q, x);
    if m.Advance? {
      SentMoverFound(p, q, step, m);
      if m.x == x { FoundIsStage(p, q, m.from, x); }
    }
    SenderLogs(p, q, step, Is(x));
    StageMoves(p, q, Act(p, q, step), React(p, q, step), m, x, StageOf(p, q, x));
  }

  /** So does a step of the receiver. */
  lemma ReceiverMovesForward(p: Peer, q: Peer, step: Step, x: Transfer)
    requires Enabled(p, q, step) && NothingStranded(p.queue)
    requires Conserved(q, p) && Numbered(q.log) && x in q.log.issued
    ensures var (p', q') := (Act(p, q, step), React(p, q, step));
            var (s, s') := (StageOf(q, p, x), StageOf(q', p', x));
            (s' == s || (Follows(s, s') && ReceiverMove(p, q, step) == Advance(x, s, s')))
  {
    var m := ReceiverMove(p, q, step);
    InItsStage(q, p, x);
    if m.Advance? {
      ReceivedMoverFound(p, q, step, m);
      if m.x == x { FoundIsStage(q, p, m.from, x); }
    }
    ReceiverLogs(p, q, step, Is(x));
    StageMoves(q, p, React(p, q, step), Act(p, q, step), m, x, StageOf(q, p, x));
  }
}
