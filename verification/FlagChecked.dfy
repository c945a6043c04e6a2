/** Waits that end early do no harm to an application that looks at the flag before its next barrier
    (src/rdma_endpoint.cpp, src/rdma_message.cpp). */
module FlagChecked {
  import opened Bags
  import opened Message
  import Words
  import opened Protocol
  import opened System
  import opened Frames
  import opened Counting
  import opened Reachable
  import opened Barriers

  // ----- the same peer, still waiting -----

  /** The barrier is bookkeeping: a peer whose application believes in another barrier. */
  ghost function Shade(p: Peer, b: Barrier): Peer { p.(app := p.app.(barrier := b)) }

  predicate Waitful(step: Step) { step.SetSyncBarrier? || step.WaitForSync? || step.ReturnEarly? }

  lemma MessageShades(p: Peer, intent: Task, round: nat, b: Barrier)
    ensures ProcessAttachedMessage(Shade(p, b), intent, round) == Shade(ProcessAttachedMessage(p, intent, round), b)
  {
  }

  lemma ProcessShades(p: Peer, e: Completion, b: Barrier)
    ensures Process(Shade(p, b), e) == Shade(Process(p, e), b)
  {
    if e.RecvWrite? { MessageShades(p, e.intent, e.round, b); }
  }

  /** No step but those of the barrier looks at it. */
  lemma ActShades(p: Peer, q: Peer, step: Step, b: Barrier)
    requires Enabled(p, q, step) && !Waitful(step)
    ensures Enabled(Shade(p, b), q, step) && Act(Shade(p, b), q, step) == Shade(Act(p, q, step), b)
  {
    if step.Handle? { ProcessShades(Taken(p), p.queue.batch[0], b); }
  }

  lemma ReactShades(p: Peer, q: Peer, step: Step, b: Barrier)
    requires Enabled(p, q, step)
    ensures Enabled(p, Shade(q, b), step) && Act(p, Shade(q, b), step) == Act(p, q, step)
    ensures React(p, Shade(q, b), step) == Shade(React(p, q, step), b)
  {
  }

  lemma ReactsAlike(p: Peer, q: Peer, step: Step, b: Barrier)
    requires Enabled(p, q, step) && Enabled(Shade(p, b), q, step)
    ensures React(Shade(p, b), q, step) == React(p, q, step)
  {
  }

  // ----- the rule -----

  /** Nothing of an earlier round is outstanding: no request, no answer, no byte, and the counter is not
      below its target. */
  ghost predicate RoundOver(p: Peer, q: Peer) {
    && Syncs(p, q, None) == 0 && Acks(p, q) == 0
    && ReadBytes(q) == Sum(p.log.issued, ByteWeight()) && q.counts.total >= q.counts.target
  }

  /** Rounds as before, but any wait of the left application may end early. It sets the next barrier only
      when the last round is over. */
  ghost predicate CheckedStep(p: Peer, q: Peer, step: Step) {
    match step
    case ReturnEarly => true
    case SetSyncBarrier(_) => BarrierStep(p, step) && RoundOver(p, q)
    case _ => BarrierStep(p, step)
  }

  ghost const ChecksFlag: Rule := (s: Pair, a: Action) =>
    if a.side == Left then CheckedStep(s.left, s.right, a.step) else BarrierStep(s.right, a.step)

  lemma RoundOverViewIff(v: View)
    requires RoundOk(v)
    ensures v.barrier.Open? ==>
              (v.syncs == 0 && v.acks == 0 && v.read == v.sent && v.total >= v.target <==> v.flag)
    ensures v.barrier == Ready ==> v.syncs == 0 && v.acks == 0 && v.read == v.sent && v.total >= v.target
  {
  }

  // ----- a run with early returns is a run by rounds of an application that goes on waiting -----

  ghost function Shaded(s: Pair, last: Barrier): Pair { Pair(Shade(s.left, last), s.right) }

  /** `last` is the barrier the application would be waiting for, `ever` whether it ever set one. */
  ghost predicate Believes(p: Peer, last: Barrier, ever: bool) {
    && (p.app.barrier == last || p.app.barrier == Ready)
    && (last.Open? ==> ever) && (ever && last == Ready ==> p.session.syncFlag)
  }

  ghost predicate StillWaits(s: Pair, last: Barrier, ever: bool) {
    InRounds(Shaded(s, last)) && Believes(s.left, last, ever)
  }

  lemma ShadedView(p: Peer, q: Peer, b: Barrier)
    ensures var v := ViewOf(Shade(p, b), q);
            v.barrier == b && v.flag == p.session.syncFlag && v.syncs == Syncs(p, q, None) && v.acks == Acks(p, q)
            && v.sent == Sum(p.log.issued, ByteWeight()) && v.read == ReadBytes(q)
            && v.total == q.counts.total && v.target == q.counts.target
  {
  }

  lemma RoundOverIff(p: Peer, q: Peer, last: Barrier)
    requires RoundOk(ViewOf(Shade(p, last), q))
    ensures RoundOver(p, q) <==> p.session.syncFlag || last == Ready
  {
    ShadedView(p, q, last);
    RoundOverViewIff(ViewOf(Shade(p, last), q));
  }

  ghost predicate SetsBarrier(a: Action) { a.side == Left && a.step.SetSyncBarrier? }

  lemma FlagAfter(p: Peer, q: Peer, step: Step)
    requires Enabled(p, q, step)
    ensures !step.SetSyncBarrier? && p.session.syncFlag ==> Act(p, q, step).session.syncFlag
    ensures Act(p, q, step).app.barrier == BarrierAfter(p.app.barrier, step, Sum(p.log.issued, ByteWeight()))
    ensures React(p, q, step).session == q.session && React(p, q, step).app == q.app
  {
    ActSession(p, q, step);
    SetterLanes(p, q, step);
    SetterBarrier(p, q, step);
    ReactRest(p, q, step);
  }

  lemma OrdinaryStep(s: Pair, step: Step, last: Barrier)
    requires InRounds(Shaded(s, last)) && Enabled(s.left, s.right, step) && !Waitful(step)
    requires BarrierStep(Shade(s.left, last), step)
    ensures InRounds(Shaded(s.Do(Action(Left, step)), last))
  {
    ActShades(s.left, s.right, step, last);
    ReactsAlike(s.left, s.right, step, last);
    StepKeepsRounds(Shaded(s, last), Action(Left, step));
  }

  lemma RightStep(s: Pair, step: Step, last: Barrier)
    requires InRounds(Shaded(s, last)) && Enabled(s.right, s.left, step) && BarrierStep(s.right, step)
    ensures InRounds(Shaded(s.Do(Action(Right, step)), last))
  {
    ReactShades(s.right, s.left, step, last);
    StepKeepsRounds(Shaded(s, last), Action(Right, step));
  }

  lemma WaitShades(s: Pair, last: Barrier)
    requires s.left.session.syncFlag
    ensures Shaded(s, last).CanDo(Action(Left, WaitForSync))
    ensures Shaded(s, last).Do(Action(Left, WaitForSync)) == Shaded(s, Ready)
  {
  }

  /** With the flag up, the shade may stop waiting. */
  lemma WaitOver(s: Pair, last: Barrier)
    requires InRounds(Shaded(s, last)) && s.left.session.syncFlag
    ensures InRounds(Shaded(s, Ready))
  {
    WaitShades(s, last);
    StepKeepsRounds(Shaded(s, last), Action(Left, WaitForSync));
  }

  lemma ReadyAgain(s: Pair, last: Barrier)
    requires InRounds(Shaded(s, last)) && RoundOver(s.left, s.right)
    ensures InRounds(Shaded(s, Ready))
  {
    RoundOverIff(s.left, s.right, last);
    if last != Ready { WaitOver(s, last); }
  }

  ghost function LastAfter(last: Barrier, step: Step, sent: nat): Barrier {
    match step case SetSyncBarrier(n) => Open(n, sent) case WaitForSync => Ready case _ => last
  }

  lemma BarrierShades(s: Pair, n: Words.u64)
    ensures var a := Action(Left, SetSyncBarrier(n));
            Shaded(s, Ready).CanDo(a) && s.CanDo(a)
            && Shaded(s, Ready).Do(a) == Shaded(s.Do(a), Open(n, Sum(s.left.log.issued, ByteWeight())))
  {
  }

  lemma BarrierAllowed(s: Pair, n: Words.u64)
    requires 0 < n < INT_LIMIT
    ensures ByRounds(Shaded(s, Ready), Action(Left, SetSyncBarrier(n)))
  {
    assert BarrierStep(Shaded(s, Ready).left, SetSyncBarrier(n));
  }

  lemma StepTo(u: Pair, a: Action, v: Pair)
    requires InRounds(u) && u.CanDo(a) && ByRounds(u, a) && v == u.Do(a)
    ensures InRounds(v)
  {
    StepKeepsRounds(u, a);
  }

  lemma NextBarrier(s: Pair, n: Words.u64, v: Pair)
    requires InRounds(Shaded(s, Ready)) && 0 < n < INT_LIMIT
    requires v == Shaded(s.Do(Action(Left, SetSyncBarrier(n))), Open(n, Sum(s.left.log.issued, ByteWeight())))
    ensures InRounds(v)
  {
    BarrierShades(s, n);
    BarrierAllowed(s, n);
    StepTo(Shaded(s, Ready), Action(Left, SetSyncBarrier(n)), v);
  }

  lemma ReturnShades(s: Pair, last: Barrier)
    requires Enabled(s.left, s.right, ReturnEarly)
    ensures Shaded(s.Do(Action(Left, ReturnEarly)), last) == Shaded(s, last)
  {
  }

  lemma WaitIsShade(s: Pair)
    requires Enabled(s.left, s.right, WaitForSync)
    ensures Shaded(s.Do(Action(Left, WaitForSync)), Ready) == Shaded(s, Ready)
  {
  }

  lemma SetsNext(s: Pair, last: Barrier, n: Words.u64, v: Pair)
    requires InRounds(Shaded(s, last)) && RoundOver(s.left, s.right) && 0 < n < INT_LIMIT
    requires v == Shaded(s.Do(Action(Left, SetSyncBarrier(n))), Open(n, Sum(s.left.log.issued, ByteWeight())))
    ensures InRounds(v)
  {
    ReadyAgain(s, last);
    NextBarrier(s, n, v);
  }

  lemma Waits(s: Pair, last: Barrier)
    requires InRounds(Shaded(s, last)) && Enabled(s.left, s.right, WaitForSync)
    ensures InRounds(Shaded(s.Do(Action(Left, WaitForSync)), Ready))
  {
    WaitOver(s, last);
    WaitIsShade(s);
  }

  lemma LeftBelieves(p: Peer, q: Peer, last: Barrier, ever: bool, step: Step, next: Barrier)
    requires Believes(p, last, ever) && Enabled(p, q, step) && CheckedStep(p, q, step)
    requires next == LastAfter(last, step, Sum(p.log.issued, ByteWeight()))
    ensures Believes(Act(p, q, step), next, ever || step.SetSyncBarrier?)
    ensures !Waitful(step) ==> BarrierStep(Shade(p, last), step)
  {
    FlagAfter(p, q, step);
  }

  lemma SetsStillWaits(s: Pair, last: Barrier, ever: bool, n: Words.u64, next: Barrier)
    requires StillWaits(s, last, ever) && CheckedStep(s.left, s.right, SetSyncBarrier(n))
    requires next == Open(n, Sum(s.left.log.issued, ByteWeight()))
    ensures StillWaits(s.Do(Action(Left, SetSyncBarrier(n))), next, true)
  {
    LeftBelieves(s.left, s.right, last, ever, SetSyncBarrier(n), next);
    SetsNext(s, last, n, Shaded(s.Do(Action(Left, SetSyncBarrier(n))), next));
  }

  lemma WaitsStillWaits(s: Pair, last: Barrier, ever: bool)
    requires StillWaits(s, last, ever) && Enabled(s.left, s.right, WaitForSync)
    ensures StillWaits(s.Do(Action(Left, WaitForSync)), Ready, ever)
  {
    LeftBelieves(s.left, s.right, last, ever, WaitForSync, Ready);
    Waits(s, last);
  }

  lemma ReturnsStillWaits(s: Pair, last: Barrier, ever: bool)
    requires StillWaits(s, last, ever) && Enabled(s.left, s.right, ReturnEarly)
    ensures StillWaits(s.Do(Action(Left, ReturnEarly)), last, ever)
  {
    LeftBelieves(s.left, s.right, last, ever, ReturnEarly, last);
    ReturnShades(s, last);
  }

  lemma OrdinaryStillWaits(s: Pair, last: Barrier, ever: bool, step: Step)
    requires StillWaits(s, last, ever) && Enabled(s.left, s.right, step) && CheckedStep(s.left, s.right, step)
    requires !Waitful(step)
    ensures StillWaits(s.Do(Action(Left, step)), last, ever)
  {
    LeftBelieves(s.left, s.right, last, ever, step, last);
    OrdinaryStep(s, step, last);
  }

  lemma WaitfulStillWaits(s: Pair, last: Barrier, ever: bool, step: Step, next: Barrier)
    requires StillWaits(s, last, ever) && Enabled(s.left, s.right, step) && CheckedStep(s.left, s.right, step)
    requires Waitful(step) && next == LastAfter(last, step, Sum(s.left.log.issued, ByteWeight()))
    ensures StillWaits(s.Do(Action(Left, step)), next, ever || step.SetSyncBarrier?)
  {
    match step
    case SetSyncBarrier(n) => SetsStillWaits(s, last, ever, n, next);
    case WaitForSync => WaitsStillWaits(s, last, ever);
    case ReturnEarly => ReturnsStillWaits(s, last, ever);
  }

  lemma LeftStillWaits(s: Pair, last: Barrier, ever: bool, step: Step) returns (last': Barrier)
    requires StillWaits(s, last, ever) && Enabled(s.left, s.right, step) && CheckedStep(s.left, s.right, step)
    ensures StillWaits(s.Do(Action(Left, step)), last', ever || step.SetSyncBarrier?)
  {
    last' := LastAfter(last, step, Sum(s.left.log.issued, ByteWeight()));
    if Waitful(step) { WaitfulStillWaits(s, last, ever, step, last'); }
    else { OrdinaryStillWaits(s, last, ever, step); }
  }

  lemma StepStillWaits(s: Pair, last: Barrier, ever: bool, a: Action) returns (last': Barrier)
    requires StillWaits(s, last, ever) && s.CanDo(a) && ChecksFlag(s, a)
    ensures StillWaits(s.Do(a), last', ever || SetsBarrier(a))
  {
    if a.side == Left {
      last' := LeftStillWaits(s, last, ever, a.step);
    } else {
      RightStep(s, a.step, last);
      FlagAfter(s.right, s.left, a.step);
      last' := last;
    }
  }

  /** Whether the left application sets a barrier along the run. */
  ghost predicate SetsOne(trace: seq<Action>) { exists i :: 0 <= i < |trace| && SetsBarrier(trace[i]) }

  lemma SetsOneOf(trace: seq<Action>)
    requires trace != []
    ensures SetsOne(trace) <==> SetsBarrier(trace[0]) || SetsOne(trace[1..])
  {
    if SetsOne(trace) && !SetsBarrier(trace[0]) {
      var i :| 0 <= i < |trace| && SetsBarrier(trace[i]);
      assert SetsBarrier(trace[1..][i - 1]);
    }
    if SetsOne(trace[1..]) {
      var i :| 0 <= i < |trace[1..]| && SetsBarrier(trace[1..][i]);
      assert SetsBarrier(trace[i + 1]);
    }
  }

  lemma {:induction false} RunStillWaits(s: Pair, last: Barrier, ever: bool, trace: seq<Action>, t: Pair)
    returns (last': Barrier)
    requires StillWaits(s, last, ever) && Leads(ChecksFlag, s, trace, t)
    ensures StillWaits(t, last', ever || SetsOne(trace))
    decreases |trace|
  {
    if trace == [] {
      last' := last;
    } else {
      SetsOneOf(trace);
      var next := StepStillWaits(s, last, ever, trace[0]);
      last' := RunStillWaits(s.Do(trace[0]), next, ever || SetsBarrier(trace[0]), trace[1..], t);
    }
  }

  lemma StartBelieves(s: Pair)
    requires Start(s)
    ensures Believes(s.left, Ready, false) && Shaded(s, Ready) == s
  {
  }

  lemma StartStillWaits(s: Pair)
    requires Start(s)
    ensures StillWaits(s, Ready, false)
  {
    StartIsInRounds(s);
    StartBelieves(s);
  }

  lemma RunFromReady(s: Pair, trace: seq<Action>, t: Pair) returns (last: Barrier)
    requires StillWaits(s, Ready, false) && Leads(ChecksFlag, s, trace, t)
    ensures StillWaits(t, last, SetsOne(trace))
  {
    last := RunStillWaits(s, Ready, false, trace, t);
  }

  lemma CheckedRuns(s: Pair, trace: seq<Action>, t: Pair) returns (last: Barrier)
    requires Start(s) && Leads(ChecksFlag, s, trace, t)
    ensures StillWaits(t, last, SetsOne(trace))
  {
    StartStillWaits(s);
    last := RunFromReady(s, trace, t);
  }

  // ----- what the flag is worth now -----

  lemma FlagInView(t: Pair, last: Barrier)
    requires RoundOk(ViewOf(Shade(t.left, last), t.right)) && t.left.session.syncFlag
    ensures ReadBytes(t.right) == Sum(t.left.log.issued, ByteWeight())
  {
    ShadedView(t.left, t.right, last);
    FlagMeansRead(ViewOf(Shade(t.left, last), t.right));
  }

  lemma FlagTells(t: Pair, x: Transfer)
    requires Good(t) && ReadBytes(t.right) == Sum(t.left.log.issued, ByteWeight()) && x in t.left.log.issued
    ensures x in t.right.log.read && x.data in t.right.log.received
  {
    BytesTellTransfers(t.left, t.right, x);
    var i :| 0 <= i < |t.right.log.read| && t.right.log.read[i] == x;
    assert t.right.log.received[i] == x.data;
  }

  /** Barrier safety with waits that end early: when the flag is up, every block sent so far was read by
      the peer, and the peer holds its bytes. */
  lemma FlagStaysSafe(s: Pair, trace: seq<Action>, t: Pair, x: Transfer)
    requires Start(s) && Leads(ChecksFlag, s, trace, t)
    requires t.left.session.syncFlag && x in t.left.log.issued
    ensures x in t.right.log.read && x.data in t.right.log.received
  {
    var last := CheckedRuns(s, trace, t);
    FlagInView(t, last);
    RunsAreGood(ChecksFlag, s, trace, t);
    FlagTells(t, x);
  }

  /** What the application has to check: the last round is over if and only if the flag is up, or there
      was no round yet. */
  lemma RoundOverIffFlag(s: Pair, trace: seq<Action>, t: Pair)
    requires Start(s) && Leads(ChecksFlag, s, trace, t)
    ensures RoundOver(t.left, t.right) <==> t.left.session.syncFlag || !SetsOne(trace)
  {
    var last := CheckedRuns(s, trace, t);
    RoundOverIff(t.left, t.right, last);
  }

  /** Runs in which no wait ends early are among these. */
  lemma RoundsCheck(s: Pair, a: Action)
    requires InRounds(s) && ByRounds(s, a)
    ensures ChecksFlag(s, a)
  {
    RoundOverIff(s.left, s.right, s.left.app.barrier);
    assert Shade(s.left, s.left.app.barrier) == s.left;
  }

  lemma DoneUnshaded(t: Pair)
    requires Good(t) && t.left.app.barrier.Open? && RoundOk(ViewOf(t.left, t.right))
    ensures t.left.session.syncFlag || Acks(t.left, t.right) > 0 <==> RoundDone(t.left, t.right)
  {
    DoneIff(t);
  }

  /** And whenever it waits, the flag is up or its SYNC_ACK on the way if and only if the round is done. */
  lemma CheckedReturnIsSafeIff(s: Pair, trace: seq<Action>, t: Pair)
    requires Start(s) && Leads(ChecksFlag, s, trace, t) && t.left.app.barrier.Open?
    ensures t.left.session.syncFlag || Acks(t.left, t.right) > 0 <==> RoundDone(t.left, t.right)
  {
    var last := CheckedRuns(s, trace, t);
    assert Shade(t.left, t.left.app.barrier) == t.left;
    RunsAreGood(ChecksFlag, s, trace, t);
    DoneUnshaded(t);
  }
}
