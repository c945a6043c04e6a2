/** The invariants of every run. */
module Reachable {
  import opened Protocol
  import opened System
  import opened CompletionLoop
  import opened Ledger
  import opened LockTokens
  import opened Wakeups
  import opened SharedBuffers
  import opened Lifecycle
  import opened Stages
  import opened Lifetimes
  import opened Counting
  import opened Credits

  /** What holds of one peer, and of a peer beside the other. */
  ghost predicate Sound(p: Peer) {
    && NothingStranded(p.queue) && NoLostWakeup(p) && BuffersIntact(p) && Numbered(p.log) && Consistent(p)
    && CountExact(p) && ReceivedIntact(p.log) && CreditExact(p)
  }

  ghost predicate Joined(p: Peer, q: Peer) { OneToken(p, q) && Conserved(p, q) }

  ghost predicate Inv(p: Peer, q: Peer) {
    Sound(p) && Sound(q) && Joined(p, q) && Joined(q, p)
  }

  lemma InvKept(p: Peer, q: Peer, step: Step)
    requires Enabled(p, q, step) && Inv(p, q)
    ensures Inv(Act(p, q, step), React(p, q, step))
  {
    NothingStrandedKept(p, q, step);
    NoLostWakeupKept(p, q, step);
    OneTokenKept(p, q, step);
    BuffersIntactKept(p, q, step);
    NumberedKept(p, q, step);
    ConservedKept(p, q, step);
    ActionConsistent(p, q, step);
    ReactionConsistent(p, q, step);
    CountExactKept(p, q, step);
    ReceivedIntactKept(p, q, step);
    CreditExactKept(p, q, step);
  }

  lemma EmptyWeighsNothing(p: Peer, v: Weighting)
    requires Initial(p)
    ensures Weight(p, v) == 0
  {
  }

  /** Nothing of any kind is pending on this peer. */
  ghost predicate Nothing(p: Peer) { forall v: Weighting :: Weight(p, v) == 0 }

  lemma StartsWithNothing(p: Peer)
    requires Initial(p)
    ensures Nothing(p)
  {
    forall v: Weighting ensures Weight(p, v) == 0 { EmptyWeighsNothing(p, v); }
  }

  lemma FirstConsistent(p: Peer)
    requires Nothing(p) && p.store == Store(map[], map[], map[])
    requires p.log.issued == [] && p.log.requested == [] && p.log.freed == []
    ensures Consistent(p)
  {
    forall d, x ensures DestinationsExact(p, d, x) {}
  }

  lemma FirstIntact(p: Peer)
    requires Nothing(p) && p.card.credits == POSTED_RECEIVES
    ensures BuffersIntact(p) && CreditExact(p)
  {
  }

  lemma FirstQueues(p: Peer)
    requires Initial(p)
    ensures NothingStranded(p.queue) && NoLostWakeup(p) && p.store == Store(map[], map[], map[])
    ensures p.log.issued == [] && p.log.requested == [] && p.log.freed == [] && p.card.credits == POSTED_RECEIVES
  {
  }

  lemma FirstLogs(p: Peer)
    requires Initial(p)
    ensures Numbered(p.log) && CountExact(p) && ReceivedIntact(p.log)
  {
  }

  lemma InitialSound(p: Peer)
    requires Initial(p)
    ensures Sound(p)
  {
    StartsWithNothing(p);
    FirstQueues(p);
    FirstLogs(p);
    FirstIntact(p);
    FirstConsistent(p);
  }

  lemma FirstTokens(p: Peer, q: Peer)
    requires Nothing(p) && Nothing(q) && p.lanes.local == Idle && p.lanes.remote == Idle
    ensures OneToken(p, q)
  {
    forall o ensures LocalToken(p, o) && RemoteToken(p, q, o) {}
  }

  lemma FirstAccounts(p: Peer, q: Peer)
    requires Nothing(p) && Nothing(q) && forall s :: LogOf(p, q, s) == []
    ensures Conserved(p, q)
  {
    forall s, f: Transfer -> nat | InFlight(s) ensures Accounted(p, q, s, f) {}
  }

  lemma FirstLogsEmpty(p: Peer, q: Peer)
    requires Initial(p) && Initial(q)
    ensures forall s :: LogOf(p, q, s) == []
    ensures p.lanes.local == Idle && p.lanes.remote == Idle
  {
  }

  lemma InitialJoined(p: Peer, q: Peer)
    requires Initial(p) && Initial(q)
    ensures Joined(p, q)
  {
    StartsWithNothing(p);
    StartsWithNothing(q);
    FirstLogsEmpty(p, q);
    FirstTokens(p, q);
    FirstAccounts(p, q);
  }

  // ----- runs -----

  datatype Side = Left | Right

  /** Which peer moved, and how. */
  datatype Action = Action(side: Side, step: Step)

  datatype Pair = Pair(left: Peer, right: Peer) {
    ghost predicate CanDo(a: Action) {
      if a.side == Left then Enabled(left, right, a.step) else Enabled(right, left, a.step)
    }

    ghost function Do(a: Action): Pair
      requires CanDo(a)
    {
      if a.side == Left then Pair(Act(left, right, a.step), React(left, right, a.step))
      else Pair(React(right, left, a.step), Act(right, left, a.step))
    }
  }

  /** What an application may do and when, beyond what is possible at all. */
  type Rule = (Pair, Action) -> bool

  /** `trace` leads from `s` to `t` and every step of it obeys the rule. */
  ghost predicate Leads(rule: Rule, s: Pair, trace: seq<Action>, t: Pair)
    decreases |trace|
  {
    if trace == [] then s == t
    else s.CanDo(trace[0]) && rule(s, trace[0]) && Leads(rule, s.Do(trace[0]), trace[1..], t)
  }

  ghost predicate Start(s: Pair) { Initial(s.left) && Initial(s.right) }

  ghost predicate Good(s: Pair) { Inv(s.left, s.right) }

  lemma StartIsGood(s: Pair)
    requires Start(s)
    ensures Good(s)
  {
    InitialSound(s.left);
    InitialSound(s.right);
    InitialJoined(s.left, s.right);
    InitialJoined(s.right, s.left);
  }

  lemma StepIsGood(s: Pair, a: Action)
    requires Good(s) && s.CanDo(a)
    ensures Good(s.Do(a))
  {
    if a.side == Left { InvKept(s.left, s.right, a.step); } else { InvKept(s.right, s.left, a.step); }
  }

  lemma {:induction false} StayGood(rule: Rule, s: Pair, trace: seq<Action>, t: Pair)
    requires Good(s) && Leads(rule, s, trace, t)
    ensures Good(t)
    decreases |trace|
  {
    if trace != [] {
      StepIsGood(s, trace[0]);
      StayGood(rule, s.Do(trace[0]), trace[1..], t);
    }
  }

  /** Every state of every run satisfies all the invariants. */
  lemma RunsAreGood(rule: Rule, s: Pair, trace: seq<Action>, t: Pair)
    requires Start(s) && Leads(rule, s, trace, t)
    ensures Good(t)
  {
    StartIsGood(s);
    StayGood(rule, s, trace, t);
  }

  /** Runs grow at their end, too. */
  lemma {:induction false} LeadsOn(rule: Rule, s: Pair, trace: seq<Action>, t: Pair, a: Action)
    requires Leads(rule, s, trace, t) && t.CanDo(a) && rule(t, a)
    ensures Leads(rule, s, trace + [a], t.Do(a))
    decreases |trace|
  {
    if trace == [] {
      assert trace + [a] == [a] && [a][1..] == [];
    } else {
      assert (trace + [a])[0] == trace[0] && (trace + [a])[1..] == trace[1..] + [a];
      LeadsOn(rule, s.Do(trace[0]), trace[1..], t, a);
    }
  }

  ghost predicate Reached(rule: Rule, s: Pair, t: Pair) { exists trace :: Leads(rule, s, trace, t) }

  /** A run within one rule is a run within any weaker one. */
  lemma {:induction false} LeadsWithin(rule: Rule, weaker: Rule, s: Pair, trace: seq<Action>, t: Pair)
    requires Leads(rule, s, trace, t) && forall s, a: Action :: rule(s, a) ==> weaker(s, a)
    ensures Leads(weaker, s, trace, t)
    decreases |trace|
  {
    if trace != [] { LeadsWithin(rule, weaker, s.Do(trace[0]), trace[1..], t); }
  }

  lemma ReachedFirst(rule: Rule, s: Pair, a: Action, t: Pair)
    requires s.CanDo(a) && rule(s, a) && Reached(rule, s.Do(a), t)
    ensures Reached(rule, s, t)
  {
    var trace :| Leads(rule, s.Do(a), trace, t);
    assert ([a] + trace)[1..] == trace;
    assert Leads(rule, s, [a] + trace, t);
  }

  lemma {:induction false} LeadsThrough(rule: Rule, s: Pair, trace: seq<Action>, t: Pair, u: Pair)
    requires Leads(rule, s, trace, t) && Reached(rule, t, u)
    ensures Reached(rule, s, u)
    decreases |trace|
  {
    if trace != [] {
      LeadsThrough(rule, s.Do(trace[0]), trace[1..], t, u);
      ReachedFirst(rule, s, trace[0], u);
    }
  }

  lemma ReachedThrough(rule: Rule, s: Pair, t: Pair, u: Pair)
    requires Reached(rule, s, t) && Reached(rule, t, u)
    ensures Reached(rule, s, u)
  {
    var trace :| Leads(rule, s, trace, t);
    LeadsThrough(rule, s, trace, t, u);
  }

  lemma ReachedAtOnce(rule: Rule, s: Pair)
    ensures Reached(rule, s, s)
  {
    assert Leads(rule, s, [], s);
  }

  lemma GoLeft(rule: Rule, s: Pair, p: Peer, q: Peer, step: Step)
    requires Reached(rule, s, Pair(p, q)) && Enabled(p, q, step) && rule(Pair(p, q), Action(Left, step))
    ensures Reached(rule, s, Pair(Act(p, q, step), React(p, q, step)))
  {
    var trace :| Leads(rule, s, trace, Pair(p, q));
    LeadsOn(rule, s, trace, Pair(p, q), Action(Left, step));
  }

  lemma GoRight(rule: Rule, s: Pair, p: Peer, q: Peer, step: Step)
    requires Reached(rule, s, Pair(p, q)) && Enabled(q, p, step) && rule(Pair(p, q), Action(Right, step))
    ensures Reached(rule, s, Pair(React(q, p, step), Act(q, p, step)))
  {
    var trace :| Leads(rule, s, trace, Pair(p, q));
    LeadsOn(rule, s, trace, Pair(p, q), Action(Right, step));
  }
}
