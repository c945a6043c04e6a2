/** What the session's thread does is a run of the system: handling a completion is the step Handle, and its
    queue is the system's queue (src/rdma_session.cpp). */
module SessionRuns {
  import opened Bags
  import opened Protocol
  import opened System
  import opened CompletionLoop
  import opened Reachable
  import opened Schedules
  import opened Sessions

  // ----- one completion, one step -----

  /** Handling what is next in the batch is the system's step. */
  lemma HandlingIsTheStep(p: Peer, q: Peer)
    requires Enabled(p, q, Handle)
    ensures HandleEntry(Taken(p), Done(p.queue.batch[0])) == Act(p, q, Handle)
  {
  }

  /** Finished sends and unsupported opcodes are no step at all. */
  lemma OthersAreIgnored(p: Peer, e: Entry)
    requires !e.Done?
    ensures HandleEntry(p, e) == p
  {
  }

  lemma MessageIgnoresQueue(p: Peer, intent: Task, round: nat, k: Queue<Completion>)
    ensures ProcessAttachedMessage(p.(queue := k), intent, round)
         == ProcessAttachedMessage(p, intent, round).(queue := k)
  {
  }

  lemma ProcessIgnoresQueue(p: Peer, e: Completion, k: Queue<Completion>)
    ensures Process(p.(queue := k), e) == Process(p, e).(queue := k)
  {
    if e.RecvWrite? { MessageIgnoresQueue(p, e.intent, e.round, k); }
  }

  lemma EntryIgnoresQueue(p: Peer, e: Entry, k: Queue<Completion>)
    ensures HandleEntry(p.(queue := k), e) == HandleEntry(p, e).(queue := k)
  {
    if e.Done? { ProcessIgnoresQueue(p, e.c, k); }
  }

  lemma {:induction false} HandlingIgnoresQueue(p: Peer, es: seq<Entry>, k: Queue<Completion>)
    ensures HandleAll(p.(queue := k), es) == HandleAll(p, es).(queue := k)
  {
    if es != [] {
      HandlingIgnoresQueue(p, es[..|es| - 1], k);
      EntryIgnoresQueue(HandleAll(p, es[..|es| - 1]), es[|es| - 1], k);
    }
  }

  /** The completions among the entries. */
  function Dones(es: seq<Entry>): seq<Completion> {
    if es == [] then [] else (if es[0].Done? then [es[0].c] else []) + Dones(es[1..])
  }

  lemma HandleFirst(p: Peer, e: Entry, es: seq<Entry>)
    ensures HandleAll(p, [e] + es) == HandleAll(HandleEntry(p, e), es)
  {
    HandleMore(p, [e], es);
    assert HandleAll(p, [e]) == HandleEntry(p, e) by {
      assert [e][..0] == [];
    }
  }

  // ----- a batch, a run -----

  /** The left peer with its batch handled. */
  ghost function Served(s: Pair, es: seq<Entry>): Pair {
    Pair(HandleAll(s.left, es).(queue := s.left.queue.(batch := [])), s.right)
  }

  lemma StepServes(s: Pair, c: Completion)
    requires s.left.queue.loop == Waiting && s.left.queue.batch != [] && s.left.queue.batch[0] == c
    ensures var a := Action(Left, Handle);
            s.CanDo(a) && s.Do(a).right == s.right && s.Do(a).left.queue == s.left.queue.Next()
            && s.Do(a).left == HandleEntry(s.left, Done(c)).(queue := s.left.queue.Next())
  {
    HandlingIsTheStep(s.left, s.right);
    EntryIgnoresQueue(s.left, Done(c), s.left.queue.Next());
    ProcessLeavesQueue(Taken(s.left), c);
  }

  lemma ServedFirst(s: Pair, c: Completion, es: seq<Entry>)
    requires s.left.queue.loop == Waiting && s.left.queue.batch != [] && s.left.queue.batch[0] == c
    ensures Served(s.Do(Action(Left, Handle)), es) == Served(s, [Done(c)] + es)
  {
    StepServes(s, c);
    HandleFirst(s.left, Done(c), es);
    HandlingIgnoresQueue(HandleEntry(s.left, Done(c)), es, s.left.queue.Next());
  }

  /** The steps Handle that a batch takes. */
  function Handles(n: nat): seq<Action> { if n == 0 then [] else [Action(Left, Handle)] + Handles(n - 1) }

  /** Handling a batch, entry by entry, is a run of the system that takes exactly that many steps, all of
      them Handle; entries that are no completions do not show. */
  lemma {:induction false} BatchIsRun(rule: Rule, s: Pair, es: seq<Entry>)
    requires Free(rule) && s.left.queue.loop == Waiting && s.left.queue.batch == Dones(es)
    ensures Leads(rule, s, Handles(|Dones(es)|), Served(s, es))
    decreases |es|
  {
    if es == [] {
      assert Served(s, es) == s;
    } else if es[0].Done? {
      var c, rest := es[0].c, es[1..];
      assert es == [Done(c)] + rest && Dones(es) == [c] + Dones(rest);
      StepServes(s, c);
      ServedFirst(s, c, rest);
      BatchIsRun(rule, s.Do(Action(Left, Handle)), rest);
      var trace := Handles(|Dones(es)|);
      assert trace[0] == Action(Left, Handle) && trace[1..] == Handles(|Dones(rest)|);
    } else {
      assert es == [es[0]] + es[1..] && Dones(es) == Dones(es[1..]);
      HandleFirst(s.left, es[0], es[1..]);
      OthersAreIgnored(s.left, es[0]);
      BatchIsRun(rule, s, es[1..]);
    }
  }

  /** So whatever the thread handles takes a reachable state of the system to a reachable state: what holds
      of every run holds of the session. */
  lemma ServingStaysReachable(rule: Rule, s: Pair, trace: seq<Action>, t: Pair, es: seq<Entry>)
    requires Free(rule) && Start(s) && Leads(rule, s, trace, t)
    requires t.left.queue.loop == Waiting && t.left.queue.batch == Dones(es)
    ensures Reached(rule, s, Served(t, es)) && Good(Served(t, es))
  {
    BatchIsRun(rule, t, es);
    LeadsThrough(rule, s, trace, t, Served(t, es));
    GoodWhenReached(rule, s, Served(t, es));
  }

  lemma GoodWhenReached(rule: Rule, s: Pair, t: Pair)
    requires Start(s) && Reached(rule, s, t)
    ensures Good(t)
  {
    var trace :| Leads(rule, s, trace, t);
    RunsAreGood(rule, s, trace, t);
  }

  // ----- one queue -----

  /** The session's queue as the system sees it. */
  ghost function AsQueue(q: Queue<Entry>): Queue<Completion> {
    Queue(Dones(q.cq), Dones(q.batch), q.armed, q.events, q.loop)
  }

  lemma {:induction false} DonesAppend(es: seq<Entry>, c: Completion)
    ensures Dones(es + [Done(c)]) == Dones(es) + [c]
  {
    if es == [] {
      assert es + [Done(c)] == [Done(c)];
    } else {
      var more, head := es + [Done(c)], if es[0].Done? then [es[0].c] else [];
      assert more[0] == es[0] && more[1..] == es[1..] + [Done(c)];
      DonesAppend(es[1..], c);
      assert Dones(more) == head + Dones(more[1..]);
      assert Dones(es) == head + Dones(es[1..]);
      assert head + (Dones(es[1..]) + [c]) == head + Dones(es[1..]) + [c];
    }
  }

  /** A completion that arrives, an event that is taken, re-arming, and the next of a batch are the same on
      both sides; a poll is, when the queue is no larger than CQ_SIZE. */
  lemma QueuesAgree(q: Queue<Entry>, c: Completion)
    ensures AsQueue(q.Complete(Done(c))) == AsQueue(q).Complete(c)
    ensures q.events > 0 ==> AsQueue(q.Wake()) == AsQueue(q).Wake()
    ensures AsQueue(q.Rearm()) == AsQueue(q).Rearm()
    ensures q.batch != [] && q.batch[0] == Done(c) ==> AsQueue(q.Next()) == AsQueue(q).Next()
  {
    DonesAppend(q.cq, c);
    if q.batch != [] && q.batch[0] == Done(c) {
      assert Dones(q.batch) == [c] + Dones(q.batch[1..]);
      assert Remove(q.batch, 0) == q.batch[1..];
      assert Remove(Dones(q.batch), 0) == Dones(q.batch)[1..];
    }
  }

  lemma {:induction false} FewerDones(es: seq<Entry>)
    ensures |Dones(es)| <= |es|
  {
    if es != [] { FewerDones(es[1..]); }
  }

  lemma PollsAgree(q: Queue<Entry>)
    requires |q.cq| <= CQ_SIZE
    ensures AsQueue(q.Poll()) == AsQueue(q).Poll()
  {
    FewerDones(q.cq);
    PollDrains(q);
    PollDrains(AsQueue(q));
  }
}
