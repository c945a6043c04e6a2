/** The way benchmark.cpp uses a connection: rounds of barrier, send, wait, and then close. Waiting for
    the flag is enough to make close safe. */
module BarrierThenClose {
  import opened Bags
  import opened Message
  import opened Protocol
  import opened Frames
  import opened Ledger
  import opened Lifecycle
  import opened Stages
  import opened Counting
  import opened Reachable
  import opened Progress
  import opened Delivery
  import opened CloseHandshake
  import B = Barriers

  /** Everything sent was read: nothing is queued or requested any more. */
  lemma NoneBeforeReading(p: Peer, q: Peer)
    requires Conserved(p, q) && ReadBytes(q) == Sum(p.log.issued, ByteWeight())
    ensures Staying(p, q, Queued, ByteWeight()) == 0 && Staying(p, q, Requested, ByteWeight()) == 0
  {
    LogsShrink(p, q, ByteWeight());
    assert Accounted(p, q, Queued, ByteWeight()) && Accounted(p, q, Requested, ByteWeight());
  }

  ghost function Bytes(s: Stage): Gauge { OnStage(s, ByteWeight()) }

  lemma AsksAreSyncsOrRequests(v: Weighting, w: Weighting)
    requires v == SenderGauge(Bytes(Queued)) && w == SenderGauge(Bytes(Requested))
    ensures Lighter(AskHere(), Both(B.SyncHere(None), Both(v, w)))
  {
  }

  lemma AsksHere(p: Peer, v: Weighting, w: Weighting)
    requires v == SenderGauge(Bytes(Queued)) && w == SenderGauge(Bytes(Requested))
    ensures Weight(p, AskHere()) <= Weight(p, B.SyncHere(None)) + Weight(p, v) + Weight(p, w)
  {
    WeightAdds(p, v, w);
    WeightAdds(p, B.SyncHere(None), Both(v, w));
    AsksAreSyncsOrRequests(v, w);
    WeightMonotone(p, AskHere(), Both(B.SyncHere(None), Both(v, w)));
  }

  lemma AsksThere(q: Peer, w: Weighting)
    requires w == ReceiverGauge(Bytes(Requested))
    ensures Weight(q, AskThere()) <= Weight(q, B.SyncThere(None)) + Weight(q, w)
  {
    WeightAdds(q, B.SyncThere(None), w);
    WeightMonotone(q, AskThere(), Both(B.SyncThere(None), w));
  }

  lemma NothingAsked(p: Peer, q: Peer)
    requires B.Syncs(p, q, None) == 0
    requires Staying(p, q, Queued, ByteWeight()) == 0 && Staying(p, q, Requested, ByteWeight()) == 0
    ensures Asks(p, q) == 0
  {
    AsksHere(p, SenderGauge(Bytes(Queued)), SenderGauge(Bytes(Requested)));
    AsksThere(q, ReceiverGauge(Bytes(Requested)));
  }

  lemma FlagMeansQuiet(v: B.View)
    requires B.RoundOk(v) && (v.flag || v.barrier == Ready)
    ensures v.syncs == 0 && v.read == v.sent
  {
  }

  /** When the flag is up, or was and the round is over, every request was handled by the peer: this is
      what close asks for. */
  lemma FlagPermitsClose(s: Pair, trace: seq<Action>, t: Pair)
    requires Start(s) && Leads(B.ByRounds, s, trace, t)
    requires t.left.session.syncFlag || t.left.app.barrier == Ready
    ensures Asks(t.left, t.right) == 0
  {
    B.RoundRuns(s, trace, t);
    FlagMeansQuiet(B.ViewOf(t.left, t.right));
    NoneBeforeReading(t.left, t.right);
    NothingAsked(t.left, t.right);
  }

  // ----- the benchmark program -----

  /** The left application uses rounds and closes once, with the flag up and for good; the right one only
      receives. */
  ghost const Benchmark: Rule := (s: Pair, a: Action) =>
    if a.side == Right then OnlyReceives(a.step) && !a.step.ReturnEarly?
    else if a.step.CloseEndpoint? then !s.left.app.closeCalled && s.left.session.syncFlag
    else if s.left.app.closeCalled then !a.step.SendData? && !a.step.SetSyncBarrier?
    else B.BarrierStep(s.left, a.step)

  /** Until close is called the program is in its rounds. */
  ghost predicate Running(s: Pair) { InClose(s) && (!s.left.app.closeCalled ==> B.InRounds(s)) }

  lemma FlagLetsClose(s: Pair)
    requires B.InRounds(s) && s.left.session.syncFlag
    ensures Asks(s.left, s.right) == 0
  {
    FlagMeansQuiet(B.ViewOf(s.left, s.right));
    NoneBeforeReading(s.left, s.right);
    NothingAsked(s.left, s.right);
  }

  lemma BenchmarkObeys(s: Pair, a: Action)
    requires Running(s) && s.CanDo(a) && Benchmark(s, a)
    ensures OneCloser(s, a)
  {
    if a.side == Left && a.step.CloseEndpoint? { FlagLetsClose(s); }
  }

  lemma CalledOnlyByClose(s: Pair, a: Action)
    requires s.CanDo(a)
    ensures s.Do(a).left.app.closeCalled <==> s.left.app.closeCalled || (a.side == Left && a.step.CloseEndpoint?)
  {
    if a.side == Left { ActCounts(s.left, s.right, a.step); } else { ReactRest(s.right, s.left, a.step); }
  }

  lemma InRoundsUntilClose(s: Pair, a: Action)
    requires Benchmark(s, a) && !s.left.app.closeCalled && !(a.side == Left && a.step.CloseEndpoint?)
    ensures B.ByRounds(s, a)
  {
  }

  lemma StaysRunning(s: Pair, a: Action)
    requires Running(s) && s.CanDo(a) && Benchmark(s, a)
    ensures OneCloser(s, a) && Running(s.Do(a))
  {
    BenchmarkObeys(s, a);
    StepKeepsClose(s, a);
    CalledOnlyByClose(s, a);
    if !s.Do(a).left.app.closeCalled {
      InRoundsUntilClose(s, a);
      B.StepKeepsRounds(s, a);
    }
  }

  /** Every run of the benchmark program is one of the close discipline. */
  lemma {:induction false} BenchmarkCloses(s: Pair, trace: seq<Action>, t: Pair)
    requires Running(s) && Leads(Benchmark, s, trace, t)
    ensures Leads(OneCloser, s, trace, t)
    decreases |trace|
  {
    if trace != [] {
      StaysRunning(s, trace[0]);
      BenchmarkCloses(s.Do(trace[0]), trace[1..], t);
    }
  }

  lemma StartRuns(s: Pair)
    requires Start(s)
    ensures Running(s)
  {
    StartInClose(s);
    B.StartIsInRounds(s);
  }

  lemma BenchmarkDiscipline(s: Pair, trace: seq<Action>, t: Pair)
    requires Start(s) && Leads(Benchmark, s, trace, t)
    ensures Leads(OneCloser, s, trace, t)
  {
    StartRuns(s);
    BenchmarkCloses(s, trace, t);
  }

  /** So it loses nothing: no message is dropped, and when its session is closed, everything it sent was
      read by the peer and released. */
  lemma BenchmarkIsSafe(s: Pair, trace: seq<Action>, t: Pair)
    requires Start(s) && Leads(Benchmark, s, trace, t)
    ensures t.left.log.dropped == [] && t.right.log.dropped == []
    ensures t.right.session.status == Closed ==> t.left.session.status == Closed
    ensures t.left.session.status == Closed ==>
              forall x :: x in t.left.log.issued ==> x in t.left.log.freed && x.data in t.right.log.received
  {
    BenchmarkDiscipline(s, trace, t);
    ClosedMeansDone(s, trace, t);
  }

  /** And once it called close, a run that can go no further has closed both sessions. */
  lemma BenchmarkEnds(s: Pair, trace: seq<Action>, t: Pair)
    requires Start(s) && Leads(Benchmark, s, trace, t)
    requires Stuck(t) && t.left.app.closeCalled && HasMemory(t.left) && HasMemory(t.right)
    ensures t.left.session.status == Closed && t.right.session.status == Closed
  {
    BenchmarkDiscipline(s, trace, t);
    CloseCompletes(s, trace, t);
  }
}
