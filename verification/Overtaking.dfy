/** A round that never ends. The application sets a barrier and sends a block; two workers start, the one
    with the READ_REQUEST gets the locks before the one with the SYNC_REQUEST, and the block is counted
    before the target is set. This may happen in any round, to any block. */
module Overtaking {
  import opened Bags
  import opened Words
  import opened Message
  import opened Protocol
  import opened System
  import opened Ledger
  import opened LockTokens
  import opened CompletionLoop
  import opened Counting
  import opened Credits
  import opened Reachable
  import opened Progress
  import opened Delivery
  import opened Barriers
  import opened Schedules
  import T = Tables

  ghost function Sent(p: Peer): nat { Sum(p.log.issued, ByteWeight()) }

  /** A barrier of `n` bytes and a block `x` within it. */
  ghost predicate Fits(p: Peer, n: u64, x: Transfer) {
    |x.data| <= n < INT_LIMIT && Sendable(p, x)
  }

  /** Between rounds, at rest, and with room for the next. */
  ghost predicate BetweenRounds(t: Pair, n: u64, x: Transfer) {
    && Resting(t.left) && Resting(t.right)
    && t.left.app.barrier == Ready && Fits(t.left, n, x)
  }

  lemma OwnStep(p: Peer, step: Step)
    requires !External(step)
    ensures BarrierStep(p, step)
  {
  }

  lemma RoundsAreFree()
    ensures Free(ByRounds)
  {
    forall s: Pair, a: Action | !External(a.step) ensures ByRounds(s, a) {
      OwnStep(if a.side == Left then s.left else s.right, a.step);
    }
  }

  /** The application's part. */
  lemma Asks(p: Peer, q: Peer, n: u64, x: Transfer) returns (p1: Peer, p2: Peer)
    requires Resting(p) && p.app.barrier == Ready && Fits(p, n, x)
    ensures Enabled(p, q, SetSyncBarrier(n)) && BarrierStep(p, SetSyncBarrier(n)) && p1 == Act(p, q, SetSyncBarrier(n))
    ensures Enabled(p1, q, SendData(x)) && BarrierStep(p1, SendData(x)) && p2 == Act(p1, q, SendData(x))
    ensures p2.app.barrier == Open(n, Sent(p)) && !p2.session.syncFlag && p2.log.issued == p.log.issued + [x]
    ensures p2.pools == Pools([Task.Sync(n), Request(x)], [], [], [], []) && p2.store.heap == map[x.ptr := Source(x)]
    ensures p2.lanes == p.lanes && p2.card == p.card && p2.queue == p.queue
  {
    p1 := Act(p, q, SetSyncBarrier(n));
    p2 := Act(p1, q, SendData(x));
    assert p2.store.heap == map[x.ptr := Source(x)];
  }

  /** The two workers start in the order of the queue. */
  lemma Starts(p: Peer, q: Peer, n: u64, x: Transfer) returns (p1: Peer, p2: Peer)
    requires p.pools == Pools([Task.Sync(n), Request(x)], [], [], [], [])
    ensures Enabled(p, q, StartTask(0)) && p1 == Act(p, q, StartTask(0))
    ensures Enabled(p1, q, StartTask(0)) && p2 == Act(p1, q, StartTask(0))
    ensures p2 == p.(pools := Pools([], [Task.Sync(n), Request(x)], [], [], []))
  {
    p1 := Act(p, q, StartTask(0));
    assert p1.pools == Pools([Request(x)], [Task.Sync(n)], [], [], []);
    p2 := Act(p1, q, StartTask(0));
  }

  /** The left peer waits for a round whose SYNC_REQUEST is still with a worker. */
  ghost predicate Waits(p: Peer, n: u64, base: nat, x: Transfer) {
    && p.app.barrier == Open(n, base) && !p.session.syncFlag
    && Task.Sync(n) in p.pools.awake && p.store.heap == map[x.ptr := Source(x)]
  }

  lemma LeftAsks(t: Pair, n: u64, x: Transfer) returns (p: Peer)
    requires Resting(t.left) && t.left.app.barrier == Ready && Fits(t.left, n, x)
    ensures Reached(ByRounds, t, Pair(p, t.right))
    ensures p.app.barrier == Open(n, Sent(t.left)) && !p.session.syncFlag && p.log.issued == t.left.log.issued + [x]
    ensures p.pools.awake == [Task.Sync(n), Request(x)] && AboutToSend(p, x, 1)
  {
    var p1, p2 := Asks(t.left, t.right, n, x);
    RoundsAreFree();
    ReachedAtOnce(ByRounds, t);
    GoLeft(ByRounds, t, t.left, t.right, SetSyncBarrier(n));
    GoLeft(ByRounds, t, p1, t.right, SendData(x));
    var p3, p4 := Starts(p2, t.right, n, x);
    GoLeft(ByRounds, t, p2, t.right, StartTask(0));
    GoLeft(ByRounds, t, p3, t.right, StartTask(0));
    p := p4;
  }

  lemma LeftSends(t: Pair, n: u64, x: Transfer) returns (p: Peer)
    requires Resting(t.left) && t.left.app.barrier == Ready && Fits(t.left, n, x)
    ensures Reached(ByRounds, t, Pair(p, t.right)) && Waits(p, n, Sent(t.left), x)
    ensures p.log.issued == t.left.log.issued + [x]
    ensures |p.card.wire| == 1 && Schedules.Gathered(p.card.wire[0], x)
  {
    var p1 := LeftAsks(t, n, x);
    RoundsAreFree();
    p := RequestGoes(ByRounds, t, p1, t.right, x, 1);
    assert p.pools.awake == [Task.Sync(n)];
  }

  /** The receiver accepts and posts its read ... */
  lemma AcceptsRequest(q: Peer, p: Peer, x: Transfer, round: nat) returns (r: Peer)
    requires q.queue == Queue([], [RecvWrite(Request(x), round)], true, 0, Waiting)
    requires q.session.status == Work && Parse(q.lanes.incoming) == x.Describe() && q.pools.accepts == []
    ensures Enabled(q, p, Handle) && r == Act(q, p, Handle) && r.pools.accepts == [Accept(x.Describe(), x)]
    ensures r.queue == EMPTY_QUEUE && r.session == q.session && r.log.read == q.log.read && r.counts == q.counts
    ensures r.store == q.store && r.card.fetches == q.card.fetches
  {
    r := ProcessReadRequest(Recv(Taken(q)), Request(x), round);
    assert r == Act(q, p, Handle);
  }

  lemma OpensDestination(q: Peer, p: Peer, x: Transfer) returns (r: Peer)
    requires q.pools.accepts == [Accept(x.Describe(), x)] && q.card.fetches == []
    requires q.store == Store(map[], map[], map[])
    ensures Enabled(q, p, AcceptTask(0, 1, 2)) && r == Act(q, p, AcceptTask(0, 1, 2))
    ensures r.card.fetches == [Fetch(1, x.Describe(), x)] && r.store.heap == map[1 := Dest(2, |x.data|, [], x)]
    ensures r.queue == q.queue && r.session == q.session && r.log.read == q.log.read && r.counts == q.counts
  {
    r := RunAccept(q, 0, 1, 2);
    assert r.store.heap == map[1 := Dest(2, |x.data|, [], x)];
  }

  lemma Opens(q: Peer, p: Peer, x: Transfer, round: nat) returns (q1: Peer, q2: Peer)
    requires q.queue == Queue([], [RecvWrite(Request(x), round)], true, 0, Waiting)
    requires q.session.status == Work && Parse(q.lanes.incoming) == x.Describe()
    requires q.pools.accepts == [] && q.store == Store(map[], map[], map[]) && q.card.fetches == []
    ensures Enabled(q, p, Handle) && q1 == Act(q, p, Handle)
    ensures Enabled(q1, p, AcceptTask(0, 1, 2)) && q2 == Act(q1, p, AcceptTask(0, 1, 2))
    ensures q2.card.fetches == [Fetch(1, x.Describe(), x)] && q2.queue == EMPTY_QUEUE && q2.session == q.session
    ensures q2.log.read == q.log.read && q2.counts == q.counts && q2.store.heap == map[1 := Dest(2, |x.data|, [], x)]
  {
    q1 := AcceptsRequest(q, p, x, round);
    q2 := OpensDestination(q1, p, x);
  }

  /** ... which completes ... */
  lemma Reads(q: Peer, p: Peer, x: Transfer) returns (q1: Peer)
    requires p.store.heap == map[x.ptr := Source(x)] && q.card.fetches == [Fetch(1, x.Describe(), x)]
    requires q.queue == EMPTY_QUEUE && q.store.heap == map[1 := Dest(2, |x.data|, [], x)]
    ensures Enabled(q, p, ReadCompletes(0, x.ptr)) && q1 == Act(q, p, ReadCompletes(0, x.ptr))
    ensures q1.queue == Queue([ReadDone(1, x)], [], false, 1, Waiting) && q1.session == q.session
    ensures q1.log.read == q.log.read && q1.counts == q.counts && q1.store.SizeAt(1) == |x.data|
  {
    q1 := Act(q, p, ReadCompletes(0, x.ptr));
  }

  /** ... and is counted. */
  lemma CountsIt(q: Peer, p: Peer, x: Transfer) returns (q1: Peer)
    requires q.queue == Queue([], [ReadDone(1, x)], true, 0, Waiting) && q.store.SizeAt(1) == |x.data|
    ensures Enabled(q, p, Handle) && q1 == Act(q, p, Handle) && q1.log.read == Append(q.log.read, x)
    ensures Hits(q.counts, x) ==> SendPacket(SyncAck, 0) in q1.card.wire
  {
    q1 := ProcessReadSuccess(Taken(q), 1, x);
    CountsAndAnswers(Taken(q), x);
  }

  lemma CountsAndAnswers(q: Peer, x: Transfer)
    requires q.store.SizeAt(1) == |x.data|
    ensures var r := ProcessReadSuccess(q, 1, x);
            r.log.read == Append(q.log.read, x) && (Hits(q.counts, x) ==> SendPacket(SyncAck, 0) in r.card.wire)
  {
  }

  /** Counting `x` meets the target. */
  predicate Hits(counts: Counts, x: Transfer) { (counts.total + |x.data|) % TWO_TO_THE_64 == counts.target }

  lemma RightAccepts(t: Pair, n: u64, x: Transfer) returns (p: Peer, q: Peer)
    requires BetweenRounds(t, n, x)
    ensures Reached(ByRounds, t, Pair(p, q)) && Waits(p, n, Sent(t.left), x) && p.log.issued == t.left.log.issued + [x]
    ensures q.card.fetches == [Fetch(1, x.Describe(), x)] && q.queue == EMPTY_QUEUE && q.session.status == Work
    ensures q.store.heap == map[1 := Dest(2, |x.data|, [], x)]
    ensures q.log.read == t.right.log.read && q.counts == t.right.counts
  {
    var p1 := LeftSends(t, n, x);
    RoundsAreFree();
    var q1, q2;
    p, q1 := RequestArrives(ByRounds, t, p1, t.right, x);
    q2, q := Opens(q1, p, x, p1.card.wire[0].round);
    GoRight(ByRounds, t, p, q1, Handle);
    GoRight(ByRounds, t, p, q2, AcceptTask(0, 1, 2));
  }

  lemma RightCounts(t: Pair, n: u64, x: Transfer) returns (u: Pair)
    requires BetweenRounds(t, n, x)
    ensures Reached(ByRounds, t, u) && Waits(u.left, n, Sent(t.left), x) && u.left.log.issued == t.left.log.issued + [x]
    ensures u.right.log.read == Append(t.right.log.read, x)
    ensures Hits(t.right.counts, x) ==> SendPacket(SyncAck, 0) in u.right.card.wire
  {
    var p, q := RightAccepts(t, n, x);
    RoundsAreFree();
    var q1 := Reads(q, p, x);
    GoRight(ByRounds, t, p, q, ReadCompletes(0, x.ptr));
    var q2 := LoopPolls(ByRounds, t, p, q1, ReadDone(1, x));
    var q3 := CountsIt(q2, p, x);
    GoRight(ByRounds, t, p, q2, Handle);
    u := Pair(p, q3);
  }

  // ----- such a round is lost -----

  lemma SyncOutstanding(p: Peer, q: Peer, n: u64)
    requires Task.Sync(n) in p.pools.awake
    ensures Syncs(p, q, None) > 0
  {
    Outweighed(p.pools.awake, SyncHere(None).awake, Task.Sync(n));
  }

  lemma ReadTooEarly(v: View)
    requires v.barrier.Open? && !v.flag && v.syncs > 0 && v.read > v.barrier.base
    ensures Overtaken(v)
  {
  }

  lemma ViewShows(p: Peer, q: Peer)
    ensures var v := ViewOf(p, q);
            v.barrier == p.app.barrier && v.flag == p.session.syncFlag
            && v.syncs == Syncs(p, q, None) && v.read == ReadBytes(q)
  {
  }

  lemma NowHopeless(u: Pair, n: u64, base: nat, x: Transfer)
    requires InRounds(u) && Waits(u.left, n, base, x) && ReadBytes(u.right) > base
    ensures Hopeless(u)
  {
    SyncOutstanding(u.left, u.right, n);
    ViewShows(u.left, u.right);
    ReadTooEarly(ViewOf(u.left, u.right));
  }

  /** Between two rounds all bytes sent were read. */
  lemma AllReadBetween(t: Pair)
    requires InRounds(t) && t.left.app.barrier == Ready
    ensures ReadBytes(t.right) == Sent(t.left)
  {
    assert RoundOk(ViewOf(t.left, t.right));
  }

  lemma StaysInRounds(s: Pair, t: Pair)
    requires InRounds(s) && Reached(ByRounds, s, t)
    ensures InRounds(t)
  {
    var trace :| Leads(ByRounds, s, trace, t);
    RoundsGoOn(s, trace, t);
  }

  /** In no continuation does the flag come up. */
  ghost predicate Hangs(t: Pair) { forall more, u :: Leads(ByRounds, t, more, u) ==> !u.left.session.syncFlag }

  lemma NeverAgain(t: Pair)
    requires Hopeless(t)
    ensures Hangs(t)
  {
    forall more, u | Leads(ByRounds, t, more, u) ensures !u.left.session.syncFlag { OvertakenForever(t, more, u); }
  }

  lemma ReadMore(q: Peer, r: Peer, x: Transfer)
    requires r.log.read == Append(q.log.read, x)
    ensures ReadBytes(r) == ReadBytes(q) + |x.data| && x in r.log.read
  {
  }

  lemma Overtakes(t: Pair, n: u64, x: Transfer) returns (u: Pair)
    requires BetweenRounds(t, n, x) && ReadBytes(t.right) == Sent(t.left)
    ensures Reached(ByRounds, t, u) && Waits(u.left, n, Sent(t.left), x) && ReadBytes(u.right) > Sent(t.left)
    ensures u.left.log.issued == t.left.log.issued + [x] && x in u.right.log.read
  {
    u := RightCounts(t, n, x);
    ReadMore(t.right, u.right, x);
  }

  lemma ReachedInRounds(s: Pair, t: Pair)
    requires Start(s) && Reached(ByRounds, s, t)
    ensures InRounds(t)
  {
    var trace :| Leads(ByRounds, s, trace, t);
    RoundRuns(s, trace, t);
  }

  lemma Condemned(t: Pair, u: Pair, n: u64, base: nat, x: Transfer)
    requires InRounds(t) && Reached(ByRounds, t, u) && Waits(u.left, n, base, x) && ReadBytes(u.right) > base
    ensures Hangs(u)
  {
    StaysInRounds(t, u);
    NowHopeless(u, n, base, x);
    NeverAgain(u);
  }

  lemma BetweenAllRead(s: Pair, t: Pair)
    requires Start(s) && Reached(ByRounds, s, t) && t.left.app.barrier == Ready
    ensures ReadBytes(t.right) == Sent(t.left)
  {
    ReachedInRounds(s, t);
    AllReadBetween(t);
  }

  lemma CondemnedFromStart(s: Pair, t: Pair, u: Pair, n: u64, base: nat, x: Transfer)
    requires Start(s) && Reached(ByRounds, s, t) && Reached(ByRounds, t, u)
    requires Waits(u.left, n, base, x) && ReadBytes(u.right) > base
    ensures Hangs(u)
  {
    ReachedInRounds(s, t);
    Condemned(t, u, n, base, x);
  }

  /** Whenever the two peers rest between rounds, for every barrier and every block within it there is a
      run, within the rules of the rounds, that sets the barrier, sends the block and has it read, and
      after which the flag never comes up again, whatever happens. */
  lemma OvertakingHappens(s: Pair, t: Pair, n: u64, x: Transfer) returns (u: Pair)
    requires Start(s) && Reached(ByRounds, s, t) && BetweenRounds(t, n, x)
    ensures Reached(ByRounds, t, u) && Hangs(u)
    ensures u.left.app.barrier == Open(n, Sent(t.left)) && u.left.log.issued == t.left.log.issued + [x]
    ensures x in u.right.log.read
  {
    BetweenAllRead(s, t);
    u := Overtakes(t, n, x);
    CondemnedFromStart(s, t, u, n, Sent(t.left), x);
  }

  // ----- when the peers rest -----

  lemma QuietQueue(p: Peer)
    requires NothingStranded(p.queue) && CreditExact(p) && WorkLeft(p) == 0
    ensures p.queue == EMPTY_QUEUE && p.card.credits == POSTED_RECEIVES
  {
    NoWorkNoItems(p);
    CompletionsWeigh(p, Receives().completion);
  }

  lemma EmptyStore(store: Store, log: Log)
    requires T.TableExact(store, log) && store.table == map[] && store.heap == map[]
    ensures store == Store(map[], map[], map[])
  {
    assert store.rows.Keys == {};
  }

  lemma StoreRests(p: Peer, q: Peer)
    requires Inv(p, q) && Working(p) && Working(q) && WorkLeft(p) == 0 && WorkLeft(q) == 0
    ensures p.store == Store(map[], map[], map[])
  {
    NothingKept(p, q);
    EmptyStore(p.store, p.log);
  }

  lemma LanesRest(p: Peer, q: Peer)
    requires OneToken(p, q) && Working(p) && Working(q) && WorkLeft(p) == 0 && WorkLeft(q) == 0
    ensures p.lanes.MayLock() && p.pools == Pools([], [], [], [], []) && p.card == Card([], [], [], p.card.credits)
  {
    NoWorkNoItems(p);
    NoWorkNoItems(q);
    LocksFree(p, q);
  }

  lemma FinishedRests(p: Peer, q: Peer)
    requires Inv(p, q) && Working(p) && Working(q) && WorkLeft(p) == 0 && WorkLeft(q) == 0
    ensures Resting(p)
  {
    StoreRests(p, q);
    LanesRest(p, q);
    QuietQueue(p);
  }

  lemma StuckRests(t: Pair)
    requires BothWorking(t) && Stuck(t) && HasMemory(t.left) && HasMemory(t.right)
    ensures Resting(t.left) && Resting(t.right)
  {
    StuckIsFinished(t);
    FinishedRests(t.left, t.right);
    FinishedRests(t.right, t.left);
  }

  lemma RestsAfterRounds(s: Pair, t: Pair)
    requires Start(s) && Reached(ByRounds, s, t) && Stuck(t) && HasMemory(t.left) && HasMemory(t.right)
    ensures Resting(t.left) && Resting(t.right)
  {
    ReachedInRounds(s, t);
    StuckRests(t);
  }

  /** So every round may hang, however many went well before: from whatever state the rounds lead to, once
      the protocol has come to rest and the last round is over. */
  lemma EveryRoundMayHang(s: Pair, t: Pair, n: u64, x: Transfer) returns (u: Pair)
    requires Start(s) && Reached(ByRounds, s, t)
    requires Stuck(t) && HasMemory(t.left) && HasMemory(t.right) && t.left.app.barrier == Ready && Fits(t.left, n, x)
    ensures Reached(ByRounds, t, u) && Hangs(u)
    ensures u.left.log.issued == t.left.log.issued + [x] && x in u.right.log.read
  {
    RestsAfterRounds(s, t);
    u := OvertakingHappens(s, t, n, x);
  }

  const ONE_BYTE := Transfer(0, 1, 2, [7], 9)

  lemma FirstFits(p: Peer)
    requires Initial(p)
    ensures Resting(p) && p.app.barrier == Ready && Fits(p, 1, ONE_BYTE)
  {
  }

  lemma StartsBetween(s: Pair)
    requires Start(s)
    ensures BetweenRounds(s, 1, ONE_BYTE)
  {
    FirstFits(s.left);
    FirstFits(s.right);
  }

  /** The first round is one of them: a single byte is enough. */
  lemma FirstRoundMayHang(s: Pair) returns (u: Pair)
    requires Start(s)
    ensures Reached(ByRounds, s, u) && Hangs(u) && u.left.log.issued == s.left.log.issued + [ONE_BYTE]
  {
    StartsBetween(s);
    ReachedAtOnce(ByRounds, s);
    u := OvertakingHappens(s, s, 1, ONE_BYTE);
  }
}
