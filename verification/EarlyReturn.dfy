/** wait_for_sync tests its flag once and then waits once (src/rdma_endpoint.cpp). Whatever wakes the
    caller lets it through, so a spurious wakeup ends the wait with nothing read. */
module EarlyReturn {
  import opened Bags
  import opened Words
  import opened Protocol
  import opened System
  import opened Reachable
  import opened Guarantees
  import opened Barriers
  import opened Schedules
  import opened Overtaking

  /** Rounds as before, but the wait may end early. */
  ghost const ByRoundsEarly: Rule := (s: Pair, a: Action) => ByRounds(s, a) || a.step.ReturnEarly?

  lemma Returns(p: Peer, q: Peer, n: u64, x: Transfer) returns (p1: Peer, p2: Peer, p3: Peer)
    requires Resting(p) && p.app.barrier == Ready && Fits(p, n, x)
    ensures Enabled(p, q, SetSyncBarrier(n)) && BarrierStep(p, SetSyncBarrier(n)) && p1 == Act(p, q, SetSyncBarrier(n))
    ensures Enabled(p1, q, SendData(x)) && BarrierStep(p1, SendData(x)) && p2 == Act(p1, q, SendData(x))
    ensures Enabled(p2, q, Step.ReturnEarly) && p3 == Act(p2, q, Step.ReturnEarly)
    ensures p3.app.barrier == Ready && p3.log.issued == p.log.issued + [x]
  {
    p1, p2 := Asks(p, q, n, x);
    p3 := Act(p2, q, Step.ReturnEarly);
  }

  lemma NotYetRead(t: Pair, x: Transfer)
    requires Good(t) && Sendable(t.left, x)
    ensures x !in t.right.log.read
  {
    LoggedOnce(t.left, t.right, x);
    Occurs(t.right.log.read, x);
  }

  /** Whenever the peers rest between rounds, for every barrier and every block within it: the barrier is
      set, the block is handed to send_data, the wait returns, and nothing of the block was read. */
  lemma EarlyReturnHappens(t: Pair, n: u64, x: Transfer) returns (u: Pair)
    requires Good(t) && BetweenRounds(t, n, x)
    ensures Reached(ByRoundsEarly, t, u) && u.left.app.barrier == Ready
    ensures x in u.left.log.issued && x !in u.right.log.read
  {
    NotYetRead(t, x);
    u := GoesOn(t, n, x);
  }

  lemma GoesOn(t: Pair, n: u64, x: Transfer) returns (u: Pair)
    requires BetweenRounds(t, n, x)
    ensures Reached(ByRoundsEarly, t, u) && u.left.app.barrier == Ready
    ensures u.left.log.issued == t.left.log.issued + [x] && u.right == t.right
  {
    var p1, p2, p3 := Returns(t.left, t.right, n, x);
    ReachedAtOnce(ByRoundsEarly, t);
    GoLeft(ByRoundsEarly, t, t.left, t.right, SetSyncBarrier(n));
    GoLeft(ByRoundsEarly, t, p1, t.right, SendData(x));
    GoLeft(ByRoundsEarly, t, p2, t.right, Step.ReturnEarly);
    u := Pair(p3, t.right);
  }
}
