/** channel_cv_ with notify_one loses no wakeup (src/rdma_channel.cpp). */
module Wakeups {
  import opened Protocol
  import opened System

  /** Whenever the lock is free and a worker sleeps, another worker is awake to take the lock. */
  ghost predicate NoLostWakeup(p: Peer) {
    && |p.pools.awake| + |p.pools.asleep| <= DEFAULT_WORK_POOL_THREADS
    && (p.lanes.MayLock() && p.pools.asleep != [] ==> p.pools.awake != [])
  }

  ghost predicate SameWorkers(p: Peer, r: Peer) {
    r.pools.awake == p.pools.awake && r.pools.asleep == p.pools.asleep && r.lanes == p.lanes
  }

  lemma MessageLeavesWorkers(p: Peer, intent: Task, round: nat)
    ensures SameWorkers(p, ProcessAttachedMessage(p, intent, round))
  {
  }

  lemma ProcessLeavesWorkers(p: Peer, e: Completion)
    ensures SameWorkers(p, Process(p, e))
  {
    if e.RecvWrite? { MessageLeavesWorkers(p, e.intent, e.round); }
  }

  lemma CheckKeepsWorkers(p: Peer, k: nat)
    requires k < |p.pools.awake| && NoLostWakeup(p)
    ensures NoLostWakeup(CheckAndRun(p, k))
  {
  }

  lemma UnlockKeepsWorkers(p: Peer, q: Peer, k: nat, woken: nat)
    requires Enabled(p, q, UnlockTask(k, woken)) && NoLostWakeup(p)
    ensures NoLostWakeup(RunUnlock(p, k, woken))
  {
  }

  lemma StepsKeepWorkers(p: Peer, q: Peer, step: Step)
    requires Enabled(p, q, step) && NoLostWakeup(p) && !step.CheckTask? && !step.UnlockTask?
    ensures NoLostWakeup(Act(p, q, step))
  {
    if step.Handle? { ProcessLeavesWorkers(Taken(p), p.queue.batch[0]); }
  }

  lemma NoLostWakeupKept(p: Peer, q: Peer, step: Step)
    requires Enabled(p, q, step)
    requires NoLostWakeup(p) && NoLostWakeup(q)
    ensures NoLostWakeup(Act(p, q, step)) && NoLostWakeup(React(p, q, step))
  {
    match step
    case CheckTask(k) => CheckKeepsWorkers(p, k);
    case UnlockTask(k, woken) => UnlockKeepsWorkers(p, q, k, woken);
    case _ => StepsKeepWorkers(p, q, step);
  }
}
