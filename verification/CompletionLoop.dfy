/** The arm / wait / re-arm / poll loop never sleeps on completions (src/rdma_session.cpp). */
module CompletionLoop {
  import opened Protocol
  import opened System

  /** One-shot arming: without a pending event the queue is armed, unless the loop is between taking an
      event and re-arming; and a loop that waits with completions queued has an event coming. */
  ghost predicate NothingStranded<E(!new)>(q: Queue<E>) {
    && |q.cq| <= CQ_SIZE
    && (q.loop != Waiting ==> q.batch == [])
    && (q.loop != Woken ==> q.events > 0 || q.armed)
    && (q.loop == Waiting && q.cq != [] ==> q.events > 0)
  }

  /** Completions may arrive wherever the loop stands. */
  lemma CompleteStrandsNothing<E(!new)>(q: Queue<E>, e: E)
    requires NothingStranded(q) && |q.cq| < CQ_SIZE
    ensures NothingStranded(q.Complete(e))
  {
  }

  /** Because re-arming precedes a poll at least as large as the queue, a poll empties the queue. */
  lemma PollDrains<E(!new)>(q: Queue<E>)
    requires |q.cq| <= CQ_SIZE
    ensures q.Poll() == q.(batch := q.cq, cq := [], loop := Waiting)
  {
    assert q.cq[..|q.cq|] == q.cq && q.cq[|q.cq|..] == [];
  }

  lemma ProcessLeavesQueue(p: Peer, e: Completion)
    ensures Process(p, e).queue == p.queue
  {
  }

  lemma LoopStrandsNothing(p: Peer, q: Peer, step: Step)
    requires Enabled(p, q, step) && NothingStranded(p.queue)
    ensures NothingStranded(Act(p, q, step).queue)
  {
    match step
    case Handle => ProcessLeavesQueue(Taken(p), p.queue.batch[0]);
    case PollQueue => PollDrains(p.queue);
    case WriteCompletes(k) => CompleteStrandsNothing(p.queue, WriteDone(p.card.written[k]));
    case ReadCompletes(k, _) =>
      CompleteStrandsNothing(p.queue, ReadDone(p.card.fetches[k].dest, p.card.fetches[k].x));
    case _ =>
  }

  lemma DeliveryStrandsNothing(p: Peer, q: Peer, step: Step)
    requires Enabled(p, q, step) && NothingStranded(q.queue)
    ensures NothingStranded(React(p, q, step).queue)
  {
  }

  lemma NothingStrandedKept(p: Peer, q: Peer, step: Step)
    requires Enabled(p, q, step)
    requires NothingStranded(p.queue) && NothingStranded(q.queue)
    ensures NothingStranded(Act(p, q, step).queue) && NothingStranded(React(p, q, step).queue)
  {
    LoopStrandsNothing(p, q, step);
    DeliveryStrandsNothing(p, q, step);
  }
}
