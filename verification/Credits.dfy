/** Posted receives: one is consumed by each delivery and given back by each handler
    (src/rdma_channel.cpp, src/rdma_message.cpp). */
module Credits {
  import opened Bags
  import opened Protocol
  import opened System
  import opened CompletionLoop
  import opened Ledger

  /** Receive completions not yet handled. */
  ghost function Receives(): Weighting {
    Weightless.(completion := (e: Completion) => One(e.RecvWrite? || e.RecvSend?))
  }

  ghost predicate CreditExact(p: Peer) { p.card.credits + Weight(p, Receives()) == POSTED_RECEIVES }

  function CreditsAfter(p: Peer, e: Completion): nat {
    p.card.credits + One(e.RecvWrite? || e.RecvSend?)
  }

  lemma ProcessCredits(p: Peer, e: Completion)
    ensures Process(p, e).card.credits == CreditsAfter(p, e)
  {
  }

  lemma ActCredits(p: Peer, q: Peer, step: Step)
    requires Enabled(p, q, step)
    ensures Act(p, q, step).card.credits
         == if step.Handle? then CreditsAfter(p, p.queue.batch[0]) else p.card.credits
  {
    if step.Handle? { ProcessCredits(Taken(p), p.queue.batch[0]); }
  }

  lemma ReceivesMove(p: Peer, q: Peer, step: Step, v: Weighting)
    requires Enabled(p, q, step) && v == Receives()
    ensures Gain(p, q, step, v) == 0
    ensures Loss(p, q, step, v) == if step.Handle? then CreditsAfter(p, p.queue.batch[0]) - p.card.credits else 0
    ensures Arrives(p, q, step, v) == One(step.Deliver?)
  {
  }

  lemma CreditExactKept(p: Peer, q: Peer, step: Step)
    requires Enabled(p, q, step) && NothingStranded(p.queue)
    requires CreditExact(p) && CreditExact(q)
    ensures CreditExact(Act(p, q, step)) && CreditExact(React(p, q, step))
  {
    ReceivesMove(p, q, step, Receives());
    Balanced(p, q, step, Receives());
    ActCredits(p, q, step);
    ReactionBalanced(p, q, step, Receives());
  }

  /** Out of receives, there are completions to handle. */
  lemma NoCreditsBusy(p: Peer)
    requires CreditExact(p) && p.card.credits == 0
    ensures p.queue.batch != [] || p.queue.cq != []
  {
    CompletionsWeigh(p, Receives().completion);
  }
}
