/** total_recv_data_ and the bytes it stands for (src/rdma_channel.cpp, src/rdma_message.cpp). */
module Counting {
  import opened Bags
  import opened Words
  import opened Protocol
  import opened System
  import opened Frames
  import opened CompletionLoop
  import opened Ledger
  import opened Lifecycle
  import opened Stages
  import opened Lifetimes

  /** The bytes of all transfers whose read completion was handled. */
  ghost function ReadBytes(p: Peer): nat { Sum(p.log.read, ByteWeight()) }

  /** The counter is the sum of the block sizes handled since the last accepted SYNC_REQUEST, as far as
      64 bits go. */
  ghost predicate CountExact(p: Peer) {
    p.app.mark <= ReadBytes(p) && p.counts.total == (ReadBytes(p) - p.app.mark) % TWO_TO_THE_64
  }

  /** `received` holds, transfer by transfer, the sender's own bytes. */
  ghost predicate ReceivedIntact(log: Log) {
    |log.received| == |log.read| && forall i :: 0 <= i < |log.read| ==> log.received[i] == log.read[i].data
  }

  lemma SumThenModulo(a: nat, b: nat)
    ensures (a % TWO_TO_THE_64 + b) % TWO_TO_THE_64 == (a + b) % TWO_TO_THE_64
  {
  }

  /** The counter after a read completion. */
  lemma CompletionCounts(p: Peer, d: u64, n: nat)
    requires CountExact(p) && p.store.SizeAt(d) == n < 0x8000_0000
    ensures DataRecvSuccess(p.counts, ToInt(p.store.SizeAt(d))).total == (ReadBytes(p) + n - p.app.mark) % TWO_TO_THE_64
  {
    SumThenModulo(ReadBytes(p) - p.app.mark, n);
  }

  lemma CompletionSized(p: Peer, d: u64, x: Transfer)
    requires Consistent(p) && ReadDone(d, x) in p.queue.batch
    ensures p.store.SizeAt(d) == |x.data| && p.store.DataAt(d) == x.data
  {
    ReturnStore(p, d, x);
  }

  /** SYNC_ACK is sent precisely when the bytes handled since the request reach its size. */
  lemma AckPrecisely(p: Peer, d: u64, x: Transfer)
    requires Consistent(p) && CountExact(p) && ReadDone(d, x) in p.queue.batch
    ensures ReachesTarget(p, d) <==> (ReadBytes(p) + |x.data| - p.app.mark) % TWO_TO_THE_64 == p.counts.target
  {
    CompletionSized(p, d, x);
    CompletionCounts(p, d, |x.data|);
  }

  /** Past its target the counter stays past it: no second SYNC_ACK until the next SYNC_REQUEST, short of
      2^64 bytes. */
  lemma NoSecondAck(p: Peer, d: u64, x: Transfer)
    requires Consistent(p) && CountExact(p) && ReadDone(d, x) in p.queue.batch
    requires p.counts.total >= p.counts.target && ReadBytes(p) + |x.data| - p.app.mark < TWO_TO_THE_64
    ensures !ReachesTarget(p, d)
    ensures DataRecvSuccess(p.counts, ToInt(p.store.SizeAt(d))).total > p.counts.target
  {
    CompletionSized(p, d, x);
    CompletionCounts(p, d, |x.data|);
  }

  ghost predicate HandlesSized(p: Peer) {
    p.queue.batch != [] && p.queue.batch[0].ReadDone? ==>
      p.store.SizeAt(p.queue.batch[0].dest) == |p.queue.batch[0].x.data|
  }

  lemma CountsMove(p: Peer, q: Peer, step: Step)
    requires Enabled(p, q, step) && CountExact(p) && HandlesSized(p)
    ensures var read := Sum(LogAfter(p, q, step).read, ByteWeight());
            var mark := AppAfter(p, q, step).mark;
            mark <= read && CountsAfter(p, q, step).total == (read - mark) % TWO_TO_THE_64
  {
    if step.Handle? && p.queue.batch[0].ReadDone? {
      CompletionCounts(p, p.queue.batch[0].dest, |p.queue.batch[0].x.data|);
    }
  }

  lemma ActorCounts(p: Peer, q: Peer, step: Step)
    requires Enabled(p, q, step) && CountExact(p) && HandlesSized(p)
    ensures CountExact(Act(p, q, step))
  {
    CountsMove(p, q, step);
    ActCounts(p, q, step);
    ActLog(p, q, step);
  }

  lemma OtherCounts(p: Peer, q: Peer, step: Step)
    requires Enabled(p, q, step) && CountExact(q)
    ensures CountExact(React(p, q, step))
  {
    ReactRest(p, q, step);
    ReactLog(p, q, step);
  }

  lemma CountExactKept(p: Peer, q: Peer, step: Step)
    requires Enabled(p, q, step) && Consistent(p) && CountExact(p) && CountExact(q)
    ensures CountExact(Act(p, q, step)) && CountExact(React(p, q, step))
  {
    if p.queue.batch != [] && p.queue.batch[0].ReadDone? {
      CompletionSized(p, p.queue.batch[0].dest, p.queue.batch[0].x);
    }
    ActorCounts(p, q, step);
    OtherCounts(p, q, step);
  }

  lemma HandledIntact(p: Peer, e: Completion)
    requires ReceivedIntact(p.log) && (e.ReadDone? ==> p.store.DataAt(e.dest) == e.x.data)
    ensures ReceivedIntact(ProcessedLog(p, e))
  {
  }

  lemma OthersIntact(p: Peer, q: Peer, step: Step)
    requires Enabled(p, q, step) && ReceivedIntact(p.log) && !step.Handle?
    ensures ReceivedIntact(LogAfter(p, q, step))
  {
  }

  /** Every byte sequence a read completion hands over is the sender's block, unchanged. */
  lemma ReceivedIntactKept(p: Peer, q: Peer, step: Step)
    requires Enabled(p, q, step) && Consistent(p) && ReceivedIntact(p.log) && ReceivedIntact(q.log)
    ensures ReceivedIntact(Act(p, q, step).log) && ReceivedIntact(React(p, q, step).log)
  {
    if step.Handle? {
      var e := p.queue.batch[0];
      if e.ReadDone? { CompletionSized(p, e.dest, e.x); }
      HandledIntact(Taken(p), e);
    } else {
      OthersIntact(p, q, step);
    }
    ActLog(p, q, step);
    ReactLog(p, q, step);
  }

  lemma ReadAtMostSent(p: Peer, q: Peer)
    requires Conserved(p, q)
    ensures ReadBytes(q) <= Sum(p.log.issued, ByteWeight())
  {
    LogsShrink(p, q, ByteWeight());
  }

  /** What is counted was sent. */
  lemma CountedWasSent(q: Peer, p: Peer)
    requires Enabled(q, p, Handle) && NothingStranded(q.queue) && Conserved(q, p) && Conserved(p, q)
    requires q.queue.batch[0].ReadDone?
    ensures ReadBytes(q) + |q.queue.batch[0].x.data| <= Sum(p.log.issued, ByteWeight())
  {
    ConservedKept(q, p, Handle);
    ReadAtMostSent(React(q, p, Handle), Act(q, p, Handle));
    ActLog(q, p, Handle);
    ReactLog(q, p, Handle);
  }

  // ----- sizes that are not positive ints -----

  /** RDMA_Buffer takes the announced size as an `int`: the destination has that size if and only if it is
      below 2^31 or the image of a negative number; otherwise it agrees in the low 32 bits alone. */
  lemma AllocatedSize(p: Peer, k: nat, dest: u64, block: u64)
    requires k < |p.pools.accepts|
    ensures var (n, o) := (p.pools.accepts[k].content.bufferSize, RunAccept(p, k, dest, block).store.heap[dest]);
            && o.Dest? && o.block == block && (o.size - n) % TWO_TO_THE_32 == 0
            && (o.size == n <==> n < 0x8000_0000 || n >= TWO_TO_THE_64 - 0x8000_0000)
  {
    SurvivesInt(p.pools.accepts[k].content.bufferSize);
  }

  /** data_recv_success takes the destination's size the same way. */
  lemma CountedSize(c: Counts, n: u64)
    ensures var total := DataRecvSuccess(c, ToInt(n)).total;
            && (total - c.total - n) % TWO_TO_THE_32 == 0
            && (total == (c.total + n) % TWO_TO_THE_64 <==> n < 0x8000_0000 || n >= TWO_TO_THE_64 - 0x8000_0000)
  {
    SurvivesInt(n);
  }
}
