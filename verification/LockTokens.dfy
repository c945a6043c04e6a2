/** local_status_ and remote_status_ as a distributed token protocol (src/rdma_channel.cpp).

    A lock is held exactly as long as one token for it exists somewhere in the two peers, and every
    token carries the round in which the lock was taken. */
module LockTokens {
  import opened Bags
  import opened Message
  import opened Protocol
  import opened System
  import opened CompletionLoop
  import opened Ledger
  import opened Frames

  /** All rounds, or one. */
  predicate Picks(o: Option<nat>, round: nat) { o.None? || o.value == round }

  /** What keeps a peer's outgoing buffer locked: the write posted, or placed and not completed, its
      completion unhandled, or the unlock task pending. */
  ghost function LocalTokens(o: Option<nat>): Weighting {
    Weightless.(packet := (e: Packet) => One(e.WritePacket? && Picks(o, e.round)),
                placed := (round: nat) => One(Picks(o, round)),
                completion := (e: Completion) => One(e.WriteDone? && Picks(o, e.round)),
                unlock := (e: Unlock) => One(e.ReleaseLocal? && Picks(o, e.round)))
  }

  /** What keeps the peer's incoming buffer reserved, on the sender's side: the message posted, its ACK
      received and unhandled, or the unlock task pending ... */
  ghost function RemoteTokens(o: Option<nat>): Weighting {
    Weightless.(packet := (e: Packet) => One(e.WritePacket? && Picks(o, e.round)),
                completion := (e: Completion) => One(e.RecvSend? && e.imm == Ack && Picks(o, e.round)),
                unlock := (e: Unlock) => One(e.ReleaseRemote? && Picks(o, e.round)))
  }

  /** ... and on the receiver's: the message unparsed, its ACK posted, or the message dropped. */
  ghost function FarTokens(o: Option<nat>): Weighting {
    Weightless.(packet := (e: Packet) => One(e.SendPacket? && e.imm == Ack && Picks(o, e.round)),
                completion := (e: Completion) => One(e.RecvWrite? && Picks(o, e.round)),
                dropped := (e: Ignored) => One(Picks(o, e.round)))
  }

  function Held(status: ChannelStatus, round: nat, o: Option<nat>): nat {
    One(status == Locked && Picks(o, round))
  }

  ghost predicate LocalToken(p: Peer, o: Option<nat>) {
    Weight(p, LocalTokens(o)) == Held(p.lanes.local, p.lanes.round, o)
  }

  ghost predicate RemoteToken(p: Peer, q: Peer, o: Option<nat>) {
    Weight(p, RemoteTokens(o)) + Weight(q, FarTokens(o)) == Held(p.lanes.remote, p.lanes.round, o)
  }

  ghost predicate OneToken(p: Peer, q: Peer) {
    forall o :: LocalToken(p, o) && RemoteToken(p, q, o)
  }

  /** No stale unlock: a pending release always belongs to the round in which the lock is now held. */
  lemma ReleasedInItsRound(p: Peer, q: Peer, u: Unlock)
    requires OneToken(p, q) && u in p.pools.unlocks
    ensures u.round == p.lanes.round
    ensures u.ReleaseLocal? ==> p.lanes.local == Locked
    ensures u.ReleaseRemote? ==> p.lanes.remote == Locked
  {
    var o := Some(u.round);
    if u.ReleaseLocal? {
      assert LocalToken(p, o);
      Outweighed(p.pools.unlocks, LocalTokens(o).unlock, u);
    } else {
      assert RemoteToken(p, q, o);
      Outweighed(p.pools.unlocks, RemoteTokens(o).unlock, u);
    }
  }

  lemma LocalHandles(p: Peer, e: Completion, o: Option<nat>, v: Weighting)
    requires v == LocalTokens(o)
    ensures HandleGain(p, e, v) == v.completion(e)
  {
  }

  lemma LocalMovesElsewhere(p: Peer, q: Peer, step: Step, o: Option<nat>, v: Weighting, after: Lanes)
    requires Enabled(p, q, step) && OneToken(p, q) && !step.Handle?
    requires v == LocalTokens(o) && after == LanesAfter(p, q, step)
    ensures Gain(p, q, step, v) + Held(p.lanes.local, p.lanes.round, o)
         == Loss(p, q, step, v) + Held(after.local, after.round, o)
  {
    if step.UnlockTask? { ReleasedInItsRound(p, q, p.pools.unlocks[step.k]); }
  }

  lemma LocalMoves(p: Peer, q: Peer, step: Step, o: Option<nat>, v: Weighting, after: Lanes)
    requires Enabled(p, q, step) && OneToken(p, q)
    requires v == LocalTokens(o) && after == LanesAfter(p, q, step)
    ensures Gain(p, q, step, v) + Held(p.lanes.local, p.lanes.round, o)
         == Loss(p, q, step, v) + Held(after.local, after.round, o)
  {
    if step.Handle? { LocalHandles(Taken(p), p.queue.batch[0], o, v); }
    else { LocalMovesElsewhere(p, q, step, o, v, after); }
  }

  lemma RemoteHandles(p: Peer, e: Completion, o: Option<nat>, v: Weighting)
    requires v == RemoteTokens(o)
    ensures HandleGain(p, e, v) == v.completion(e)
  {
  }

  lemma RemoteMovesElsewhere(p: Peer, q: Peer, step: Step, o: Option<nat>, v: Weighting, w: Weighting, after: Lanes)
    requires Enabled(p, q, step) && OneToken(p, q) && !step.Handle?
    requires v == RemoteTokens(o) && w == FarTokens(o) && after == LanesAfter(p, q, step)
    ensures Gain(p, q, step, v) + Arrives(p, q, step, w) + Held(p.lanes.remote, p.lanes.round, o)
         == Loss(p, q, step, v) + Held(after.remote, after.round, o)
  {
    if step.UnlockTask? { ReleasedInItsRound(p, q, p.pools.unlocks[step.k]); }
  }

  lemma RemoteMoves(p: Peer, q: Peer, step: Step, o: Option<nat>, v: Weighting, w: Weighting, after: Lanes)
    requires Enabled(p, q, step) && OneToken(p, q)
    requires v == RemoteTokens(o) && w == FarTokens(o) && after == LanesAfter(p, q, step)
    ensures Gain(p, q, step, v) + Arrives(p, q, step, w) + Held(p.lanes.remote, p.lanes.round, o)
         == Loss(p, q, step, v) + Held(after.remote, after.round, o)
  {
    if step.Handle? { RemoteHandles(Taken(p), p.queue.batch[0], o, v); }
    else { RemoteMovesElsewhere(p, q, step, o, v, w, after); }
  }

  lemma FarHandles(p: Peer, e: Completion, o: Option<nat>, v: Weighting)
    requires v == FarTokens(o)
    ensures HandleGain(p, e, v) == v.completion(e)
  {
  }

  lemma FarMovesElsewhere(p: Peer, q: Peer, step: Step, o: Option<nat>, v: Weighting, w: Weighting)
    requires Enabled(p, q, step) && !step.Handle?
    requires v == FarTokens(o) && w == RemoteTokens(o)
    ensures Gain(p, q, step, v) + Arrives(p, q, step, w) == Loss(p, q, step, v)
  {
  }

  lemma FarMoves(p: Peer, q: Peer, step: Step, o: Option<nat>, v: Weighting, w: Weighting)
    requires Enabled(p, q, step)
    requires v == FarTokens(o) && w == RemoteTokens(o)
    ensures Gain(p, q, step, v) + Arrives(p, q, step, w) == Loss(p, q, step, v)
  {
    if step.Handle? { FarHandles(Taken(p), p.queue.batch[0], o, v); } else { FarMovesElsewhere(p, q, step, o, v, w); }
  }

  lemma SenderTokensKept(p: Peer, q: Peer, step: Step, o: Option<nat>)
    requires Enabled(p, q, step) && NothingStranded(p.queue) && OneToken(p, q)
    ensures LocalToken(Act(p, q, step), o) && RemoteToken(Act(p, q, step), React(p, q, step), o)
  {
    assert LocalToken(p, o) && RemoteToken(p, q, o);
    ActLanes(p, q, step);
    var after := LanesAfter(p, q, step);
    Balanced(p, q, step, LocalTokens(o));
    LocalMoves(p, q, step, o, LocalTokens(o), after);
    Balanced(p, q, step, RemoteTokens(o));
    ReactionBalanced(p, q, step, FarTokens(o));
    RemoteMoves(p, q, step, o, RemoteTokens(o), FarTokens(o), after);
  }

  lemma ReceiverTokensKept(p: Peer, q: Peer, step: Step, o: Option<nat>)
    requires Enabled(p, q, step) && NothingStranded(p.queue) && OneToken(q, p)
    ensures LocalToken(React(p, q, step), o) && RemoteToken(React(p, q, step), Act(p, q, step), o)
  {
    assert LocalToken(q, o) && RemoteToken(q, p, o);
    ReactLanes(p, q, step);
    ReactionBalanced(p, q, step, LocalTokens(o));
    ReactionBalanced(p, q, step, RemoteTokens(o));
    Balanced(p, q, step, FarTokens(o));
    FarMoves(p, q, step, o, FarTokens(o), RemoteTokens(o));
  }

  lemma OneTokenKept(p: Peer, q: Peer, step: Step)
    requires Enabled(p, q, step) && NothingStranded(p.queue)
    requires OneToken(p, q) && OneToken(q, p)
    ensures OneToken(Act(p, q, step), React(p, q, step)) && OneToken(React(p, q, step), Act(p, q, step))
  {
    forall o ensures LocalToken(Act(p, q, step), o) && RemoteToken(Act(p, q, step), React(p, q, step), o) {
      SenderTokensKept(p, q, step, o);
    }
    forall o ensures LocalToken(React(p, q, step), o) && RemoteToken(React(p, q, step), Act(p, q, step), o) {
      ReceiverTokensKept(p, q, step, o);
    }
  }
}
