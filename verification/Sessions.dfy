/** RDMA_Session and the message functions that work on it (src/rdma_session.cpp, src/rdma_message.cpp).
    Each handler is proved against the function of the same name in module Protocol; the completion
    loop, against handling every completion once and in order. */
module Sessions {
  import opened Bags
  import opened Words
  import opened Message
  import opened Protocol
  import opened CompletionLoop
  import opened Channels

  /** A polled work completion: one the session handles, a finished send, an unsupported opcode, or one
      whose status is not success. */
  datatype Entry = Done(c: Completion) | SendDone | Unsupported | Failed

  /** How the thread ends: the session was closed, a completion had failed, a call on the event channel or
      the queue had; or it does not end, and sleeps. */
  datatype Outcome = Stopped | Broken | CallFailed | Sleeping

  ghost function HandleEntry(p: Peer, e: Entry): Peer { if e.Done? then Process(p, e.c) else p }

  function Reduced(n: nat, k: int): nat { if n > k then (if k > 0 then n - k else n) else 0 }

  function Least(a: int, b: int): int { if a < b then a else b }

  /** What is left of a schedule after `n` interruptions. */
  function After(schedule: seq<nat>, n: nat): seq<nat> { if n <= |schedule| then schedule[n..] else [] }

  /** How many arrivals a schedule holds. */
  function Total(schedule: seq<nat>): nat { if schedule == [] then 0 else schedule[0] + Total(schedule[1..]) }

  /** The part of the schedule that was used took as many completions from the card, or all it had. */
  ghost predicate Delivered(before: nat, after: nat, schedule: seq<nat>, rest: seq<nat>) {
    Total(rest) <= Total(schedule) && after == Reduced(before, Total(schedule) - Total(rest))
  }

  /** Handling entries one after the other. */
  ghost function HandleAll(p: Peer, es: seq<Entry>): Peer {
    if es == [] then p else HandleEntry(HandleAll(p, es[..|es| - 1]), es[|es| - 1])
  }

  lemma HandleNext(p: Peer, es: seq<Entry>, e: Entry)
    ensures HandleAll(p, es + [e]) == HandleEntry(HandleAll(p, es), e)
  {
    assert (es + [e])[..|es|] == es;
  }

  lemma {:induction false} HandleMore(p: Peer, es: seq<Entry>, fs: seq<Entry>)
    ensures HandleAll(p, es + fs) == HandleAll(HandleAll(p, es), fs)
  {
    if fs == [] {
      assert es + fs == es;
    } else {
      var rest := fs[..|fs| - 1];
      HandleMore(p, es, rest);
      assert es + fs == (es + rest) + [fs[|fs| - 1]];
      HandleNext(p, es + rest, fs[|fs| - 1]);
    }
  }

  lemma Chained(handled: seq<Entry>, more: seq<Entry>, coming: seq<Entry>, all: seq<Entry>)
    requires handled + coming == all && Success(handled) && Success(more) && more <= coming
    ensures (handled + more) + coming[|more|..] == all && Success(handled + more)
  {
    assert coming == more + coming[|more|..];
  }

  class RdmaSession {
    const channel: RdmaChannel
    var status: SessionStatus
    var pre: bool
    var syncFlag: bool

    // the completion queue with its event channel, and what the card has yet to complete
    var queue: Queue<Entry>
    var inbox: seq<Entry>

    // how many calls of ibv_get_cq_event and ibv_req_notify_cq will succeed, and whether a daemon runs
    var calls: nat
    var daemonOpen: bool

    ghost predicate Valid()
      reads this, channel
    {
      channel.Valid()
    }

    ghost function View(): Peer
      reads this, channel, channel.incoming, channel.outgoing
      requires Valid()
    {
      channel.AsPeer(Session(status, pre, syncFlag), Queue([], [], true, 0, Waiting))
    }

    constructor (daemon: bool, good: nat)
      ensures Valid() && fresh(channel) && fresh(channel.incoming) && fresh(channel.outgoing)
      ensures Initial(View()) && pre == daemon
      ensures queue == Queue([], [], true, 0, Waiting) && inbox == [] && calls == good && daemonOpen == daemon
    {
      channel := new RdmaChannel();
      status, pre, syncFlag := Work, daemon, false;
      queue, inbox, calls, daemonOpen := Queue([], [], true, 0, Waiting), [], good, daemon;
    }

    // ----- rdma_message.cpp -----

    /** `about` and `x` say which round and which transfer a message belongs to; they are bookkeeping. */
    method SendMessageToChannel(msgt: MessageType, data: u64, about: nat, x: Option<Transfer>)
      requires Valid() && (msgt == ReadOver ==> x.Some?)
      modifies this`syncFlag, channel`card, channel`pools
      ensures Valid()
      ensures View() == match msgt
                        case SyncRequest =>
                          TaskWithLock(old(View()).(session := old(View()).session.(syncFlag := false)), Sync(data))
                        case ReadOver => TaskWithLock(old(View()), Over(data, x.value))
                        case ReadRequest => old(View())
                        case _ => Send(old(View()), msgt, about)
    {
      match msgt
      case Ack | Close | CloseAck | CloseTerminate | SyncAck => channel.Send(msgt, about);
      case SyncRequest =>
        syncFlag := false;
        channel.TaskWithLock(Sync(data));
      case ReadOver => channel.TaskWithLock(Over(data, x.value));
      case ReadRequest =>
    }

    method ProcessSyncRequest(intent: Task, round: nat)
      requires Valid()
      modifies this`syncFlag, channel`card, channel`pools, channel`totalRecvData, channel`targetRecvData,
               channel`log, channel`app
      ensures Valid() && View() == Protocol.ProcessSyncRequest(old(View()), intent, round)
    {
      if status != Work {
        channel.log := channel.log.(dropped := Append(channel.log.dropped, Ignored(intent, round)));
      } else {
        var msg := ParseMessageContent(channel.incoming);
        SendMessageToChannel(Ack, 0, round, None);
        channel.TargetCountSet(msg.bufferSize);
        channel.app := channel.app.(mark := Sum(channel.log.read, ByteWeight()));
      }
    }

    method ProcessReadRequest(x: Transfer, round: nat)
      requires Valid()
      modifies channel`card, channel`pools, channel`log, this`syncFlag
      ensures Valid() && View() == Protocol.ProcessReadRequest(old(View()), Request(x), round)
    {
      if status != Work {
        channel.log := channel.log.(lost := Append(channel.log.lost, x),
                                    dropped := Append(channel.log.dropped, Ignored(Request(x), round)));
      } else {
        var msg := ParseMessageContent(channel.incoming);
        SendMessageToChannel(Ack, 0, round, None);
        channel.TaskWithoutLock(Accept(msg, x));
        channel.log := channel.log.(accepted := Append(channel.log.accepted, x));
      }
    }

    /** find_in_table with erase, and delete of what it finds. */
    method ReleaseBuffer(key: u64, x: Transfer)
      requires Valid()
      modifies channel`mapTable, channel`rows, channel`objects, channel`log
      ensures Valid()
      ensures View() == old(View()).(store := old(View()).store.Erase(key).Delete(old(View()).store.Find(key)),
                                     log := old(View()).log.(freed := Append(old(View()).log.freed, x)))
    {
      var buf := channel.FindInTable(key, true);
      channel.DeleteBuffer(buf);
      channel.log := channel.log.(freed := Append(channel.log.freed, x));
    }

    method TerminateIfDone()
      requires Valid()
      modifies this`status, this`syncFlag, channel`card, channel`pools
      ensures Valid()
      ensures View() == var p := old(View());
                        if p.session.status == Closing && |p.store.table| == 0 then Terminate(p) else p
    {
      var size := channel.GetTableSize();
      if status == Closing && size == 0 {
        SendMessageToChannel(CloseTerminate, 0, 0, None);
        status := Closed;
      }
    }

    method ProcessReadOver(x: Transfer, round: nat)
      requires Valid()
      modifies this`status, this`syncFlag, channel`card, channel`pools, channel`mapTable, channel`rows,
               channel`objects, channel`log
      ensures Valid() && View() == Protocol.ProcessReadOver(old(View()), x, round)
    {
      var msg := ParseMessageContent(channel.incoming);
      SendMessageToChannel(Ack, 0, round, None);
      ReleaseBuffer(msg.remoteAddr, x);
      TerminateIfDone();
    }

    /** The switch over the message types, in a session that was `before` when it gave the receive back. */
    method ProcessContent(intent: Task, round: nat, ghost before: Peer)
      requires Valid() && View() == Protocol.Recv(before)
      modifies this`status, this`syncFlag, channel`card, channel`pools, channel`totalRecvData, channel`targetRecvData,
               channel`mapTable, channel`rows, channel`objects, channel`log, channel`app
      ensures Valid()
      ensures View() == Protocol.ProcessAttachedMessage(before, intent, round)
    {
      match intent
      case Sync(_) => ProcessSyncRequest(intent, round);
      case Request(x) => ProcessReadRequest(x, round);
      case Over(_, x) => ProcessReadOver(x, round);
    }

    method ProcessAttachedMessage(intent: Task, round: nat)
      requires Valid()
      modifies this`status, this`syncFlag, channel`card, channel`pools, channel`totalRecvData, channel`targetRecvData,
               channel`mapTable, channel`rows, channel`objects, channel`log, channel`app
      ensures Valid() && View() == Protocol.ProcessAttachedMessage(old(View()), intent, round)
    {
      ghost var before := View();
      channel.Recv();
      ProcessContent(intent, round, before);
    }

    method ProcessImmediateMessage(imm: MessageType, round: nat)
      requires Valid()
      modifies this`status, this`syncFlag, channel`card, channel`pools
      ensures Valid() && View() == Protocol.ProcessImmediateMessage(old(View()), imm, round)
    {
      channel.Recv();
      match imm
      case Ack => channel.ReleaseRemote(round);
      case Close =>
        SendMessageToChannel(CloseAck, 0, 0, None);
        if !pre { status := Closing; }
      case CloseAck =>
        var size := channel.GetTableSize();
        if size == 0 {
          SendMessageToChannel(CloseTerminate, 0, 0, None);
          status := Closed;
        } else {
          status := Closing;
        }
      case CloseTerminate => status := Closed;
      case SyncAck => syncFlag := true;
      case _ =>
    }

    method ProcessWriteSuccess(round: nat)
      requires Valid()
      modifies channel`pools
      ensures Valid() && View() == Protocol.ProcessWriteSuccess(old(View()), round)
    {
      channel.ReleaseLocal(round);
    }

    method CountRead(dest: u64)
      requires Valid()
      modifies this`syncFlag, channel`card, channel`pools, channel`totalRecvData
      ensures Valid()
      ensures View() == var p := old(View());
                        var counts := DataRecvSuccess(p.counts, ToInt(p.store.SizeAt(dest)));
                        (if counts.total == counts.target then Send(p, SyncAck, 0) else p).(counts := counts)
    {
      var size: u64 := if dest in channel.objects && channel.objects[dest].Dest? then channel.objects[dest].size else 0;
      var hit := channel.DataRecvSuccess(ToInt(size));
      if hit { SendMessageToChannel(SyncAck, 0, 0, None); }
    }

    /** READ_OVER with the address found in the table, and delete of the destination. */
    method ReturnBuffer(dest: u64, x: Transfer)
      requires Valid()
      modifies this`syncFlag, channel`card, channel`pools, channel`mapTable, channel`rows, channel`objects
      ensures Valid()
      ensures View() == TaskWithLock(old(View()), Over(old(View()).store.Find(dest), x))
                        .(store := old(View()).store.Erase(dest).Delete(dest))
    {
      var res := channel.FindInTable(dest, true);
      SendMessageToChannel(ReadOver, res, 0, Some(x));
      channel.DeleteBuffer(dest);
    }

    method ProcessReadSuccess(dest: u64, x: Transfer)
      requires Valid()
      modifies this`syncFlag, channel`card, channel`pools, channel`totalRecvData, channel`mapTable, channel`rows,
               channel`objects, channel`log
      ensures Valid() && View() == Protocol.ProcessReadSuccess(old(View()), dest, x)
    {
      ghost var data := channel.Store().DataAt(dest);
      CountRead(dest);
      ReturnBuffer(dest, x);
      channel.log := channel.log.(read := Append(channel.log.read, x), received := Append(channel.log.received, data));
    }

    // ----- session_processCQ -----

    method Dispatch(e: Entry)
      requires Valid() && !e.Failed?
      modifies this`status, this`syncFlag, channel`card, channel`pools, channel`totalRecvData, channel`targetRecvData,
               channel`mapTable, channel`rows, channel`objects, channel`log, channel`app
      ensures Valid() && View() == HandleEntry(old(View()), e)
    {
      match e
      case Done(RecvWrite(intent, round)) => ProcessAttachedMessage(intent, round);
      case Done(RecvSend(imm, round)) => ProcessImmediateMessage(imm, round);
      case Done(WriteDone(round)) => ProcessWriteSuccess(round);
      case Done(ReadDone(dest, x)) => ProcessReadSuccess(dest, x);
      case SendDone =>
      case Unsupported =>
    }

    /** Completions raised and not yet handled, and those still to be raised, in order. */
    ghost function Coming(): seq<Entry>
      reads this
    {
      queue.batch + queue.cq + inbox
    }

    ghost function Measure(): nat
      reads this
    {
      2 * |inbox| + queue.events
    }

    /** The queue has room for everything that will ever come. */
    ghost predicate Roomy()
      reads this
    {
      |Coming()| <= CQ_SIZE
    }

    /** The card completes a request. */
    method Raise()
      requires Valid() && NothingStranded(queue) && inbox != [] && |queue.cq| < CQ_SIZE
      modifies this`queue, this`inbox
      ensures Valid() && View() == old(View()) && NothingStranded(queue)
      ensures queue == old(queue).Complete(old(inbox)[0]) && inbox == old(inbox)[1..]
      ensures Coming() == old(Coming()) && Measure() <= old(Measure())
    {
      CompleteStrandsNothing(queue, inbox[0]);
      queue, inbox := queue.Complete(inbox[0]), inbox[1..];
    }

    /** A point where the thread may be interrupted: as many completions arrive as the schedule says, the
        card has, and the queue has room for. */
    method Interrupt(schedule: seq<nat>) returns (rest: seq<nat>)
      requires Valid() && NothingStranded(queue)
      modifies this`queue, this`inbox
      ensures Valid() && View() == old(View()) && NothingStranded(queue)
      ensures queue.loop == old(queue).loop && queue.batch == old(queue).batch && old(queue).events <= queue.events
      ensures Coming() == old(Coming()) && Measure() <= old(Measure())
      ensures rest == After(schedule, 1)
      ensures schedule != [] ==>
                |inbox| == Reduced(|old(inbox)|, Least(schedule[0], CQ_SIZE - |old(queue).cq|))
      ensures old(Roomy()) ==> Delivered(|old(inbox)|, |inbox|, schedule, rest)
    {
      if schedule == [] { return []; }
      rest := schedule[1..];
      for i := 0 to schedule[0]
        invariant View() == old(View()) && NothingStranded(queue)
        invariant queue.loop == old(queue).loop && queue.batch == old(queue).batch && old(queue).events <= queue.events
        invariant Coming() == old(Coming()) && Measure() <= old(Measure())
        invariant |inbox| == |old(inbox)| - i && |queue.cq| == |old(queue).cq| + i
      {
        if inbox == [] || |queue.cq| == CQ_SIZE { return; }
        Raise();
      }
    }

    /** Waits for an event, for as long as the schedule of arrivals lasts. */
    method AwaitEvent(schedule: seq<nat>) returns (rest: seq<nat>)
      requires Valid() && NothingStranded(queue) && queue.loop == Waiting && queue.batch == []
      modifies this`queue, this`inbox
      ensures Valid() && View() == old(View()) && NothingStranded(queue)
      ensures queue.loop == Waiting && queue.batch == []
      ensures Coming() == old(Coming()) && Measure() <= old(Measure())
      ensures queue.events > 0 || rest == []
      ensures old(Roomy()) ==> Delivered(|old(inbox)|, |inbox|, schedule, rest)
    {
      rest := schedule;
      while queue.events == 0 && rest != []
        invariant View() == old(View()) && NothingStranded(queue)
        invariant queue.loop == Waiting && queue.batch == []
        invariant Coming() == old(Coming()) && Measure() <= old(Measure())
        invariant old(Roomy()) ==> Delivered(|old(inbox)|, |inbox|, schedule, rest)
        decreases |rest|
      {
        rest := Interrupt(rest);
      }
    }

    /** One of the calls that may fail. */
    method Call() returns (ok: bool)
      requires Valid()
      modifies this`calls
      ensures Valid() && View() == old(View())
      ensures ok == (old(calls) > 0) && calls == Reduced(old(calls), 1)
    {
      ok := calls > 0;
      if ok { calls := calls - 1; }
    }

    method RearmAndPoll(schedule: seq<nat>) returns (rest: seq<nat>)
      requires Valid() && NothingStranded(queue) && queue.loop == Woken
      modifies this`queue, this`inbox
      ensures Valid() && View() == old(View()) && NothingStranded(queue) && queue.loop == Waiting
      ensures Coming() == old(Coming()) && Measure() <= old(Measure()) && rest == After(schedule, 1)
      ensures old(Roomy()) ==> Delivered(|old(inbox)|, |inbox|, schedule, rest)
    {
      queue := queue.Rearm();
      rest := Interrupt(schedule);
      PollDrains(queue);
      queue := queue.Poll();
    }

    /** Re-arms the queue and polls it. When re-arming fails nothing is polled, and nothing lost. */
    method TakeEvent(schedule: seq<nat>) returns (ok: bool, rest: seq<nat>)
      requires Valid() && NothingStranded(queue) && queue.loop == Waiting && queue.batch == [] && queue.events > 0
      modifies this`queue, this`inbox, this`calls
      ensures Valid() && View() == old(View()) && NothingStranded(queue)
      ensures Coming() == old(Coming()) && Measure() < old(Measure())
      ensures ok == (old(calls) > 0) && calls == Reduced(old(calls), 1)
      ensures if ok then queue.loop == Waiting else queue.batch == []
      ensures rest == After(schedule, if ok then 2 else 1)
      ensures old(Roomy()) ==> Delivered(|old(inbox)|, |inbox|, schedule, rest)
    {
      queue := queue.Wake();
      rest := Interrupt(schedule);
      ok := Call();
      if ok {
        rest := RearmAndPoll(rest);
      }
    }

    method NextCompletion() returns (e: Entry)
      requires Valid() && NothingStranded(queue) && queue.loop == Waiting && queue.batch != []
      modifies this`queue
      ensures Valid() && View() == old(View()) && e == old(queue).batch[0]
      ensures NothingStranded(queue) && queue.loop == Waiting && queue.batch == old(queue).batch[1..]
      ensures [e] + Coming() == old(Coming()) && Measure() == old(Measure())
    {
      e := queue.batch[0];
      queue := queue.Next();
      assert [e] + queue.batch == old(queue).batch;
    }

    /** One completion; more may arrive while it is handled. */
    method HandleOne(schedule: seq<nat>) returns (rest: seq<nat>)
      requires Valid() && NothingStranded(queue) && queue.loop == Waiting
      requires queue.batch != [] && !queue.batch[0].Failed?
      modifies this`status, this`syncFlag, this`queue, this`inbox, channel
      ensures Valid() && View() == HandleEntry(old(View()), old(queue).batch[0])
      ensures NothingStranded(queue) && queue.loop == Waiting && queue.batch == old(queue).batch[1..]
      ensures [old(queue).batch[0]] + Coming() == old(Coming()) && Measure() <= old(Measure())
      ensures rest == After(schedule, 1)
      ensures old(Roomy()) ==> Delivered(|old(inbox)|, |inbox|, schedule, rest)
    {
      var e := NextCompletion();
      Dispatch(e);
      rest := Interrupt(schedule);
    }

    /** The inner loop, up to the end of the polled batch or its first failed completion. */
    method HandleBatch(schedule: seq<nat>) returns (handled: seq<Entry>, rest: seq<nat>)
      requires Valid() && NothingStranded(queue) && queue.loop == Waiting
      modifies this`status, this`syncFlag, this`queue, this`inbox, channel
      ensures Valid() && NothingStranded(queue) && queue.loop == Waiting && Measure() <= old(Measure())
      ensures handled + Coming() == old(Coming()) && Success(handled)
      ensures queue.batch != [] ==> queue.batch[0].Failed?
      ensures View() == HandleAll(old(View()), handled) && rest == After(schedule, |handled|)
      ensures old(Roomy()) ==> Delivered(|old(inbox)|, |inbox|, schedule, rest)
    {
      ghost var before, all := View(), Coming();
      rest, handled := schedule, [];
      while queue.batch != [] && !queue.batch[0].Failed?
        invariant Valid() && NothingStranded(queue) && queue.loop == Waiting && Measure() <= old(Measure())
        invariant handled + Coming() == all && Success(handled)
        invariant View() == HandleAll(before, handled) && rest == After(schedule, |handled|)
        invariant old(Roomy()) ==> Delivered(|old(inbox)|, |inbox|, schedule, rest)
        decreases |queue.batch|
      {
        var e := queue.batch[0];
        ghost var coming := Coming();
        rest := HandleOne(rest);
        HandleNext(before, handled, e);
        assert coming[|[e]|..] == Coming();
        Chained(handled, [e], coming, all);
        handled := handled + [e];
      }
    }

    /** One round of the loop, from the event to the end of the batch. */
    method ServeEvent(schedule: seq<nat>) returns (ok: bool, handled: seq<Entry>, rest: seq<nat>)
      requires Valid() && NothingStranded(queue) && queue.loop == Waiting && queue.batch == [] && queue.events > 0
      modifies this`status, this`syncFlag, this`queue, this`inbox, this`calls, channel
      ensures Valid() && NothingStranded(queue) && (ok ==> queue.loop == Waiting && Measure() < old(Measure()))
      ensures handled + Coming() == old(Coming()) && Success(handled)
      ensures ok == (old(calls) > 0) && calls == Reduced(old(calls), 1)
      ensures if ok then queue.batch != [] ==> queue.batch[0].Failed? else queue.batch == []
      ensures View() == HandleAll(old(View()), handled)
      ensures rest == After(schedule, if ok then 2 + |handled| else 1)
      ensures old(Roomy()) ==> Delivered(|old(inbox)|, |inbox|, schedule, rest)
    {
      handled := [];
      ok, rest := TakeEvent(schedule);
      if ok { handled, rest := HandleBatch(rest); }
    }

    /** One pass of the loop: it goes on, or ends as `end` says. */
    method Pass(schedule: seq<nat>) returns (end: Option<Outcome>, handled: seq<Entry>, rest: seq<nat>)
      requires Valid() && NothingStranded(queue) && queue.loop == Waiting && queue.batch == [] && status != Closed
      modifies this`status, this`syncFlag, this`queue, this`inbox, this`calls, channel
      ensures Valid() && handled + Coming() == old(Coming()) && Success(handled)
      ensures View() == HandleAll(old(View()), handled)
      ensures end.Some? ==> Ended(end.value, rest)
      ensures end.None? ==>
                NothingStranded(queue) && queue.loop == Waiting && queue.batch == [] && Measure() < old(Measure())
      ensures end.None? ==> old(calls) == calls + 2
      ensures end == Some(CallFailed) ==> old(calls) == 0 || (old(calls) == 1 && old(Measure()) > 0)
      ensures old(Roomy()) ==> Delivered(|old(inbox)|, |inbox|, schedule, rest)
    {
      handled := [];
      var ok := Call();
      if !ok { return Some(CallFailed), [], schedule; }
      rest := AwaitEvent(schedule);
      if queue.events == 0 { return Some(Sleeping), [], rest; }
      ok, handled, rest := ServeEvent(rest);
      end := if !ok then Some(CallFailed) else if queue.batch != [] then Some(Broken) else None;
    }

    /** The loop. It ends at a failed call only when it has used up the calls that succeed, of which each
        pass takes two, and it goes to sleep only at the end of the schedule. */
    method Serve(schedule: seq<nat>) returns (outcome: Outcome, handled: seq<Entry>, rest: seq<nat>)
      requires Valid() && NothingStranded(queue) && queue.loop == Waiting && queue.batch == []
      modifies this`status, this`syncFlag, this`queue, this`inbox, this`calls, channel
      ensures Valid() && handled + Coming() == old(Coming()) && Success(handled)
      ensures View() == HandleAll(old(View()), handled)
      ensures Ended(outcome, rest)
      ensures outcome == CallFailed ==> old(calls) <= 2 * old(Measure())
      ensures old(Roomy()) ==> Delivered(|old(inbox)|, |inbox|, schedule, rest)
    {
      ghost var before, all := View(), Coming();
      handled := [];
      rest := schedule;
      while status != Closed
        invariant Valid() && NothingStranded(queue) && queue.loop == Waiting && queue.batch == []
        invariant handled + Coming() == all && Success(handled)
        invariant View() == HandleAll(before, handled)
        invariant Measure() <= old(Measure()) && old(calls) <= calls + 2 * (old(Measure()) - Measure())
        invariant old(Roomy()) ==> Delivered(|old(inbox)|, |inbox|, schedule, rest)
        decreases Measure()
      {
        ghost var coming := Coming();
        var end, more;
        end, more, rest := Pass(rest);
        HandleMore(before, handled, more);
        assert coming[|more|..] == Coming();
        Chained(handled, more, coming, all);
        handled := handled + more;
        if end.Some? { return end.value, handled, rest; }
      }
      return Stopped, handled, rest;
    }

    /** How the thread may end: the session is closed and the batch finished; at the first failed
        completion; or at a call that failed. While it sleeps, the queue is empty and armed and the schedule
        of arrivals used up. */
    ghost predicate Ended(outcome: Outcome, rest: seq<nat>)
      reads this
    {
      match outcome
      case Stopped => status == Closed && queue.batch == []
      case Broken => queue.batch != [] && queue.batch[0].Failed?
      case CallFailed => queue.batch == [] && calls == 0
      case Sleeping => status != Closed && queue == Queue([], [], true, 0, Waiting) && rest == []
    }

    /** The session's thread. `schedule` says how many completions arrive at each point where the thread
        may be interrupted: while it waits, before it re-arms the queue, before it polls, and after each
        completion it handles. Whatever the schedule, every completion is handled once and in order until
        the loop ends; it goes to sleep only with an empty queue that is armed, when nothing more is
        scheduled, and if the schedule delivers everything it has handled everything; and only a loop that
        ended because the session was closed closes the daemon. */
    method ProcessCQ(schedule: seq<nat>) returns (outcome: Outcome, handled: seq<Entry>, rest: seq<nat>)
      requires Valid() && NothingStranded(queue) && queue.loop == Waiting && queue.batch == []
      modifies this`status, this`syncFlag, this`queue, this`inbox, this`calls, this`daemonOpen, channel
      ensures Valid() && handled + Coming() == old(Coming()) && Success(handled)
      ensures View() == HandleAll(SetStatus(old(View()), Work), handled)
      ensures Ended(outcome, rest)
      ensures outcome == CallFailed ==> old(calls) <= 2 * old(Measure())
      ensures old(Roomy()) ==> Delivered(|old(inbox)|, |inbox|, schedule, rest)
      ensures outcome == Sleeping && old(Roomy()) && Total(schedule) >= |old(inbox)| ==> handled == old(Coming())
      ensures daemonOpen == (old(daemonOpen) && !(outcome == Stopped && pre))
    {
      status := Work;
      outcome, handled, rest := Serve(schedule);
      if outcome == Stopped && pre { daemonOpen := false; }
      assert Coming() == [] ==> handled + Coming() == handled;
    }
  }

  ghost predicate Success(es: seq<Entry>) { forall i :: 0 <= i < |es| ==> !es[i].Failed? }
}
