/** RDMA_Channel as the source has it: an object whose methods update its fields in place
    (src/rdma_channel.h, src/rdma_channel.cpp). Each method is proved against the function of the same
    name in module Protocol. */
module Channels {
  import opened Bags
  import opened Words
  import opened Message
  import opened Protocol

  class RdmaChannel {
    // the registered message buffers, 20 bytes each
    const incoming: array<byte>
    const outgoing: array<byte>

    var localStatus: ChannelStatus
    var remoteStatus: ChannelStatus
    var mapTable: map<u64, u64>
    var totalRecvData: u64
    var targetRecvData: u64

    // the three thread pools, the queue pair, and the RDMA_Buffer objects of this channel by address
    var pools: Pools
    var card: Card
    var objects: map<u64, Object>

    // bookkeeping
    var round: nat
    ghost var rows: map<u64, Row>
    ghost var log: Log
    ghost var app: App

    ghost predicate Valid()
      reads this
    {
      incoming.Length == 20 && outgoing.Length == 20 && incoming != outgoing
    }

    ghost function Lanes(): Lanes
      reads this, incoming, outgoing
      requires Valid()
    {
      Protocol.Lanes(localStatus, remoteStatus, incoming[..], outgoing[..], round)
    }

    ghost function Counts(): Counts
      reads this
    {
      Protocol.Counts(totalRecvData, targetRecvData)
    }

    ghost function Store(): Store
      reads this
    {
      Protocol.Store(mapTable, objects, rows)
    }

    /** The peer this channel is part of. */
    ghost function AsPeer(session: Session, queue: Queue<Completion>): Peer
      reads this, incoming, outgoing
      requires Valid()
    {
      Peer(session, queue, Lanes(), Counts(), pools, card, Store(), log, app)
    }

    /** The channel with a session of no interest. */
    ghost function View(): Peer
      reads this, incoming, outgoing
      requires Valid()
    {
      AsPeer(Session(Work, false, false), Queue([], [], true, 0, Waiting))
    }

    constructor ()
      ensures Valid() && fresh(incoming) && fresh(outgoing)
      ensures Initial(View())
    {
      incoming := new byte[20];
      outgoing := new byte[20];
      localStatus, remoteStatus, mapTable := Idle, Idle, map[];
      totalRecvData, targetRecvData := 0, 0;
      pools, card, objects := Pools([], [], [], [], []), Card([], [], [], 0), map[];
      round, rows, app := 0, map[], App(0, Ready, false);
      log := Log([], [], [], [], [], [], [], [], [], [], []);
      new;
      ghost var start := View();
      for i := 0 to POSTED_RECEIVES
        invariant Valid() && fresh(incoming) && fresh(outgoing)
        invariant View() == start.(card := Card([], [], [], i))
      {
        Recv();
      }
    }

    // ----- work requests -----

    method Write(imm: MessageType, size: nat, intent: Task)
      requires Valid() && imm == intent.Imm() && size == PrefixLength(imm)
      modifies this`card
      ensures View() == Protocol.Write(old(View()), intent)
    {
      card := card.Post(WritePacket(intent, None, round));
    }

    method Send(imm: MessageType, about: nat)
      requires Valid()
      modifies this`card
      ensures View() == Protocol.Send(old(View()), imm, about)
    {
      card := card.Post(SendPacket(imm, about));
    }

    method Recv()
      requires Valid()
      modifies this`card
      ensures View() == Protocol.Recv(old(View()))
    {
      card := card.(credits := card.credits + 1);
    }

    method ReadData(dest: u64, msg: Content, x: Transfer)
      requires Valid()
      modifies this`card
      ensures View() == Protocol.ReadData(old(View()), dest, msg, x)
    {
      card := card.(fetches := Append(card.fetches, Fetch(dest, msg, x)));
    }

    // ----- counters -----

    method DataRecvSuccess(size: int) returns (hit: bool)
      modifies this`totalRecvData
      ensures Counts() == Protocol.DataRecvSuccess(old(Counts()), size)
      ensures hit <==> totalRecvData == targetRecvData
    {
      totalRecvData := FromInt(totalRecvData + FromInt(size));
      hit := totalRecvData == targetRecvData;
    }

    method TargetCountSet(size: u64)
      requires Valid()
      modifies this`totalRecvData, this`targetRecvData
      ensures View() == Protocol.TargetCountSet(old(View()), size)
    {
      totalRecvData := 0;
      targetRecvData := size;
    }

    // ----- map_table_ -----

    method FindInTable(key: u64, erase: bool) returns (value: u64)
      modifies this`mapTable, this`rows
      ensures value == old(Store()).Find(key)
      ensures Store() == if erase then old(Store()).Erase(key) else old(Store())
    {
      if key !in mapTable {
        value := 0;
        if erase { rows := rows - {key}; }
        assert mapTable - {key} == mapTable;
      } else {
        value := mapTable[key];
        if erase { mapTable, rows := mapTable - {key}, rows - {key}; }
      }
    }

    method InsertToTable(key: u64, value: u64, ghost row: Row)
      modifies this`mapTable, this`rows
      ensures Store() == old(Store()).Insert(key, value, row)
    {
      if key !in mapTable {
        mapTable := mapTable[key := value];
        rows := rows[key := row];
      }
    }

    method GetTableSize() returns (n: nat)
      ensures n == |Store().table|
    {
      n := |mapTable|;
    }

    /** delete of an RDMA_Buffer. */
    method DeleteBuffer(ptr: u64)
      modifies this`objects
      ensures Store() == old(Store()).Delete(ptr)
    {
      if ptr != 0 { objects := objects - {ptr}; }
    }

    // ----- the pools -----

    method TaskWithLock(t: Task)
      requires Valid()
      modifies this`pools
      ensures View() == Protocol.TaskWithLock(old(View()), t)
    {
      pools := pools.(pool := Append(pools.pool, t));
    }

    method TaskWithoutLock(a: Accept)
      requires Valid()
      modifies this`pools
      ensures View() == Protocol.TaskWithoutLock(old(View()), a)
    {
      pools := pools.(accepts := Append(pools.accepts, a));
    }

    method ReleaseLocal(about: nat)
      requires Valid()
      modifies this`pools
      ensures View() == Release(old(View()), Unlock.ReleaseLocal(about))
    {
      pools := pools.(unlocks := Append(pools.unlocks, Unlock.ReleaseLocal(about)));
    }

    method ReleaseRemote(about: nat)
      requires Valid()
      modifies this`pools
      ensures View() == Release(old(View()), Unlock.ReleaseRemote(about))
    {
      pools := pools.(unlocks := Append(pools.unlocks, Unlock.ReleaseRemote(about)));
    }

    method RequestRead(x: Transfer)
      requires Valid()
      modifies this`pools
      ensures View() == Protocol.TaskWithLock(old(View()), Request(x))
    {
      TaskWithLock(Request(x));
    }

    // ----- what the workers run -----

    /** The closure of request_read, of a SYNC_REQUEST, or of a READ_OVER. */
    method RunTask(t: Task)
      requires Valid()
      modifies this`mapTable, this`rows, this`log, this`card, outgoing
      ensures Valid() && View() == RunBody(old(View()), t)
    {
      match t
      case Request(x) =>
        InsertToTable(x.addr, x.ptr, SourceRow(x));
        FillMessageContent(outgoing, x.addr, |x.data|, Some(x.rkey));
        Write(ReadRequest, MESSAGE_TOTAL_BYTES, t);
        log := log.(requested := Append(log.requested, x));
      case Over(addr, x) =>
        FillMessageContent(outgoing, addr, 0, None);
        Write(ReadOver, REMOTE_ADDR_END, t);
        log := log.(returned := Append(log.returned, x));
      case Sync(size) =>
        FillMessageContent(outgoing, 0, size, None);
        Write(SyncRequest, BUFFER_SIZE_END, t);
    }

    /** A task that found both statuses free. */
    method LockAndRun(t: Task)
      requires Valid()
      modifies this`localStatus, this`remoteStatus, this`round, this`mapTable, this`rows, this`log, this`card, outgoing
      ensures Valid() && View() == Protocol.LockAndRun(old(View()), t)
    {
      localStatus := Locked;
      remoteStatus := Locked;
      round := round + 1;
      RunTask(t);
    }

    /** One evaluation of the wait in task_with_lock, and the task behind it. */
    method CheckTask(k: nat)
      requires Valid() && k < |pools.awake|
      modifies this`pools, this`localStatus, this`remoteStatus, this`round, this`mapTable, this`rows, this`log,
               this`card, outgoing
      ensures Valid() && View() == CheckAndRun(old(View()), k)
    {
      var t := pools.awake[k];
      pools := pools.(awake := Remove(pools.awake, k));
      if localStatus != Locked && remoteStatus != Locked {
        LockAndRun(t);
      } else {
        pools := pools.(asleep := Append(pools.asleep, t));
      }
    }

    /** release_local and release_remote in the unlock pool: notify_one wakes sleeper `woken`. */
    method UnlockTask(k: nat, woken: nat)
      requires Valid() && k < |pools.unlocks|
      modifies this`pools, this`localStatus, this`remoteStatus
      ensures Valid() && View() == RunUnlock(old(View()), k, woken)
    {
      var u := pools.unlocks[k];
      pools := pools.(unlocks := Remove(pools.unlocks, k));
      if u.ReleaseLocal? { localStatus := Idle; } else { remoteStatus := Idle; }
      pools := WakeOne(pools, woken);
    }

    /** The closure of a READ_REQUEST: `dest` and `block` are what the allocators return. */
    method AcceptTask(k: nat, dest: u64, block: u64)
      requires Valid() && k < |pools.accepts|
      modifies this`pools, this`objects, this`mapTable, this`rows, this`card, this`log
      ensures Valid() && View() == RunAccept(old(View()), k, dest, block)
    {
      var a := pools.accepts[k];
      pools := pools.(accepts := Remove(pools.accepts, k));
      objects := objects[dest := Dest(block, FromInt(ToInt(a.content.bufferSize)), [], a.x)];
      InsertToTable(dest, a.content.remoteAddr, DestRow(a.x));
      ReadData(dest, a.content, a.x);
      log := log.(posted := Append(log.posted, a.x));
    }
  }
}
