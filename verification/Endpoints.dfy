/** What an application calls: RDMA_Endpoint (src/rdma_endpoint.cpp). Each method is a step of the
    transition system in module System, taken in place. */
module Endpoints {
  import opened Bags
  import opened Words
  import opened Message
  import opened Protocol
  import opened System
  import opened Sessions
  import B = Buffers

  class RdmaEndpoint {
    const session: RdmaSession
    var connected: bool
    var remoteAddr: u64
    var remoteKey: u32

    ghost predicate Valid()
      reads this, session, session.channel
    {
      session.Valid()
    }

    ghost function View(): Peer
      reads this, session, session.channel, session.channel.incoming, session.channel.outgoing
      requires Valid()
    {
      session.View()
    }

    constructor (s: RdmaSession)
      requires s.Valid()
      ensures Valid() && session == s && !connected
    {
      session, connected, remoteAddr, remoteKey := s, false, 0, 0;
    }

    /** Where the peer's incoming buffer is; only the first connect sets it. */
    method Connect(addr: u64, rkey: u32)
      requires Valid()
      modifies this`connected, this`remoteAddr, this`remoteKey
      ensures Valid() && View() == old(View()) && connected
      ensures (remoteAddr, remoteKey) == if old(connected) then (old(remoteAddr), old(remoteKey)) else (addr, rkey)
    {
      if !connected {
        remoteAddr, remoteKey := addr, rkey;
        connected := true;
      }
    }

    /** Takes any buffer; the system's step besides asks that its addresses are not in use. `ptr` is where
        the RDMA_Buffer object is, `mem` the application's memory and `data` what it holds in the buffer;
        `id` is bookkeeping. What is announced is the buffer's own address, size and key. */
    method SendData(buffer: B.RdmaBuffer, ptr: u64, rkey: u32, id: nat, data: Payload, ghost mem: int -> byte)
      returns (x: Transfer)
      requires Valid() && 0 <= buffer.buffer < TWO_TO_THE_64 && data == B.Bytes(mem, buffer.View())
      modifies session.channel`pools, session.channel`objects, session.channel`log
      ensures Valid() && View() == Issue(old(View()), x)
      ensures x.ptr == ptr && x.id == id && x.data == B.Bytes(mem, buffer.View())
      ensures x.addr == buffer.buffer && |x.data| == buffer.size && x.rkey == rkey
    {
      x := Transfer(id, ptr, buffer.buffer, data, rkey);
      session.channel.objects := session.channel.objects[x.ptr := Source(x)];
      session.channel.log := session.channel.log.(issued := Append(session.channel.log.issued, x));
      session.channel.RequestRead(x);
    }

    /** Registers `size` bytes at `addr` and sends them. */
    method SendRawData(device: B.Device, addr: u64, size: nat, ptr: u64, rkey: u32, id: nat, data: Payload,
                       ghost mem: int -> byte)
      returns (buffer: B.RdmaBuffer, x: Transfer)
      requires Valid() && |data| == size && forall i :: 0 <= i < size ==> data[i] == mem(addr + i)
      modifies device, session.channel`pools, session.channel`objects, session.channel`log
      ensures Valid() && View() == Issue(old(View()), x) && fresh(buffer)
      ensures buffer.View() == B.Registered(old(device.memory), size, addr)
      ensures device.memory == old(device.memory).Enrol(B.Extent(addr, size))
      ensures x.addr == addr && |x.data| == size && x.ptr == ptr && x.rkey == rkey
      ensures forall i :: 0 <= i < size ==> x.data[i] == mem(addr + i)
    {
      buffer := new B.RdmaBuffer(device, size, Some(addr), 0);
      assert data == B.Bytes(mem, buffer.View());
      x := SendData(buffer, ptr, rkey, id, data, mem);
    }

    /** The size is an `int`, sign-extended on its way into the message. */
    method SetSyncBarrier(size: int, ghost q: Peer)
      requires Valid() && -0x8000_0000 <= size < 0x8000_0000
      modifies session`syncFlag, session.channel`card, session.channel`pools, session.channel`app
      ensures Valid() && View() == Act(old(View()), q, Step.SetSyncBarrier(FromInt(size)))
    {
      session.SendMessageToChannel(SyncRequest, FromInt(size), 0, None);
      session.channel.app :=
        session.channel.app.(barrier := Open(FromInt(size), Sum(session.channel.log.issued, ByteWeight())));
    }

    /** Without a connection nothing is sent. */
    method CloseEndpoint(ghost q: Peer)
      requires Valid()
      modifies session`syncFlag, session.channel`card, session.channel`pools, session.channel`app
      ensures Valid()
      ensures View() == if connected then Act(old(View()), q, Step.CloseEndpoint) else old(View())
    {
      if connected {
        session.SendMessageToChannel(Close, 0, 0, None);
        session.channel.app := session.channel.app.(closeCalled := true);
      }
    }

    /** The flag is tested once. With the flag down the caller waits and is let through by whatever wakes
        it, SYNC_ACK or nothing at all. */
    method WaitForSync(woken: bool, ghost q: Peer) returns (through: bool)
      requires Valid()
      modifies session.channel`app
      ensures Valid() && through == (old(session.syncFlag) || woken)
      ensures View() == if old(session.syncFlag) then Act(old(View()), q, Step.WaitForSync)
                        else if woken then Act(old(View()), q, Step.ReturnEarly) else old(View())
    {
      through := session.syncFlag || woken;
      if through { session.channel.app := session.channel.app.(barrier := Ready); }
    }
  }
}
