/** Sending a block again before it is released, as main.cpp may (src/rdma_channel.cpp,
    src/rdma_message.cpp). The runs of module System exclude it; this is what the code does. */
module SecondSend {
  import opened Words
  import opened Message
  import opened Protocol
  import T = Tables

  /** Two send_data calls for one block: two objects, one address, neither announced yet. */
  ghost predicate TwoOfOne(store: Store, x: Transfer, y: Transfer) {
    && x.addr == y.addr && x.ptr != y.ptr && x.ptr != 0 && y.ptr != 0 && x.addr !in store.table
    && x.ptr in store.heap && y.ptr in store.heap
    && forall k :: k in store.table ==> store.table[k] != y.ptr
  }

  lemma BothRun(p: Peer, x: Transfer, y: Transfer)
    requires TwoOfOne(p.store, x, y)
    ensures var (p1, p2) := (LockAndRun(p, Request(x)), LockAndRun(LockAndRun(p, Request(x)), Request(y)));
            p2.store.table == p1.store.table == p.store.table[x.addr := x.ptr] && p2.store.heap == p.store.heap
  {
    T.InsertKeeps(p.store, x.addr, x.ptr, SourceRow(x));
    T.InsertKeeps(LockAndRun(p, Request(x)).store, y.addr, y.ptr, SourceRow(y));
  }

  /** What a READ_OVER that names `key` does to the store. */
  lemma Releases(q: Peer, z: Transfer, round: nat, key: u64)
    requires Parse(q.lanes.incoming).remoteAddr == key
    ensures var r := ProcessReadOver(q, z, round);
            r.store == q.store.Erase(key).Delete(q.store.Find(key)) && r.lanes == q.lanes
  {
  }

  lemma FirstOver(p: Peer, x: Transfer, y: Transfer, q: Peer, r1: nat)
    requires TwoOfOne(p.store, x, y)
    requires q.store == LockAndRun(LockAndRun(p, Request(x)), Request(y)).store
    requires Parse(q.lanes.incoming).remoteAddr == x.addr
    ensures var r := ProcessReadOver(q, x, r1).store; r.heap == p.store.heap - {x.ptr} && r.table == p.store.table
  {
    BothRun(p, x, y);
    Releases(q, x, r1, x.addr);
    assert p.store.table[x.addr := x.ptr] - {x.addr} == p.store.table;
  }

  lemma SecondOver(q: Peer, y: Transfer, r2: nat)
    requires Parse(q.lanes.incoming).remoteAddr == y.addr && y.addr !in q.store.table
    ensures var r := ProcessReadOver(q, y, r2).store; r.heap == q.store.heap && r.table == q.store.table
  {
    T.MissingKey(q.store, y.addr);
    Releases(q, y, r2, y.addr);
  }

  /** The table keeps the first object alone. The first READ_OVER for the block releases it; the second finds
      no entry and deletes nothing: the second object stays for ever, under no key of the table. */
  lemma SecondSendLeaks(p: Peer, x: Transfer, y: Transfer, q: Peer, r1: nat, q': Peer, r2: nat)
    requires TwoOfOne(p.store, x, y)
    requires q.store == LockAndRun(LockAndRun(p, Request(x)), Request(y)).store
    requires Parse(q.lanes.incoming).remoteAddr == x.addr
    requires q'.store == ProcessReadOver(q, x, r1).store && Parse(q'.lanes.incoming).remoteAddr == y.addr
    ensures ProcessReadOver(q, x, r1).store.heap == p.store.heap - {x.ptr}
    ensures var r := ProcessReadOver(q', y, r2).store;
            r.heap == p.store.heap - {x.ptr} && y.ptr in r.heap && r.table == p.store.table
            && forall k :: k in r.table ==> r.table[k] != y.ptr
  {
    FirstOver(p, x, y, q, r1);
    SecondOver(q', y, r2);
  }

  /** And after the first READ_OVER the table may be empty, so that a closing session ends while the second
      request is outstanding. */
  lemma ClosesOnFirst(p: Peer, x: Transfer, y: Transfer, q: Peer, r1: nat)
    requires TwoOfOne(p.store, x, y) && p.store.table == map[]
    requires q.store == LockAndRun(LockAndRun(p, Request(x)), Request(y)).store
    requires Parse(q.lanes.incoming).remoteAddr == x.addr && q.session.status == Closing
    ensures ProcessReadOver(q, x, r1).session.status == Closed
  {
    BothRun(p, x, y);
    assert p.store.table[x.addr := x.ptr] - {x.addr} == map[];
  }
}
