/** map_table_ and the heap of one peer, and what each operation on them needs and keeps
    (src/rdma_channel.cpp, src/rdma_buffer.cpp). */
module Tables {
  import opened Bags
  import opened Words
  import opened Protocol
  import opened System

  ghost predicate Live(log: Log, x: Transfer) { x in log.issued && x !in log.freed }

  ghost predicate Announced(log: Log, x: Transfer) { x in log.requested && x !in log.freed }

  /** Live objects and their blocks do not overlap. */
  ghost predicate Disjoint(heap: map<u64, Object>) {
    && 0 !in heap
    && (forall a, b | a in heap && b in heap :: heap[a].Addr() != b)
    && (forall a, b | a in heap && b in heap && heap[a].Addr() == heap[b].Addr() :: a == b)
  }

  /** The source objects on the heap are exactly the transfers handed to send_data and not released. */
  ghost predicate SourcesLive(heap: map<u64, Object>, log: Log) {
    && (forall a | a in heap && heap[a].Source? :: heap[a].x.ptr == a && Live(log, heap[a].x))
    && (forall x | Live(log, x) :: x.ptr in heap && heap[x.ptr] == Source(x))
  }

  ghost predicate IsDest(heap: map<u64, Object>, d: u64, x: Transfer) {
    d in heap && heap[d].Dest? && heap[d].x == x
  }

  ghost predicate Sized(o: Object) {
    o.Dest? ==> o.size == |o.x.data| && (o.data == [] || o.data == o.x.data)
  }

  ghost predicate RowHolds(store: Store, log: Log, k: u64)
    requires k in store.table && k in store.rows
  {
    match store.rows[k]
    case SourceRow(x) => x.addr == k && store.table[k] == x.ptr && Announced(log, x)
    case DestRow(x) => store.table[k] == x.addr && IsDest(store.heap, k, x)
  }

  /** The table holds exactly one entry per announced transfer, under its block, and one per destination
      object, under the object. */
  ghost predicate TableExact(store: Store, log: Log) {
    && store.table.Keys == store.rows.Keys
    && (forall k | k in store.rows :: RowHolds(store, log, k))
    && (forall x | Announced(log, x) :: x.addr in store.rows && store.rows[x.addr] == SourceRow(x))
    && (forall d, x | IsDest(store.heap, d, x) :: d in store.rows && store.rows[d] == DestRow(x))
  }

  ghost predicate AllSized(heap: map<u64, Object>) { forall a | a in heap :: Sized(heap[a]) }

  ghost predicate StoreOk(store: Store, log: Log) {
    && Disjoint(store.heap) && AllSized(store.heap)
    && SourcesLive(store.heap, log) && TableExact(store, log)
    && (forall x | x in log.requested :: x in log.issued)
  }

  // ----- send_data of a fresh buffer -----

  lemma SentDisjoint(heap: map<u64, Object>, a: u64, o: Object)
    requires Disjoint(heap) && FreshIn(heap, a, o.Addr())
    ensures Disjoint(heap[a := o])
  {
  }

  lemma SentSources(heap: map<u64, Object>, log: Log, x: Transfer)
    requires SourcesLive(heap, log) && x.ptr !in heap && x !in log.issued && x !in log.freed
    ensures SourcesLive(heap[x.ptr := Source(x)], log.(issued := Append(log.issued, x)))
  {
    var (heap', log') := (heap[x.ptr := Source(x)], log.(issued := Append(log.issued, x)));
    forall y | Live(log', y) ensures y.ptr in heap' && heap'[y.ptr] == Source(y) {
      if y != x { assert Live(log, y); }
    }
    forall a | a in heap' && heap'[a].Source? ensures heap'[a].x.ptr == a && Live(log', heap'[a].x) {
      if a != x.ptr { assert heap[a].Source? && Live(log, heap[a].x); }
    }
  }

  lemma SentTable(store: Store, log: Log, x: Transfer)
    requires TableExact(store, log) && x.ptr !in store.heap
    ensures TableExact(store.(heap := store.heap[x.ptr := Source(x)]), log.(issued := Append(log.issued, x)))
  {
    var (store', log') := (store.(heap := store.heap[x.ptr := Source(x)]), log.(issued := Append(log.issued, x)));
    forall k | k in store'.rows ensures RowHolds(store', log', k) { assert RowHolds(store, log, k); }
    forall y | Announced(log', y) ensures y.addr in store'.rows && store'.rows[y.addr] == SourceRow(y) {
      assert Announced(log, y);
    }
    forall d, y | IsDest(store'.heap, d, y) ensures d in store'.rows && store'.rows[d] == DestRow(y) {
      assert IsDest(store.heap, d, y);
    }
  }

  lemma Sent(store: Store, log: Log, x: Transfer)
    requires StoreOk(store, log) && FreshIn(store.heap, x.ptr, x.addr)
    requires x !in log.issued && x !in log.freed
    ensures StoreOk(store.(heap := store.heap[x.ptr := Source(x)]), log.(issued := Append(log.issued, x)))
  {
    SentDisjoint(store.heap, x.ptr, Source(x));
    SentSources(store.heap, log, x);
    SentTable(store, log, x);
  }

  // ----- the table as such -----

  /** An entry that is there is not replaced; a new one is found under its key; no other key is touched. */
  lemma InsertKeeps(store: Store, key: u64, value: u64, row: Row)
    ensures key in store.table ==> store.Insert(key, value, row).Find(key) == store.Find(key)
    ensures key !in store.table ==> store.Insert(key, value, row).Find(key) == value
    ensures forall k :: k != key ==> store.Insert(key, value, row).Find(k) == store.Find(k)
    ensures store.Insert(key, value, row).table.Keys == store.table.Keys + {key}
    ensures store.Insert(key, value, row).heap == store.heap
  {
  }

  /** A key that is not there yields 0, and deleting what it yields deletes nothing. */
  lemma MissingKey(store: Store, key: u64)
    requires key !in store.table
    ensures store.Find(key) == 0 && store.Erase(key).table == store.table
    ensures store.Delete(store.Find(key)) == store
  {
    assert store.table - {key} == store.table;
  }

  /** Erasing forgets one key. */
  lemma EraseForgets(store: Store, key: u64)
    ensures store.Erase(key).Find(key) == 0 && store.Erase(key).table.Keys == store.table.Keys - {key}
    ensures forall k :: k != key ==> store.Erase(key).Find(k) == store.Find(k)
  {
  }

  // ----- insert_to_table -----

  /** The key of a request is never taken, so insert_to_table always inserts. */
  lemma RequestKeyFree(store: Store, log: Log, x: Transfer)
    requires StoreOk(store, log) && Live(log, x) && x !in log.requested
    ensures x.addr !in store.table
  {
    forall k | k in store.rows ensures k != x.addr {
      assert RowHolds(store, log, k);
      assert store.heap[x.ptr] == Source(x);
      if store.rows[k].SourceRow? { assert Live(log, store.rows[k].x); }
    }
  }

  lemma Requested(store: Store, log: Log, x: Transfer)
    requires StoreOk(store, log) && Live(log, x) && x !in log.requested
    ensures StoreOk(store.Insert(x.addr, x.ptr, SourceRow(x)), log.(requested := Append(log.requested, x)))
  {
    RequestKeyFree(store, log, x);
    var (store', log') := (store.Insert(x.addr, x.ptr, SourceRow(x)), log.(requested := Append(log.requested, x)));
    assert SourcesLive(store'.heap, log') by {
      forall y ensures Live(log', y) <==> Live(log, y) {}
    }
    forall k | k in store'.rows ensures RowHolds(store', log', k) {
      if k != x.addr { assert RowHolds(store, log, k); }
    }
    forall y | Announced(log', y) ensures y.addr in store'.rows && store'.rows[y.addr] == SourceRow(y) {
      if y != x { assert Announced(log, y) && y.addr in store.rows; }
    }
  }

  lemma DestKeyFree(store: Store, log: Log, d: u64, block: u64)
    requires StoreOk(store, log) && FreshIn(store.heap, d, block)
    ensures d !in store.table
  {
    forall k | k in store.rows ensures k != d {
      assert RowHolds(store, log, k);
      if store.rows[k].SourceRow? {
        var y := store.rows[k].x;
        assert Live(log, y) && store.heap[y.ptr] == Source(y);
      }
    }
  }

  lemma Opened(store: Store, log: Log, d: u64, block: u64, x: Transfer)
    requires StoreOk(store, log) && FreshIn(store.heap, d, block)
    ensures StoreOk(store.(heap := store.heap[d := Dest(block, |x.data|, [], x)]).Insert(d, x.addr, DestRow(x)), log)
  {
    DestKeyFree(store, log, d, block);
    var heap := store.heap[d := Dest(block, |x.data|, [], x)];
    var store' := store.(heap := heap).Insert(d, x.addr, DestRow(x));
    SentDisjoint(store.heap, d, Dest(block, |x.data|, [], x));
    assert SourcesLive(heap, log);
    forall k | k in store'.rows ensures RowHolds(store', log, k) { if k != d { assert RowHolds(store, log, k); } }
    forall y | Announced(log, y) ensures y.addr in store'.rows && store'.rows[y.addr] == SourceRow(y) {
      assert y.addr in store.rows;
    }
    forall e, y | IsDest(heap, e, y) ensures e in store'.rows && store'.rows[e] == DestRow(y) {
      if e != d { assert IsDest(store.heap, e, y); }
    }
  }

  lemma FilledHeap(heap: map<u64, Object>, log: Log, d: u64, x: Transfer)
    requires Disjoint(heap) && AllSized(heap) && SourcesLive(heap, log) && IsDest(heap, d, x)
    ensures var heap' := heap[d := heap[d].(data := x.data)];
            Disjoint(heap') && AllSized(heap') && SourcesLive(heap', log)
  {
    var heap' := heap[d := heap[d].(data := x.data)];
    assert heap'.Keys == heap.Keys;
    assert forall a | a in heap :: heap'[a].Addr() == heap[a].Addr();
  }

  lemma Filled(store: Store, log: Log, d: u64, x: Transfer)
    requires StoreOk(store, log) && IsDest(store.heap, d, x)
    ensures StoreOk(store.(heap := store.heap[d := store.heap[d].(data := x.data)]), log)
  {
    FilledHeap(store.heap, log, d, x);
    var store' := store.(heap := store.heap[d := store.heap[d].(data := x.data)]);
    forall k | k in store'.rows ensures RowHolds(store', log, k) { assert RowHolds(store, log, k); }
    forall e, y | IsDest(store'.heap, e, y) ensures e in store'.rows && store'.rows[e] == DestRow(y) {
      assert IsDest(store.heap, e, y);
    }
  }

  // ----- find_in_table with erase, and delete -----

  /** The read completion finds its entry, and erasing entry and object is exact. */
  lemma Returned(store: Store, log: Log, d: u64, x: Transfer)
    requires StoreOk(store, log) && IsDest(store.heap, d, x)
    ensures d in store.table && store.Find(d) == x.addr
    ensures StoreOk(store.Erase(d).Delete(d), log)
  {
    assert d in store.rows && RowHolds(store, log, d);
    var store' := store.Erase(d).Delete(d);
    assert store'.heap == store.heap - {d};
    assert SourcesLive(store'.heap, log);
    forall k | k in store'.rows ensures RowHolds(store', log, k) { assert RowHolds(store, log, k); }
    forall y | Announced(log, y) ensures y.addr in store'.rows && store'.rows[y.addr] == SourceRow(y) {
      assert y.addr in store.rows && store.rows[y.addr] == SourceRow(y);
    }
    forall e, y | IsDest(store'.heap, e, y) ensures e in store'.rows && store'.rows[e] == DestRow(y) {
      assert IsDest(store.heap, e, y);
    }
  }

  /** READ_OVER finds its entry; what is deleted is the transfer's own live object. */
  lemma OverFinds(store: Store, log: Log, x: Transfer)
    requires StoreOk(store, log) && Announced(log, x)
    ensures x.addr in store.table && store.Find(x.addr) == x.ptr && x.ptr != 0
    ensures x.ptr in store.heap && store.heap[x.ptr] == Source(x)
  {
    assert RowHolds(store, log, x.addr) && Live(log, x);
  }

  lemma ReleasedTable(store: Store, log: Log, x: Transfer)
    requires StoreOk(store, log) && Announced(log, x)
    ensures TableExact(store.Erase(x.addr).Delete(x.ptr), log.(freed := Append(log.freed, x)))
  {
    OverFinds(store, log, x);
    var (store', log') := (store.Erase(x.addr).Delete(x.ptr), log.(freed := Append(log.freed, x)));
    forall k | k in store'.rows ensures RowHolds(store', log', k) {
      assert RowHolds(store, log, k);
    }
    forall y | Announced(log', y) ensures y.addr in store'.rows && store'.rows[y.addr] == SourceRow(y) {
      assert Announced(log, y) && Live(log, y) && y != x;
      assert y.addr in store.rows && store.rows[y.addr] == SourceRow(y);
    }
    forall e, y | IsDest(store'.heap, e, y) ensures e in store'.rows && store'.rows[e] == DestRow(y) {
      assert IsDest(store.heap, e, y);
    }
  }

  lemma Released(store: Store, log: Log, x: Transfer)
    requires StoreOk(store, log) && Announced(log, x)
    ensures StoreOk(store.Erase(x.addr).Delete(x.ptr), log.(freed := Append(log.freed, x)))
  {
    OverFinds(store, log, x);
    ReleasedTable(store, log, x);
    var (store', log') := (store.Erase(x.addr).Delete(x.ptr), log.(freed := Append(log.freed, x)));
    assert store'.heap == store.heap - {x.ptr};
    assert SourcesLive(store'.heap, log') by {
      forall a | a in store'.heap && store'.heap[a].Source?
        ensures store'.heap[a].x.ptr == a && Live(log', store'.heap[a].x) {
        assert Live(log, store.heap[a].x);
      }
      forall y | Live(log', y) ensures y.ptr in store'.heap && store'.heap[y.ptr] == Source(y) {
        assert Live(log, y);
      }
    }
  }

  /** Only three of the logs matter to the tables. */
  lemma OtherLogs(store: Store, log: Log, log': Log)
    requires StoreOk(store, log)
    requires log'.issued == log.issued && log'.requested == log.requested && log'.freed == log.freed
    ensures StoreOk(store, log')
  {
    assert forall x :: Live(log', x) <==> Live(log, x);
    assert forall x :: Announced(log', x) <==> Announced(log, x);
    forall k | k in store.rows ensures RowHolds(store, log', k) { assert RowHolds(store, log, k); }
  }
}
