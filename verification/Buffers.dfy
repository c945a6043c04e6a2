/** RDMA_Buffer: who owns the memory behind it (src/rdma_buffer.cpp).

    A buffer owns a block of the pool, or owns the registration of memory the application brought, or is
    a slice of another buffer and owns nothing. */
module Buffers {
  import opened Bags
  import opened Words
  import opened Message

  /** The memory region a buffer is registered under: the one of its pool block, or its own. */
  datatype Region = OfBlock(block: nat) | Own(number: nat)

  datatype Buffer = Buffer(owned: bool, registered: bool, addr: int, size: nat, mr: Region, memblock: Option<nat>)

  /** The addresses from `addr` up to `addr + size`. */
  datatype Extent = Extent(addr: int, size: nat)

  /** The memory pool and the protection domain: the blocks handed out and the regions registered, and
      which of them were given back, in order. */
  datatype Memory = Memory(blocks: seq<Extent>, regions: seq<Extent>, freed: seq<nat>, deregistered: seq<nat>) {
    function Take(e: Extent): Memory { this.(blocks := blocks + [e]) }

    function Enrol(e: Extent): Memory { this.(regions := regions + [e]) }
  }

  const EMPTY_MEMORY := Memory([], [], [], [])

  function Owned(m: Memory, size: nat, base: int): Buffer {
    Buffer(true, false, base, size, OfBlock(|m.blocks|), Some(|m.blocks|))
  }

  function Registered(m: Memory, size: nat, addr: int): Buffer {
    Buffer(false, true, addr, size, Own(|m.regions|), None)
  }

  function Slice(source: Buffer, offset: int, size: nat): Buffer {
    Buffer(false, false, source.addr + offset, size, source.mr, source.memblock)
  }

  function Destroyed(m: Memory, b: Buffer): Memory {
    if b.owned then (if b.memblock.Some? then m.(freed := Append(m.freed, b.memblock.value)) else m)
    else if b.registered then (if b.mr.Own? then m.(deregistered := Append(m.deregistered, b.mr.number)) else m)
    else m
  }

  // ----- the class -----

  class Device {
    var memory: Memory

    constructor ()
      ensures memory == EMPTY_MEMORY
    {
      memory := EMPTY_MEMORY;
    }
  }

  class RdmaBuffer {
    var bufferOwned: bool
    var bufferRegistered: bool
    var buffer: int
    var size: nat
    var mr: Region
    var memblock: Option<nat>

    ghost function View(): Buffer
      reads this
    {
      Buffer(bufferOwned, bufferRegistered, buffer, size, mr, memblock)
    }

    /** With an address, the buffer registers that memory; without, it takes a block of the pool, which
        begins at `base`. */
    constructor (device: Device, bytes: nat, addr: Option<int>, base: int)
      modifies device
      ensures View() == match addr
                        case Some(a) => Registered(old(device.memory), bytes, a)
                        case None => Owned(old(device.memory), bytes, base)
      ensures device.memory == match addr
                               case Some(a) => old(device.memory).Enrol(Extent(a, bytes))
                               case None => old(device.memory).Take(Extent(base, bytes))
      ensures buffer == (if addr.Some? then addr.value else base) && size == bytes
      ensures bufferRegistered == addr.Some? && bufferOwned == addr.None?
    {
      var m := device.memory;
      size := bytes;
      if addr.Some? {
        buffer, bufferOwned, bufferRegistered := addr.value, false, true;
        mr, memblock := Own(|m.regions|), None;
        device.memory := m.Enrol(Extent(addr.value, bytes));
      } else {
        memblock, buffer, mr := Some(|m.blocks|), base, OfBlock(|m.blocks|);
        bufferOwned, bufferRegistered := true, false;
        device.memory := m.Take(Extent(base, bytes));
      }
    }

    constructor SliceOf(source: RdmaBuffer, offset: int, bytes: nat)
      ensures View() == Slice(source.View(), offset, bytes)
      ensures buffer == source.buffer + offset && size == bytes && !bufferOwned && !bufferRegistered
    {
      bufferOwned, bufferRegistered, size := false, false, bytes;
      mr, memblock := source.mr, source.memblock;
      buffer := source.buffer + offset;
    }

    method Destroy(device: Device)
      modifies device
      ensures device.memory == Destroyed(old(device.memory), View())
    {
      var m := device.memory;
      if bufferOwned {
        if memblock.Some? { device.memory := m.(freed := Append(m.freed, memblock.value)); }
      } else if bufferRegistered {
        if mr.Own? { device.memory := m.(deregistered := Append(m.deregistered, mr.number)); }
      }
    }
  }

  // ----- any program that uses buffers -----

  /** All buffers ever made, the deleted ones among them, and for each the buffer it is a slice of in the
      end; the last is bookkeeping. */
  datatype World = World(memory: Memory, buffers: seq<Buffer>, gone: set<nat>, roots: seq<nat>)

  datatype Op = Allocate(size: nat, base: int) | Register(size: nat, addr: int)
              | Cut(k: nat, offset: int, size: nat) | Delete(k: nat)

  /** A slice lies inside a live source, and nothing is deleted twice. */
  predicate Allowed(w: World, op: Op) {
    match op
    case Cut(k, offset, size) => k < |w.buffers| && k !in w.gone && 0 <= offset && offset + size <= w.buffers[k].size
    case Delete(k) => k < |w.buffers| && k !in w.gone
    case _ => true
  }

  function Made(w: World, m: Memory, b: Buffer, root: nat): World {
    World(m, w.buffers + [b], w.gone, w.roots + [root])
  }

  function Apply(w: World, op: Op): World
    requires Allowed(w, op) && |w.roots| == |w.buffers|
  {
    match op
    case Allocate(size, base) =>
      Made(w, w.memory.Take(Extent(base, size)), Owned(w.memory, size, base), |w.buffers|)
    case Register(size, addr) =>
      Made(w, w.memory.Enrol(Extent(addr, size)), Registered(w.memory, size, addr), |w.buffers|)
    case Cut(k, offset, size) => Made(w, w.memory, Slice(w.buffers[k], offset, size), w.roots[k])
    case Delete(k) => w.(memory := Destroyed(w.memory, w.buffers[k]), gone := w.gone + {k})
  }

  ghost predicate Within(b: Buffer, root: Buffer) {
    root.addr <= b.addr && b.addr + b.size <= root.addr + root.size
  }

  /** Buffer `k` belongs to its root: same region, same block, inside its bytes, and an owner only if it
      is the root itself. */
  ghost predicate Rooted(w: World, k: nat)
    requires k < |w.buffers| == |w.roots|
  {
    var r := w.roots[k];
    && r <= k && w.roots[r] == r
    && w.buffers[k].mr == w.buffers[r].mr && w.buffers[k].memblock == w.buffers[r].memblock
    && Within(w.buffers[k], w.buffers[r])
    && (w.buffers[k].owned || w.buffers[k].registered <==> k == r)
  }

  /** Buffer `k` is the owner of a region: it took the block, or registered the memory. */
  ghost predicate Owns(w: World, k: nat, g: Region) {
    k < |w.buffers| && (w.buffers[k].owned || w.buffers[k].registered) && w.buffers[k].mr == g
  }

  ghost predicate HasOwner(w: World, g: Region) { exists k :: Owns(w, k, g) }

  predicate Issued(m: Memory, g: Region) {
    match g case OfBlock(b) => b < |m.blocks| case Own(n) => n < |m.regions|
  }

  /** How often a block was freed, or a region deregistered. */
  ghost function GivenBack(m: Memory, g: Region): nat {
    match g case OfBlock(b) => Sum(m.freed, Is(b)) case Own(n) => Sum(m.deregistered, Is(n))
  }

  ghost predicate Shaped(b: Buffer) {
    && (b.owned ==> !b.registered && b.memblock.Some? && b.mr == OfBlock(b.memblock.value))
    && (b.registered ==> b.mr.Own? && b.memblock == None)
  }

  /** What was issued has one owner and was given back as often as its owner was deleted. */
  ghost predicate Accounts(w: World) {
    && (forall g :: Issued(w.memory, g) ==> HasOwner(w, g))
    && (forall j, k, g :: Owns(w, j, g) && Owns(w, k, g) ==> j == k)
    && (forall k, g :: Owns(w, k, g) ==> Issued(w.memory, g) && GivenBack(w.memory, g) == One(k in w.gone))
    && (forall g :: !Issued(w.memory, g) ==> GivenBack(w.memory, g) == 0)
  }

  ghost predicate Sane(w: World) {
    && |w.roots| == |w.buffers|
    && (forall k :: k in w.gone ==> k < |w.buffers|)
    && (forall k | 0 <= k < |w.buffers| :: Rooted(w, k))
    && (forall k | 0 <= k < |w.buffers| :: Shaped(w.buffers[k]))
    && Accounts(w)
  }

  lemma SameOwners(w: World, w': World)
    requires |w.buffers| <= |w'.buffers| && w'.buffers[..|w.buffers|] == w.buffers
    ensures forall k: nat, g | k < |w.buffers| :: Owns(w', k, g) <==> Owns(w, k, g)
    ensures forall g :: HasOwner(w, g) ==> HasOwner(w', g)
  {
    assert forall k | 0 <= k < |w.buffers| :: w'.buffers[k] == w'.buffers[..|w.buffers|][k];
    forall g | HasOwner(w, g) ensures HasOwner(w', g) {
      var k :| Owns(w, k, g);
      assert Owns(w', k, g);
    }
  }

  /** A new buffer leaves the others as they were. */
  lemma MadeRoots(w: World, m: Memory, b: Buffer, root: nat)
    requires Sane(w) && Rooted(Made(w, m, b, root), |w.buffers|) && Shaped(b)
    ensures var w' := Made(w, m, b, root); forall k | 0 <= k < |w'.buffers| :: Rooted(w', k) && Shaped(w'.buffers[k])
  {
    var w' := Made(w, m, b, root);
    forall k | 0 <= k < |w'.buffers| ensures Rooted(w', k) && Shaped(w'.buffers[k]) {
      if k < |w.buffers| { assert Rooted(w, k) && Shaped(w.buffers[k]); }
    }
  }

  lemma OwnerAccounts(w: World, m: Memory, b: Buffer)
    requires Sane(w) && (b.owned || b.registered)
    requires !Issued(w.memory, b.mr) && forall g :: Issued(m, g) <==> Issued(w.memory, g) || g == b.mr
    requires forall g :: GivenBack(m, g) == GivenBack(w.memory, g)
    ensures Accounts(Made(w, m, b, |w.buffers|))
  {
    var w' := Made(w, m, b, |w.buffers|);
    SameOwners(w, w');
    assert Owns(w', |w.buffers|, b.mr) && HasOwner(w', b.mr);
  }

  /** A new owner of a new region. */
  lemma OwnerMade(w: World, m: Memory, b: Buffer)
    requires Sane(w) && Shaped(b) && (b.owned || b.registered)
    requires !Issued(w.memory, b.mr) && forall g :: Issued(m, g) <==> Issued(w.memory, g) || g == b.mr
    requires m.freed == w.memory.freed && m.deregistered == w.memory.deregistered
    ensures Sane(Made(w, m, b, |w.buffers|))
  {
    MadeRoots(w, m, b, |w.buffers|);
    forall g ensures GivenBack(m, g) == GivenBack(w.memory, g) {}
    OwnerAccounts(w, m, b);
  }

  lemma CutKeeps(w: World, k: nat, offset: int, size: nat)
    requires Sane(w) && Allowed(w, Cut(k, offset, size))
    ensures Sane(Apply(w, Cut(k, offset, size)))
  {
    var w' := Apply(w, Cut(k, offset, size));
    assert Rooted(w, k) && Rooted(w, w.roots[k]);
    SameOwners(w, w');
    MadeRoots(w, w.memory, Slice(w.buffers[k], offset, size), w.roots[k]);
  }

  /** Deleting a buffer gives back what it owns, and nothing else. */
  lemma DestroyGives(m: Memory, b: Buffer, g: Region)
    requires Shaped(b)
    ensures GivenBack(Destroyed(m, b), g) == GivenBack(m, g) + One((b.owned || b.registered) && b.mr == g)
    ensures Issued(Destroyed(m, b), g) <==> Issued(m, g)
  {
  }

  lemma DeleteKeeps(w: World, k: nat)
    requires Sane(w) && Allowed(w, Delete(k))
    ensures Sane(Apply(w, Delete(k)))
  {
    var w' := Apply(w, Delete(k));
    SameOwners(w, w');
    forall g ensures GivenBack(w'.memory, g) == GivenBack(w.memory, g) + One(Owns(w, k, g))
                  && (Issued(w'.memory, g) <==> Issued(w.memory, g)) {
      DestroyGives(w.memory, w.buffers[k], g);
    }
    forall j | 0 <= j < |w'.buffers| ensures Rooted(w', j) { assert Rooted(w, j); }
  }

  lemma ApplyKeeps(w: World, op: Op)
    requires Sane(w) && Allowed(w, op)
    ensures Sane(Apply(w, op))
  {
    match op
    case Allocate(size, base) =>
      OwnerMade(w, w.memory.Take(Extent(base, size)), Owned(w.memory, size, base));
    case Register(size, addr) =>
      OwnerMade(w, w.memory.Enrol(Extent(addr, size)), Registered(w.memory, size, addr));
    case Cut(k, offset, size) => CutKeeps(w, k, offset, size);
    case Delete(k) => DeleteKeeps(w, k);
  }

  /** `ops` leads from `w` to `t`. */
  ghost predicate Program(w: World, ops: seq<Op>, t: World)
    decreases |ops|
  {
    if ops == [] then w == t
    else |w.roots| == |w.buffers| && Allowed(w, ops[0]) && Program(Apply(w, ops[0]), ops[1..], t)
  }

  const NoBuffers := World(EMPTY_MEMORY, [], {}, [])

  lemma {:induction false} ProgramKeeps(w: World, ops: seq<Op>, t: World)
    requires Sane(w) && Program(w, ops, t)
    ensures Sane(t)
    decreases |ops|
  {
    if ops != [] {
      ApplyKeeps(w, ops[0]);
      ProgramKeeps(Apply(w, ops[0]), ops[1..], t);
    }
  }

  lemma StartsSane()
    ensures Sane(NoBuffers)
  {
  }

  /** Whatever a program does, each pool block and each region has one owner, and was freed or
      deregistered once if that owner was deleted and not at all otherwise. */
  lemma ReleasedByOwners(ops: seq<Op>, t: World, g: Region)
    requires Program(NoBuffers, ops, t)
    ensures Issued(t.memory, g) <==> HasOwner(t, g)
    ensures forall k :: Owns(t, k, g) ==> GivenBack(t.memory, g) == One(k in t.gone)
    ensures forall j, k :: Owns(t, j, g) && Owns(t, k, g) ==> j == k
  {
    StartsSane();
    ProgramKeeps(NoBuffers, ops, t);
  }

  /** The memory a buffer points into has not been given back. */
  ghost predicate Usable(m: Memory, b: Buffer) {
    match b.mr
    case OfBlock(block) => block !in m.freed
    case Own(number) => number !in m.deregistered
  }

  lemma UsableIffKept(m: Memory, b: Buffer)
    ensures Usable(m, b) <==> GivenBack(m, b.mr) == 0
  {
    if b.mr.OfBlock? { Occurs(m.freed, b.mr.block); } else { Occurs(m.deregistered, b.mr.number); }
  }

  /** Every buffer, slice of a slice or not, lies inside the buffer it was cut from in the end, and is
      usable exactly as long as that one is not deleted. */
  lemma UsableWhileSource(ops: seq<Op>, t: World, k: nat)
    requires Program(NoBuffers, ops, t) && k < |t.buffers|
    ensures |t.roots| == |t.buffers| && t.roots[k] <= k
    ensures Within(t.buffers[k], t.buffers[t.roots[k]])
    ensures Usable(t.memory, t.buffers[k]) <==> t.roots[k] !in t.gone
  {
    StartsSane();
    ProgramKeeps(NoBuffers, ops, t);
    assert Rooted(t, k) && Rooted(t, t.roots[k]);
    assert Owns(t, t.roots[k], t.buffers[k].mr);
    UsableIffKept(t.memory, t.buffers[k]);
  }

  // ----- what a buffer covers -----

  predicate Covers(b: Buffer, a: int) { b.addr <= a < b.addr + b.size }

  /** The bytes of a buffer in a given memory. */
  ghost function Bytes(mem: int -> byte, b: Buffer): seq<byte> {
    seq(b.size, i requires 0 <= i < b.size => mem(b.addr + i))
  }

  /** How many buffers a program makes. */
  function Makes(ops: seq<Op>): nat {
    if ops == [] then 0 else (if ops[0].Delete? then 0 else 1) + Makes(ops[1..])
  }

  /** Buffers stay as they were made. */
  lemma {:induction false} BuffersStay(w: World, ops: seq<Op>, t: World)
    requires Program(w, ops, t)
    ensures |t.buffers| == |w.buffers| + Makes(ops) && t.buffers[..|w.buffers|] == w.buffers
    decreases |ops|
  {
    if ops != [] {
      var w' := Apply(w, ops[0]);
      BuffersStay(w', ops[1..], t);
      assert w'.buffers[..|w.buffers|] == w.buffers;
      assert t.buffers[..|w.buffers|] == t.buffers[..|w'.buffers|][..|w.buffers|];
    }
  }

  /** What the program that made buffer `k` was promised: a registered buffer covers exactly the memory the
      application brought, an owned one exactly its pool block, and a slice holds, in any memory, the bytes
      of its source from the offset on. */
  ghost predicate MadeBy(t: World, k: nat, op: Op) {
    k < |t.buffers| && match op
      case Allocate(size, base) => forall a :: Covers(t.buffers[k], a) <==> base <= a < base + size
      case Register(size, addr) => forall a :: Covers(t.buffers[k], a) <==> addr <= a < addr + size
      case Cut(j, offset, size) =>
        && j < k && 0 <= offset && offset + size <= t.buffers[j].size
        && forall mem: int -> byte :: Bytes(mem, t.buffers[k]) == Bytes(mem, t.buffers[j])[offset..offset + size]
      case Delete(_) => false
  }

  lemma SliceBytes(mem: int -> byte, b: Buffer, offset: int, size: nat)
    requires 0 <= offset && offset + size <= b.size
    ensures Bytes(mem, Slice(b, offset, size)) == Bytes(mem, b)[offset..offset + size]
  {
  }

  lemma FirstIsMade(w: World, op: Op, ops: seq<Op>, t: World)
    requires |w.roots| == |w.buffers| && Allowed(w, op) && !op.Delete? && Program(Apply(w, op), ops, t)
    ensures MadeBy(t, |w.buffers|, op)
  {
    var w' := Apply(w, op);
    BuffersStay(w', ops, t);
    assert t.buffers[|w.buffers|] == t.buffers[..|w'.buffers|][|w.buffers|];
    if op.Cut? {
      assert t.buffers[op.k] == t.buffers[..|w'.buffers|][op.k] == w.buffers[op.k];
      forall mem: int -> byte
        ensures Bytes(mem, t.buffers[|w.buffers|]) == Bytes(mem, t.buffers[op.k])[op.offset..op.offset + op.size]
      {
        SliceBytes(mem, w.buffers[op.k], op.offset, op.size);
      }
    }
  }

  lemma {:induction false} EachIsMadeFrom(w: World, ops: seq<Op>, t: World, i: nat)
    requires Program(w, ops, t) && i < |ops| && !ops[i].Delete?
    ensures MadeBy(t, |w.buffers| + Makes(ops[..i]), ops[i])
    decreases i
  {
    if i == 0 {
      FirstIsMade(w, ops[0], ops[1..], t);
    } else {
      EachIsMadeFrom(Apply(w, ops[0]), ops[1..], t, i - 1);
      assert ops[..i][1..] == ops[1..][..i - 1];
    }
  }

  /** Whatever a program does, every buffer it makes is what was asked for, and stays so. */
  lemma EachIsMade(ops: seq<Op>, t: World, i: nat)
    requires Program(NoBuffers, ops, t) && i < |ops| && !ops[i].Delete?
    ensures MadeBy(t, Makes(ops[..i]), ops[i])
  {
    EachIsMadeFrom(NoBuffers, ops, t, i);
  }

  // ----- slices of slices, and of one source -----

  /** Offsets add up. */
  lemma SliceOfSlice(b: Buffer, offset: int, size: nat, further: int, less: nat)
    requires 0 <= offset && offset + size <= b.size && 0 <= further && further + less <= size
    ensures Slice(Slice(b, offset, size), further, less) == Slice(b, offset + further, less)
    ensures forall mem: int -> byte ::
              Bytes(mem, Slice(Slice(b, offset, size), further, less)) == Bytes(mem, b)[offset + further..][..less]
  {
    forall mem: int -> byte
      ensures Bytes(mem, Slice(Slice(b, offset, size), further, less)) == Bytes(mem, b)[offset + further..][..less]
    {
      SliceBytes(mem, b, offset + further, less);
    }
  }

  /** Slices with disjoint offset ranges share no byte. */
  lemma SlicesDisjoint(b: Buffer, offset: int, size: nat, offset': int, size': nat)
    requires offset + size <= offset'
    ensures forall a :: !(Covers(Slice(b, offset, size), a) && Covers(Slice(b, offset', size'), a))
  {
  }

  /** The `i`th slice of `n` bytes. */
  function Tile(b: Buffer, n: nat, i: nat): Buffer { Slice(b, i * n, n) }

  lemma TileBounds(i: nat, q: int, r: nat, n: nat)
    requires r < n
    ensures i * n <= q * n + r < i * n + n <==> i == q
  {
    if i < q {
      Scaled(n, i + 1, q);
      assert n * (i + 1) == i * n + n;
    } else if i > q {
      Scaled(n, q + 1, i);
      assert n * (q + 1) == q * n + n;
    }
  }

  /** Cut at 0, n, 2n, .., the slices cover every byte of the source, and each by one slice alone. */
  lemma OneTile(b: Buffer, n: nat, a: int, i: nat)
    requires n > 0 && Covers(b, a)
    ensures Covers(Tile(b, n, i), a) <==> i == (a - b.addr) / n
  {
    var j := a - b.addr;
    assert j == j / n * n + j % n;
    TileBounds(i, j / n, j % n, n);
  }

  /** The bytes of the first `k` slices, one after the other. */
  ghost function TileBytes(mem: int -> byte, b: Buffer, n: nat, k: nat): seq<byte> {
    if k == 0 then [] else TileBytes(mem, b, n, k - 1) + Bytes(mem, Tile(b, n, k - 1))
  }

  lemma {:induction false} TilesAreTheSource(mem: int -> byte, b: Buffer, n: nat, k: nat)
    requires k * n <= b.size
    ensures TileBytes(mem, b, n, k) == Bytes(mem, b)[..k * n]
  {
    if k > 0 {
      assert (k - 1) * n + n == k * n;
      TilesAreTheSource(mem, b, n, k - 1);
      SliceBytes(mem, b, (k - 1) * n, n);
      assert Bytes(mem, b)[..k * n] == Bytes(mem, b)[..(k - 1) * n] + Bytes(mem, b)[(k - 1) * n..k * n];
    }
  }

  // ----- the benchmark program -----

  /** One owned buffer, cut into `k` slices of `n` bytes. */
  function CutUp(base: int, n: nat, k: nat): seq<Op> {
    if k == 0 then [] else CutUp(base, n, k - 1) + [Cut(0, (k - 1) * n, n)]
  }

  lemma {:induction false} CutUpAt(base: int, n: nat, k: nat, i: nat)
    requires i < k
    ensures |CutUp(base, n, k)| == k && CutUp(base, n, k)[i] == Cut(0, i * n, n)
    ensures Makes(CutUp(base, n, k)[..i]) == i
  {
    if i < k - 1 {
      CutUpAt(base, n, k - 1, i);
      assert CutUp(base, n, k)[..i] == CutUp(base, n, k - 1)[..i];
    } else {
      CutUpMakes(base, n, k - 1);
      assert CutUp(base, n, k)[..i] == CutUp(base, n, k - 1);
    }
  }

  lemma {:induction false} MakesConcat(a: seq<Op>, b: seq<Op>)
    ensures Makes(a + b) == Makes(a) + Makes(b)
  {
    if a == [] {
      assert a + b == b;
    } else {
      assert (a + b)[1..] == a[1..] + b;
      MakesConcat(a[1..], b);
    }
  }

  lemma {:induction false} CutUpMakes(base: int, n: nat, k: nat)
    ensures |CutUp(base, n, k)| == k && Makes(CutUp(base, n, k)) == k
  {
    if k > 0 {
      CutUpMakes(base, n, k - 1);
      MakesConcat(CutUp(base, n, k - 1), [Cut(0, (k - 1) * n, n)]);
    }
  }

  /** The `i`th block the benchmark hands to send_data holds the bytes of its data from `i * n` on. */
  lemma BenchmarkBlock(base: int, n: nat, k: nat, t: World, i: nat, mem: int -> byte)
    requires Program(NoBuffers, [Allocate(k * n, base)] + CutUp(base, n, k), t) && i < k
    ensures |t.buffers| == 1 + k
    ensures i * n + n <= t.buffers[0].size && Bytes(mem, t.buffers[1 + i]) == Bytes(mem, t.buffers[0])[i * n..i * n + n]
    ensures forall a :: Covers(t.buffers[0], a) <==> base <= a < base + k * n
  {
    var ops := [Allocate(k * n, base)] + CutUp(base, n, k);
    CutUpAt(base, n, k, i);
    CutUpMakes(base, n, k);
    MakesConcat([Allocate(k * n, base)], CutUp(base, n, k));
    BuffersStay(NoBuffers, ops, t);
    EachIsMade(ops, t, 0);
    EachIsMade(ops, t, 1 + i);
    assert ops[..1 + i] == [Allocate(k * n, base)] + CutUp(base, n, k)[..i];
    MakesConcat([Allocate(k * n, base)], CutUp(base, n, k)[..i]);
    assert MadeBy(t, 1 + i, Cut(0, i * n, n)) && MadeBy(t, 0, ops[0]);
  }

  // ----- registration -----

  function ExtentOf(m: Memory, g: Region): Extent
    requires Issued(m, g)
  {
    match g case OfBlock(b) => m.blocks[b] case Own(n) => m.regions[n]
  }

  /** Every buffer lies inside what its region registered, and an owner is all of it. */
  ghost predicate Enrolled(w: World) {
    forall k | 0 <= k < |w.buffers| ::
      var b := w.buffers[k];
      Issued(w.memory, b.mr) &&
      var e := ExtentOf(w.memory, b.mr);
      && e.addr <= b.addr && b.addr + b.size <= e.addr + e.size
      && (b.owned || b.registered ==> e == Extent(b.addr, b.size))
  }

  lemma ApplyEnrols(w: World, op: Op)
    requires Enrolled(w) && Allowed(w, op) && |w.roots| == |w.buffers|
    ensures Enrolled(Apply(w, op))
  {
  }

  lemma {:induction false} ProgramEnrols(w: World, ops: seq<Op>, t: World)
    requires Enrolled(w) && Program(w, ops, t)
    ensures Enrolled(t)
    decreases |ops|
  {
    if ops != [] {
      ApplyEnrols(w, ops[0]);
      ProgramEnrols(Apply(w, ops[0]), ops[1..], t);
    }
  }

  /** So the key a buffer carries opens exactly its memory, or for a slice a region that holds it. */
  lemma InsideItsRegion(ops: seq<Op>, t: World, k: nat)
    requires Program(NoBuffers, ops, t) && k < |t.buffers|
    ensures Issued(t.memory, t.buffers[k].mr)
    ensures var (b, e) := (t.buffers[k], ExtentOf(t.memory, t.buffers[k].mr));
            e.addr <= b.addr && b.addr + b.size <= e.addr + e.size
            && (b.owned || b.registered ==> e == Extent(b.addr, b.size))
  {
    ProgramEnrols(NoBuffers, ops, t);
  }
}
