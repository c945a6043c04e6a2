/** The wire format: message types, the 20-byte attached content, and how much of it each write
    carries (src/rdma_message.h, src/rdma_message.cpp). */
module Message {
  import opened Words

  datatype Option<+T> = None | Some(value: T)

  /** The immediate number of a message. The first five travel alone (ibv send); the others announce
      content written into the peer's incoming buffer (ibv write with immediate). */
  datatype MessageType = Ack | Close | CloseAck | CloseTerminate | SyncAck
                       | SyncRequest | ReadRequest | ReadOver

  const REMOTE_ADDR_END := 8
  const BUFFER_SIZE_END := 16
  const MESSAGE_TOTAL_BYTES := 20

  datatype Content = Content(remoteAddr: u64, bufferSize: u64, rkey: u32)

  /** How many bytes of the outgoing buffer the write of an attached message copies. */
  function PrefixLength(imm: MessageType): (n: nat)
    ensures n <= MESSAGE_TOTAL_BYTES
  {
    match imm
    case ReadRequest => MESSAGE_TOTAL_BYTES
    case SyncRequest => BUFFER_SIZE_END
    case ReadOver => REMOTE_ADDR_END
    case _ => 0
  }

  type Block = s: seq<byte> | |s| == 20 witness [0, 0, 0, 0, 0, 0, 0, 0, 0, 0, 0, 0, 0, 0, 0, 0, 0, 0, 0, 0]

  function Fill(target: Block, addr: u64, size: u64, rkey: Option<u32>): Block {
    ToBytes(addr, 8) + ToBytes(size, 8) + (if rkey.Some? then ToBytes(rkey.value, 4) else target[16..])
  }

  function Parse(content: Block): Content {
    WordSizes();
    ValueBound(content[..8]);
    ValueBound(content[8..16]);
    ValueBound(content[16..]);
    Content(Value(content[..8]), Value(content[8..16]), Value(content[16..]))
  }

  /** Writing `prefix` at the start of a registered 20-byte buffer. */
  function Land(prefix: seq<byte>, target: Block): Block
    requires |prefix| <= 20
  {
    prefix + target[|prefix|..]
  }

  /** What the handler of a message type uses of the parsed content. */
  ghost predicate SameFields(imm: MessageType, c: Content, d: Content) {
    match imm
    case ReadRequest => c == d
    case SyncRequest => c.bufferSize == d.bufferSize
    case ReadOver => c.remoteAddr == d.remoteAddr
    case _ => true
  }

  lemma ParseOfFill(target: Block, addr: u64, size: u64, rkey: Option<u32>)
    ensures var c := Parse(Fill(target, addr, size, rkey));
            c.remoteAddr == addr && c.bufferSize == size
            && c.rkey == (if rkey.Some? then rkey.value else Parse(target).rkey)
  {
    WordSizes();
    ValueOfBytes(addr, 8);
    ValueOfBytes(size, 8);
    var r := Fill(target, addr, size, rkey);
    assert r[..8] == ToBytes(addr, 8);
    assert r[8..16] == ToBytes(size, 8);
    if rkey.Some? {
      ValueOfBytes(rkey.value, 4);
      assert r[16..] == ToBytes(rkey.value, 4);
    } else {
      assert r[16..] == target[16..];
    }
  }

  /** Two buffers that agree on the prefix a type carries agree on the fields its handler uses. */
  lemma PrefixDecides(imm: MessageType, x: Block, y: Block)
    requires x[..PrefixLength(imm)] == y[..PrefixLength(imm)]
    ensures SameFields(imm, Parse(x), Parse(y))
  {
    var n := PrefixLength(imm);
    if n >= 8 { assert x[..8] == x[..n][..8] && y[..8] == y[..n][..8]; }
    if n >= 16 { assert x[8..16] == x[..n][8..16] && y[8..16] == y[..n][8..16]; }
    if n == 20 { assert x[..n] == x && y[..n] == y; }
  }

  /** Filling the outgoing buffer, copying only the type's prefix over any stale incoming buffer, and
      parsing there recovers what the handler needs and leaves the bytes past the prefix alone. */
  lemma PrefixRoundTrip(imm: MessageType, outgoing: Block, stale: Block, addr: u64, size: u64, rkey: u32)
    ensures var filled := Fill(outgoing, addr, size, if imm == ReadRequest then Some(rkey) else None);
            var n := PrefixLength(imm);
            var landed := Land(filled[..n], stale);
            SameFields(imm, Parse(landed), Content(addr, size, rkey))
            && landed[n..] == stale[n..]
  {
    var key := if imm == ReadRequest then Some(rkey) else None;
    var filled := Fill(outgoing, addr, size, key);
    var n := PrefixLength(imm);
    var landed := Land(filled[..n], stale);
    ParseOfFill(outgoing, addr, size, key);
    assert landed[..n] == filled[..n];
    PrefixDecides(imm, landed, filled);
  }

  /** Shorter prefixes would not do: one byte less than the type's length loses a field for some
      content, whatever the stale bytes are. */
  lemma PrefixIsTight(imm: MessageType, stale: Block)
    requires imm in {ReadRequest, SyncRequest, ReadOver}
    ensures exists out: Block {:trigger Parse(out)} ::
              !SameFields(imm, Parse(Land(out[..PrefixLength(imm) - 1], stale)), Parse(out))
  {
    var n := PrefixLength(imm);
    var last: int := stale[n - 1];
    var other: byte := (last + 1) % 256;
    var out := stale[n - 1 := other];
    var landed := Land(out[..n - 1], stale);
    assert landed == stale;
    match imm {
      case ReadOver =>
        assert stale[..8][7] != out[..8][7];
        ValueInjective(stale[..8], out[..8]);
      case SyncRequest =>
        assert stale[8..16][7] != out[8..16][7];
        ValueInjective(stale[8..16], out[8..16]);
      case ReadRequest =>
        assert stale[16..][3] != out[16..][3];
        ValueInjective(stale[16..], out[16..]);
    }
    assert !SameFields(imm, Parse(landed), Parse(out));
  }

  // ----- the in-place code -----

  method FillMessageContent(target: array<byte>, addr: u64, size: u64, rkey: Option<u32>)
    requires target.Length == 20
    modifies target
    ensures target[..] == Fill(old(target[..]), addr, size, rkey)
  {
    var sizeBytes, addrBytes := ToBytes(size, 8), ToBytes(addr, 8);
    forall i | 0 <= i < 8 { target[8 + i] := sizeBytes[i]; }
    forall i | 0 <= i < 8 { target[i] := addrBytes[i]; }
    if rkey.Some? {
      var keyBytes := ToBytes(rkey.value, 4);
      forall i | 0 <= i < 4 { target[16 + i] := keyBytes[i]; }
    }
  }

  method ParseMessageContent(content: array<byte>) returns (msg: Content)
    requires content.Length == 20
    ensures msg == Parse(content[..])
  {
    WordSizes();
    ValueBound(content[..8]);
    ValueBound(content[8..16]);
    ValueBound(content[16..]);
    var whole := content[..];
    assert whole[..8] == content[..8] && whole[8..16] == content[8..16] && whole[16..] == content[16..];
    msg := Content(Value(content[..8]), Value(content[8..16]), Value(content[16..]));
  }
}
