/**
 * The binary frame of the open-platform long connection: a 16-byte
 * big-endian header (packet length, header length, version, operation,
 * sequence id) followed by the body.
 */
module Frame {
  import opened Wrappers
  import opened Text

  const MaxBodySize: int := 2048
  const RawHeaderSize: int := 16
  const MaxPackSize: int := MaxBodySize + RawHeaderSize
  const PackOffset: int := 0
  const HeaderOffset: int := 4
  const VerOffset: int := 6
  const OperationOffset: int := 8
  const SeqIdOffset: int := 12

  const OpHeartbeat: int := 2
  const OpHeartbeatReply: int := 3
  const OpSendSmsReply: int := 5
  const OpAuth: int := 7
  const OpAuthReply: int := 8

  const Two16: int := 0x1_0000
  const Two32: int := 0x1_0000_0000

  predicate IsInt16(x: int) { -0x8000 <= x < 0x8000 }
  predicate IsInt32(x: int) { -0x8000_0000 <= x < 0x8000_0000 }

  /** A decoded frame; `bodyMuti` is the list of bodies the client hands on. */
  datatype Proto = Proto(packetLength: int, headerLength: int, version: int, operation: int,
                         sequenceId: int, body: seq<byte>, bodyMuti: seq<seq<byte>>)

  // ------------------------------------------------ two's complement casts

  /** Go's `int32(u)` for a `uint32` value. */
  function ToInt32(u: nat): (x: int)
    requires u < Two32
    ensures IsInt32(x) && (x - u) % Two32 == 0
  {
    if u >= 0x8000_0000 then u - Two32 else u
  }

  /** Go's `int16(u)` for a `uint16` value. */
  function ToInt16(u: nat): (x: int)
    requires u < Two16
    ensures IsInt16(x) && (x - u) % Two16 == 0
  {
    if u >= 0x8000 then u - Two16 else u
  }

  /** The 32 bits Go writes for an integer converted to `int32`. */
  function Bits32(x: int): (u: nat)
    ensures u < Two32
  {
    x % Two32
  }

  function Bits16(x: int): (u: nat)
    ensures u < Two16
  {
    x % Two16
  }

  lemma Int32Bits(x: int)
    requires IsInt32(x)
    ensures ToInt32(Bits32(x)) == x
  {
  }

  lemma Int16Bits(x: int)
    requires IsInt16(x)
    ensures ToInt16(Bits16(x)) == x
  {
  }

  // ---------------------------------------------------- big-endian layout

  function BE32(u: nat): (r: seq<byte>)
    requires u < Two32
    ensures |r| == 4
  {
    [u / 0x100_0000, (u / 0x1_0000) % 256, (u / 256) % 256, u % 256]
  }

  function BE16(u: nat): (r: seq<byte>)
    requires u < Two16
    ensures |r| == 2
  {
    [u / 256, u % 256]
  }

  /** `binary.BigEndian.Uint32(b[off:off+4])`. */
  function ReadU32(b: seq<byte>, off: nat): (u: nat)
    requires off + 4 <= |b|
    ensures u < Two32
  {
    ((b[off] as int * 256 + b[off + 1] as int) * 256 + b[off + 2] as int) * 256 + b[off + 3] as int
  }

  /** `binary.BigEndian.Uint16(b[off:off+2])`. */
  function ReadU16(b: seq<byte>, off: nat): (u: nat)
    requires off + 2 <= |b|
    ensures u < Two16
  {
    b[off] as int * 256 + b[off + 1] as int
  }

  /** Base-256 digits of `u`, most significant first, put back together give `u`. */
  lemma BE32Digits(u: nat)
    requires u < Two32
    ensures ((u / 0x100_0000 * 256 + (u / 0x1_0000) % 256) * 256 + (u / 256) % 256) * 256 + u % 256 == u
  {
    var q1 := u / 256;
    var q2 := q1 / 256;
    assert u / 0x1_0000 == q2;
    assert u / 0x100_0000 == q2 / 256;
    assert q2 == q2 / 256 * 256 + q2 % 256;
    assert q1 == q2 * 256 + q1 % 256;
    assert u == q1 * 256 + u % 256;
  }

  lemma ReadBE32(u: nat, b: seq<byte>, off: nat)
    requires u < Two32 && off + 4 <= |b| && b[off..off + 4] == BE32(u)
    ensures ReadU32(b, off) == u
  {
    assert b[off] == BE32(u)[0] && b[off + 1] == BE32(u)[1];
    assert b[off + 2] == BE32(u)[2] && b[off + 3] == BE32(u)[3];
    BE32Digits(u);
  }

  lemma ReadBE16(u: nat, b: seq<byte>, off: nat)
    requires u < Two16 && off + 2 <= |b| && b[off..off + 2] == BE16(u)
    ensures ReadU16(b, off) == u
  {
    assert b[off] == BE16(u)[0] && b[off + 1] == BE16(u)[1];
  }

  // ----------------------------------------------------------------- decode

  /** The header fields as `unpack` reads them, before any validation. */
  function ReadHeader(buf: seq<byte>): (p: Proto)
    requires |buf| >= RawHeaderSize
    ensures IsInt32(p.packetLength) && IsInt16(p.headerLength) && IsInt16(p.version)
    ensures IsInt32(p.operation) && IsInt32(p.sequenceId)
  {
    Proto(ToInt32(ReadU32(buf, PackOffset)), ToInt16(ReadU16(buf, HeaderOffset)),
          ToInt16(ReadU16(buf, VerOffset)), ToInt32(ReadU32(buf, OperationOffset)),
          ToInt32(ReadU32(buf, SeqIdOffset)), [], [])
  }

  /** The conditions under which `unpack` accepts a buffer. */
  predicate Acceptable(buf: seq<byte>) {
    |buf| >= RawHeaderSize &&
    var h := ReadHeader(buf);
    0 <= h.packetLength <= MaxPackSize && h.headerLength == RawHeaderSize &&
    (h.packetLength > RawHeaderSize ==> |buf| >= h.packetLength)
  }

  /**
   * `unpack`: decode one frame, or None when the buffer is shorter than the
   * header, the packet length is negative or above 2064, the header length
   * is not 16, or the body the packet length announces is not all there.
   */
  function Unpack(buf: seq<byte>): (r: Option<Proto>)
    ensures r.Some? <==> Acceptable(buf)
    ensures |buf| < RawHeaderSize ==> r.None?
    ensures r.Some? ==>
      var h := ReadHeader(buf);
      && r.value.packetLength == h.packetLength && r.value.headerLength == RawHeaderSize
      && r.value.version == h.version && r.value.operation == h.operation
      && r.value.sequenceId == h.sequenceId
      && r.value.body == (if h.packetLength > RawHeaderSize then buf[RawHeaderSize..h.packetLength] else [])
      && r.value.bodyMuti == [r.value.body]
      && |r.value.body| <= MaxBodySize
  {
    if |buf| < RawHeaderSize then None
    else
      var h := ReadHeader(buf);
      if h.packetLength < 0 || h.packetLength > MaxPackSize then None
      else if h.headerLength != RawHeaderSize then None
      else
        var body := if h.packetLength - h.headerLength > 0 then
                      if |buf| < h.packetLength then None else Some(buf[h.headerLength..h.packetLength])
                    else Some([]);
        if body.None? then None
        else Some(h.(body := body.value, bodyMuti := [body.value]))
  }

  // ----------------------------------------------------------------- encode

  /**
   * The bytes `sendMsg` writes: packet length `int32(16 + len(body))`, header
   * length 16, version, operation, sequence id, all big-endian, then the body.
   */
  function Pack(version: int, operation: int, sequenceId: int, body: seq<byte>): (r: seq<byte>)
    ensures |r| == RawHeaderSize + |body|
  {
    BE32(Bits32(RawHeaderSize + |body|)) + BE16(Bits16(RawHeaderSize)) + BE16(Bits16(version))
    + BE32(Bits32(operation)) + BE32(Bits32(sequenceId)) + body
  }

  lemma PackLayout(version: int, operation: int, sequenceId: int, body: seq<byte>)
    ensures var f := Pack(version, operation, sequenceId, body);
      && f[0..4] == BE32(Bits32(RawHeaderSize + |body|)) && f[4..6] == BE16(Bits16(RawHeaderSize))
      && f[6..8] == BE16(Bits16(version)) && f[8..12] == BE32(Bits32(operation))
      && f[12..16] == BE32(Bits32(sequenceId)) && f[16..] == body
  {
  }

  /** The header `unpack` reads from a packed frame gives back the fields written. */
  lemma {:induction false} HeaderOfPack(version: int, operation: int, sequenceId: int, body: seq<byte>)
    requires IsInt16(version) && IsInt32(operation) && IsInt32(sequenceId) && |body| <= MaxBodySize
    ensures var h := ReadHeader(Pack(version, operation, sequenceId, body));
      h.packetLength == RawHeaderSize + |body| && h.headerLength == RawHeaderSize && h.version == version
      && h.operation == operation && h.sequenceId == sequenceId
  {
    var f := Pack(version, operation, sequenceId, body);
    PackLayout(version, operation, sequenceId, body);
    ReadBE32(Bits32(RawHeaderSize + |body|), f, PackOffset);
    ReadBE16(Bits16(RawHeaderSize), f, HeaderOffset);
    ReadBE16(Bits16(version), f, VerOffset);
    ReadBE32(Bits32(operation), f, OperationOffset);
    ReadBE32(Bits32(sequenceId), f, SeqIdOffset);
    Int32Bits(RawHeaderSize + |body|);
    Int16Bits(version);
    Int32Bits(operation);
    Int32Bits(sequenceId);
  }

  /**
   * Round trip: decoding what `sendMsg` writes gives back the version,
   * operation, sequence id and body, with packet length 16 + |body|, for
   * every body of at most 2048 bytes; bytes after the frame are ignored.
   */
  lemma {:induction false} UnpackPack(version: int, operation: int, sequenceId: int, body: seq<byte>, rest: seq<byte>)
    requires IsInt16(version) && IsInt32(operation) && IsInt32(sequenceId) && |body| <= MaxBodySize
    ensures Unpack(Pack(version, operation, sequenceId, body) + rest)
         == Some(Proto(RawHeaderSize + |body|, RawHeaderSize, version, operation, sequenceId, body, [body]))
  {
    var f := Pack(version, operation, sequenceId, body);
    var g := f + rest;
    HeaderOfPack(version, operation, sequenceId, body);
    assert g[..|f|] == f;
    assert ReadHeader(g) == ReadHeader(f) by {
      assert forall i :: 0 <= i < RawHeaderSize ==> g[i] == f[i];
    }
    PackLayout(version, operation, sequenceId, body);
    assert g[RawHeaderSize..RawHeaderSize + |body|] == body;
  }

  /** A body longer than 2048 bytes makes the packed frame undecodable. */
  lemma {:induction false} PackTooLong(version: int, operation: int, sequenceId: int, body: seq<byte>)
    requires IsInt16(version) && IsInt32(operation) && IsInt32(sequenceId)
    requires MaxBodySize < |body| < 0x8000_0000 - RawHeaderSize
    ensures Unpack(Pack(version, operation, sequenceId, body)).None?
  {
    var f := Pack(version, operation, sequenceId, body);
    PackLayout(version, operation, sequenceId, body);
    ReadBE32(Bits32(RawHeaderSize + |body|), f, PackOffset);
    Int32Bits(RawHeaderSize + |body|);
  }

  /** `unpack` looks at no byte after the announced packet length. */
  lemma {:induction false} UnpackIgnoresTrailing(buf: seq<byte>, rest: seq<byte>)
    requires Unpack(buf).Some?
    ensures Unpack(buf + rest) == Unpack(buf)
  {
    var g := buf + rest;
    assert ReadHeader(g) == ReadHeader(buf) by {
      assert forall i :: 0 <= i < RawHeaderSize ==> g[i] == buf[i];
    }
    var h := ReadHeader(buf);
    if h.packetLength > RawHeaderSize {
      assert g[RawHeaderSize..h.packetLength] == buf[RawHeaderSize..h.packetLength];
    }
  }

  /**
   * A frame whose packet length is between 0 and 16 is accepted with an empty
   * body: the check is on `PacketLength - HeaderLength > 0`, not on
   * `PacketLength >= 16`.
   */
  lemma ShortPacketLengthAccepted(buf: seq<byte>)
    requires |buf| >= RawHeaderSize
    requires 0 <= ReadHeader(buf).packetLength <= RawHeaderSize
    requires ReadHeader(buf).headerLength == RawHeaderSize
    ensures Unpack(buf).Some? && Unpack(buf).value.body == []
  {
  }
}
