/** What the device sees in memory, byte by byte: the descriptor of section 2.7.5 of VIRTIO 1.2, the rings of
    sections 2.7.6 and 2.7.8, and the requests and responses of src/gpio/gpio.c:50-64. All numbers are
    little-endian. */
module Wire {
  import opened Words

  type u32 = x: nat | x < 0x1_0000_0000
  type u64 = x: nat | x < 0x1_0000_0000_0000_0000

  // ----- Numbers -----

  function Le16(x: u16): (r: seq<u8>)
    ensures |r| == 2
  {
    [x % 0x100, x / 0x100]
  }

  function Unle16(b: seq<u8>): (x: nat)
    requires |b| == 2
    ensures x < 0x1_0000
  {
    var lo: nat, hi: nat := b[0], b[1];
    lo + 0x100 * hi
  }

  function Le32(x: u32): (r: seq<u8>)
    ensures |r| == 4
  {
    Le16(x % 0x1_0000) + Le16(x / 0x1_0000)
  }

  function Unle32(b: seq<u8>): (x: nat)
    requires |b| == 4
    ensures x < 0x1_0000_0000
  {
    Unle16(b[..2]) + 0x1_0000 * Unle16(b[2..])
  }

  function Le64(x: u64): (r: seq<u8>)
    ensures |r| == 8
  {
    Le32(x % 0x1_0000_0000) + Le32(x / 0x1_0000_0000)
  }

  function Unle64(b: seq<u8>): (x: nat)
    requires |b| == 8
  {
    Unle32(b[..4]) + 0x1_0000_0000 * Unle32(b[4..])
  }

  lemma Unle16Le16(x: u16)
    ensures Unle16(Le16(x)) == x
  {
  }

  lemma Unle32Le32(x: u32)
    ensures Unle32(Le32(x)) == x
  {
    var lo, hi := Le16(x % 0x1_0000), Le16(x / 0x1_0000);
    assert (lo + hi)[..2] == lo && (lo + hi)[2..] == hi;
    Unle16Le16(x % 0x1_0000);
    Unle16Le16(x / 0x1_0000);
  }

  lemma Unle64Le64(x: u64)
    ensures Unle64(Le64(x)) == x
  {
    var lo, hi := Le32(x % 0x1_0000_0000), Le32(x / 0x1_0000_0000);
    assert (lo + hi)[..4] == lo && (lo + hi)[4..] == hi;
    Unle32Le32(x % 0x1_0000_0000);
    Unle32Le32(x / 0x1_0000_0000);
  }

  // ----- Requests and responses -----

  /** le16 type, le16 gpio, le32 value. */
  function RequestBytes(kind: u16, gpio: u16, value: u32): seq<u8>
  {
    Le16(kind) + Le16(gpio) + Le32(value)
  }

  /** What a device that is shown these bytes takes the request to be. */
  function ReadRequest(b: seq<u8>): Option<(nat, nat, nat)> {
    if |b| < 8 then None else Some((Unle16(b[0..2]), Unle16(b[2..4]), Unle32(b[4..8])))
  }

  /** u8 status, u8 value. */
  function ResponseBytes(status: u8, value: u8): seq<u8> {
    [status, value]
  }

  function ReadResponse(b: seq<u8>): Option<(nat, nat)> {
    if |b| < 2 then None else Some((b[0], b[1]))
  }

  /** A device reads back every request exactly, from all of its bytes and from no proper prefix of them. */
  lemma RequestRoundTrip(kind: u16, gpio: u16, value: u32, seen: nat)
    ensures var b := RequestBytes(kind, gpio, value);
            seen <= |b| ==>
              ReadRequest(b[..seen]) == if seen == |b| then Some((kind as nat, gpio as nat, value as nat)) else None
  {
    hide Le16, Le32, Unle16, Unle32;
    var b := RequestBytes(kind, gpio, value);
    assert b[..8] == b;
    Piece([], Le16(kind), Le16(gpio) + Le32(value), b);
    Piece(Le16(kind), Le16(gpio), Le32(value), b);
    Piece(Le16(kind) + Le16(gpio), Le32(value), [], b);
    Unle16Le16(kind);
    Unle16Le16(gpio);
    Unle32Le32(value);
  }

  lemma ResponseRoundTrip(status: u8, value: u8, seen: nat)
    ensures var b := ResponseBytes(status, value);
            seen <= |b| ==> ReadResponse(b[..seen]) == if seen == |b| then Some((status as nat, value as nat)) else None
  {
  }

  lemma Piece(before: seq<u8>, piece: seq<u8>, after: seq<u8>, all: seq<u8>)
    requires all == before + piece + after
    ensures all[|before|..|before| + |piece|] == piece
  {
  }

  // ----- Descriptors -----

  /** le64 address, le32 length, le16 flags, le16 next. */
  function DescBytes(addr: u64, len: u32, flags: bv16, next: u16): (r: seq<u8>)
    ensures |r| == 16
  {
    Le64(addr) + Le32(len) + Le16(flags as nat) + Le16(next)
  }

  /** Bit 0: the chain goes on at `next`. */
  predicate GoesOn(flags: bv16) {
    flags & 1 == 1
  }

  /** Bit 1: the device writes the buffer, otherwise it reads it. */
  predicate DeviceWrites(flags: bv16) {
    flags & 2 == 2
  }

  lemma DescRoundTrip(addr: u64, len: u32, flags: bv16, next: u16)
    ensures var b := DescBytes(addr, len, flags, next);
            && Unle64(b[0..8]) == addr && Unle32(b[8..12]) == len
            && Unle16(b[12..14]) == flags as nat && Unle16(b[14..16]) == next
  {
    hide Le16, Le32, Le64, Unle16, Unle32, Unle64;
    var b := DescBytes(addr, len, flags, next);
    var a, l, f, n := Le64(addr), Le32(len), Le16(flags as nat), Le16(next);
    Piece([], a, l + f + n, b);
    Piece(a, l, f + n, b);
    Piece(a + l, f, n, b);
    Piece(a + l + f, n, [], b);
    Unle64Le64(addr);
    Unle32Le32(len);
    Unle16Le16(flags as nat);
    Unle16Le16(next);
  }

  // ----- The three areas of a queue -----

  datatype RawDesc = RawDesc(addr: u64, len: u32, flags: bv16, next: u16)
  datatype RawUsed = RawUsed(id: u32, len: u32)

  function TableBytes(table: seq<RawDesc>): (r: seq<u8>)
    ensures |r| == 16 * |table|
  {
    if table == [] then []
    else DescBytes(table[0].addr, table[0].len, table[0].flags, table[0].next) + TableBytes(table[1..])
  }

  function RingBytes(ring: seq<u16>): (r: seq<u8>)
    ensures |r| == 2 * |ring|
  {
    if ring == [] then [] else Le16(ring[0]) + RingBytes(ring[1..])
  }

  /** le16 flags, le16 idx, the ring, le16 used_event. */
  function AvailBytes(flags: u16, idx: u16, ring: seq<u16>, usedEvent: u16): (r: seq<u8>)
    ensures |r| == 4 + 2 * |ring| + 2
  {
    Le16(flags) + Le16(idx) + RingBytes(ring) + Le16(usedEvent)
  }

  function UsedElemBytes(ring: seq<RawUsed>): (r: seq<u8>)
    ensures |r| == 8 * |ring|
  {
    if ring == [] then [] else Le32(ring[0].id) + Le32(ring[0].len) + UsedElemBytes(ring[1..])
  }

  /** le16 flags, le16 idx, the ring, le16 avail_event. */
  function UsedBytes(flags: u16, idx: u16, ring: seq<RawUsed>, availEvent: u16): (r: seq<u8>)
    ensures |r| == 4 + 8 * |ring| + 2
  {
    Le16(flags) + Le16(idx) + UsedElemBytes(ring) + Le16(availEvent)
  }
}
