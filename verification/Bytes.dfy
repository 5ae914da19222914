/** Bytes and fixed-width big-endian integers, as every codec of the system uses them. */
module Bytes {

  type byte = x: int | 0 <= x < 256
  type u16 = x: int | 0 <= x < 0x1_0000
  type u32 = x: int | 0 <= x < 0x1_0000_0000
  type u64 = x: int | 0 <= x < 0x1_0000_0000_0000_0000
  type usize = u64
  /** A sixteen-byte identifier, read as a big-endian number: `ByteOrderIsNumericOrder` shows
      that the order of the numbers is the order of the byte arrays. */
  type u128 = x: int | 0 <= x < 0x1_0000_0000_0000_0000_0000_0000_0000_0000
  type i64 = x: int | -0x8000_0000_0000_0000 <= x < 0x8000_0000_0000_0000

  const U64_MAX: u64 := 0xFFFF_FFFF_FFFF_FFFF

  /** 256 to the power `width`. */
  function Bound(width: nat): nat {
    if width == 0 then 1 else 256 * Bound(width - 1)
  }

  function BigEndian(value: nat, width: nat): (bytes: seq<byte>)
    ensures |bytes| == width
  {
    if width == 0 then [] else BigEndian(value / 256, width - 1) + [value % 256]
  }

  function FromBigEndian(bytes: seq<byte>): (value: nat)
    ensures value < Bound(|bytes|)
  {
    if bytes == [] then 0
    else FromBigEndian(bytes[..|bytes| - 1]) * 256 + bytes[|bytes| - 1]
  }

  lemma {:induction false} BigEndianRoundTrip(value: nat, width: nat)
    requires value < Bound(width)
    ensures FromBigEndian(BigEndian(value, width)) == value
  {
    if width > 0 {
      BigEndianRoundTrip(value / 256, width - 1);
      var bytes := BigEndian(value, width);
      assert bytes[..width - 1] == BigEndian(value / 256, width - 1);
    }
  }

  lemma {:induction false} FromBigEndianRoundTrip(bytes: seq<byte>)
    ensures BigEndian(FromBigEndian(bytes), |bytes|) == bytes
  {
    if bytes != [] {
      FromBigEndianRoundTrip(bytes[..|bytes| - 1]);
      assert bytes == bytes[..|bytes| - 1] + [bytes[|bytes| - 1]];
    }
  }

  lemma Scaled(factor: nat, bound: nat)
    ensures factor * (256 * bound) == 256 * (factor * bound)
  {
  }

  /** The first byte weighs most. */
  lemma {:induction false} FirstByteWeighsMost(first: byte, others: seq<byte>)
    ensures FromBigEndian([first] + others) == first * Bound(|others|) + FromBigEndian(others)
  {
    var bytes := [first] + others;
    if others == [] {
      assert bytes[..0] == [];
    } else {
      var n := |others| - 1;
      assert bytes[..n + 1] == [first] + others[..n] && bytes[n + 1] == others[n];
      FirstByteWeighsMost(first, others[..n]);
      Scaled(first, Bound(n));
    }
  }

  lemma Widths()
    ensures Bound(1) == 256 && Bound(2) == 0x1_0000 && Bound(4) == 0x1_0000_0000
    ensures Bound(8) == 0x1_0000_0000_0000_0000
    ensures Bound(16) == 0x1_0000_0000_0000_0000_0000_0000_0000_0000
  {
  }

  /** Two's complement: the unsigned reading of a signed 64-bit integer. */
  function Unsigned(value: i64): u64 {
    if value >= 0 then value else value + 0x1_0000_0000_0000_0000
  }

  function Signed(value: u64): i64 {
    if value < 0x8000_0000_0000_0000 then value else value - 0x1_0000_0000_0000_0000
  }

  datatype Ordering = Less | Equal | Greater

  function CompareInts(a: int, b: int): Ordering {
    if a < b then Less else if a == b then Equal else Greater
  }

  /** Lexicographic comparison of byte strings; a proper prefix comes first. */
  function CompareBytes(a: seq<byte>, b: seq<byte>): Ordering {
    if a == [] then (if b == [] then Equal else Less)
    else if b == [] then Greater
    else if a[0] < b[0] then Less
    else if a[0] > b[0] then Greater
    else CompareBytes(a[1..], b[1..])
  }

  function Reverse(o: Ordering): Ordering {
    match o case Less => Greater case Equal => Equal case Greater => Less
  }

  lemma {:induction false} CompareBytesTotal(a: seq<byte>, b: seq<byte>)
    ensures CompareBytes(a, b) == Equal <==> a == b
    ensures CompareBytes(b, a) == Reverse(CompareBytes(a, b))
  {
    if a != [] && b != [] {
      CompareBytesTotal(a[1..], b[1..]);
      assert a == [a[0]] + a[1..] && b == [b[0]] + b[1..];
    }
  }

  lemma {:induction false} CompareBytesTransitive(a: seq<byte>, b: seq<byte>, c: seq<byte>)
    requires CompareBytes(a, b) == Less && CompareBytes(b, c) == Less
    ensures CompareBytes(a, c) == Less
  {
    if a != [] && b != [] && c != [] && a[0] == b[0] == c[0] {
      CompareBytesTransitive(a[1..], b[1..], c[1..]);
    }
  }

  /** Comparing strings of equal length is decided by the front, then by the last byte. */
  lemma {:induction false} CompareBytesByFront(a: seq<byte>, b: seq<byte>, x: byte, y: byte)
    requires |a| == |b|
    ensures CompareBytes(a + [x], b + [y])
         == if CompareBytes(a, b) == Equal then CompareInts(x, y) else CompareBytes(a, b)
  {
    if a == [] {
      assert (a + [x])[1..] == [] && (b + [y])[1..] == [];
    } else {
      CompareBytesByFront(a[1..], b[1..], x, y);
      assert (a + [x])[1..] == a[1..] + [x] && (b + [y])[1..] == b[1..] + [y];
    }
  }

  lemma {:induction false} ByteOrderIsNumericOrder(a: nat, b: nat, width: nat)
    requires a < Bound(width) && b < Bound(width)
    ensures CompareBytes(BigEndian(a, width), BigEndian(b, width)) == CompareInts(a, b)
  {
    if width > 0 {
      ByteOrderIsNumericOrder(a / 256, b / 256, width - 1);
      CompareBytesByFront(BigEndian(a / 256, width - 1), BigEndian(b / 256, width - 1), a % 256, b % 256);
    }
  }
}
