/** Bytes and the little-endian integer codec (byte_utils.go). */
module Bytes {

  type byte = b: int | 0 <= b < 256

  const MAX_UINT8: nat := 255
  const MAX_UINT16: nat := 65535
  const MAX_UINT24: nat := 16777215
  const MAX_UINT32: nat := 4294967295
  const MAX_UINT48: nat := 281474976710655

  function Pow256(w: nat): (r: nat)
    ensures r >= 1
  {
    if w == 0 then 1 else 256 * Pow256(w - 1)
  }

  /** The low w bytes of v, least significant first; anything above them is cut off. */
  function LittleEndian(v: nat, w: nat): (s: seq<byte>)
    ensures |s| == w
  {
    if w == 0 then [] else [v % 256] + LittleEndian(v / 256, w - 1)
  }

  function Value(s: seq<byte>): (v: nat)
    ensures v < Pow256(|s|)
  {
    if s == [] then 0 else s[0] + 256 * Value(s[1..])
  }

  lemma NoBytes()
    ensures Value([]) == 0
  {
  }

  /** Write then read gives back every value that fits the field. */
  lemma {:induction false} LittleEndianThenValue(v: nat, w: nat)
    requires v < Pow256(w)
    ensures Value(LittleEndian(v, w)) == v
  {
    if w != 0 {
      LittleEndianThenValue(v / 256, w - 1);
      assert LittleEndian(v, w)[1..] == LittleEndian(v / 256, w - 1);
    }
  }

  lemma {:induction false} ValueThenLittleEndian(s: seq<byte>)
    ensures LittleEndian(Value(s), |s|) == s
  {
    if s != [] {
      ValueThenLittleEndian(s[1..]);
      assert Value(s) % 256 == s[0] && Value(s) / 256 == Value(s[1..]);
    }
  }

  lemma Powers()
    ensures Pow256(0) == 1 && Pow256(1) == 256 && Pow256(2) == 65536 && Pow256(3) == 16777216
    ensures Pow256(4) == 4294967296 && Pow256(5) == 1099511627776 && Pow256(6) == 281474976710656
  {
    assert Pow256(1) == 256 * Pow256(0);
    assert Pow256(2) == 256 * Pow256(1);
    assert Pow256(3) == 256 * Pow256(2);
    assert Pow256(4) == 256 * Pow256(3);
    assert Pow256(5) == 256 * Pow256(4);
    assert Pow256(6) == 256 * Pow256(5);
  }

  // The fixed-width readers: sums of shifted bytes.

  function ReadUint16(b: seq<byte>, o: nat): nat
    requires o + 2 <= |b|
  {
    b[o] as int + 0x100 * b[o + 1] as int
  }

  function ReadUint24(b: seq<byte>, o: nat): nat
    requires o + 3 <= |b|
  {
    b[o] as int + 0x100 * b[o + 1] as int + 0x10000 * b[o + 2] as int
  }

  function ReadUint48(b: seq<byte>, o: nat): nat
    requires o + 6 <= |b|
  {
    b[o] as int + 0x100 * b[o + 1] as int + 0x10000 * b[o + 2] as int
    + 0x1000000 * b[o + 3] as int + 0x100000000 * b[o + 4] as int + 0x10000000000 * b[o + 5] as int
  }

  lemma ReadersAgree(b: seq<byte>, o: nat)
    ensures o + 1 <= |b| ==> Value(b[o..o + 1]) == b[o]
    ensures o + 2 <= |b| ==> Value(b[o..o + 2]) == ReadUint16(b, o)
    ensures o + 3 <= |b| ==> Value(b[o..o + 3]) == ReadUint24(b, o)
    ensures o + 6 <= |b| ==> Value(b[o..o + 6]) == ReadUint48(b, o)
    decreases |b|
  {
    if o + 1 <= |b| { Tail(b, o, 1); }
    if o + 2 <= |b| { Tail(b, o, 2); Tail(b, o + 1, 1); }
    if o + 3 <= |b| { Tail(b, o, 3); Tail(b, o + 1, 2); Tail(b, o + 2, 1); }
    if o + 6 <= |b| {
      Tail(b, o, 6); Tail(b, o + 1, 5); Tail(b, o + 2, 4);
      Tail(b, o + 3, 3); Tail(b, o + 4, 2); Tail(b, o + 5, 1);
    }
  }

  lemma Tail(b: seq<byte>, o: nat, w: nat)
    requires 1 <= w && o + w <= |b|
    ensures Value(b[o..o + w]) == b[o] + 256 * Value(b[o + 1..o + w])
    ensures Value(b[o + w..o + w]) == 0
  {
    assert b[o..o + w][1..] == b[o + 1..o + w];
  }

  // The in-place writers: the field holds the little-endian bytes, nothing else changes.

  /** b after value's bytes have been put at o. */
  function Spliced(b: seq<byte>, o: nat, value: seq<byte>): (r: seq<byte>)
    requires o + |value| <= |b|
    ensures |r| == |b|
  {
    b[..o] + value + b[o + |value|..]
  }

  lemma IsSpliced(before: seq<byte>, after: seq<byte>, o: nat, value: seq<byte>)
    requires |after| == |before| && o + |value| <= |before|
    requires forall k :: 0 <= k < |before| && !(o <= k < o + |value|) ==> after[k] == before[k]
    requires forall k :: 0 <= k < |value| ==> after[o + k] == value[k]
    ensures after == Spliced(before, o, value)
  {
    assert forall k :: o <= k < o + |value| ==> after[k] == value[k - o];
  }

  method WriteUint8(b: array<byte>, o: nat, value: nat) returns (next: nat)
    requires o + 1 <= b.Length
    modifies b
    ensures next == o + 1 && b[..] == Spliced(old(b[..]), o, LittleEndian(value, 1))
  {
    b[o] := value % 256;
    next := o + 1;
    Explicit(value, 1);
    IsSpliced(old(b[..]), b[..], o, LittleEndian(value, 1));
  }

  method WriteUint16(b: array<byte>, o: nat, value: nat) returns (next: nat)
    requires o + 2 <= b.Length
    modifies b
    ensures next == o + 2 && b[..] == Spliced(old(b[..]), o, LittleEndian(value, 2))
  {
    b[o] := value % 256;
    b[o + 1] := value / 0x100 % 256;
    next := o + 2;
    Explicit(value, 2);
    IsSpliced(old(b[..]), b[..], o, LittleEndian(value, 2));
  }

  method WriteUint24(b: array<byte>, o: nat, value: nat) returns (next: nat)
    requires o + 3 <= b.Length
    modifies b
    ensures next == o + 3 && b[..] == Spliced(old(b[..]), o, LittleEndian(value, 3))
  {
    b[o] := value % 256;
    b[o + 1] := value / 0x100 % 256;
    b[o + 2] := value / 0x10000 % 256;
    next := o + 3;
    Explicit(value, 3);
    IsSpliced(old(b[..]), b[..], o, LittleEndian(value, 3));
  }

  method WriteUint32(b: array<byte>, o: nat, value: nat) returns (next: nat)
    requires o + 4 <= b.Length
    modifies b
    ensures next == o + 4 && b[..] == Spliced(old(b[..]), o, LittleEndian(value, 4))
  {
    b[o] := value % 256;
    b[o + 1] := value / 0x100 % 256;
    b[o + 2] := value / 0x10000 % 256;
    b[o + 3] := value / 0x1000000 % 256;
    next := o + 4;
    Explicit(value, 4);
    IsSpliced(old(b[..]), b[..], o, LittleEndian(value, 4));
  }

  method WriteUint48(b: array<byte>, o: nat, value: nat) returns (next: nat)
    requires o + 6 <= b.Length
    modifies b
    ensures next == o + 6 && b[..] == Spliced(old(b[..]), o, LittleEndian(value, 6))
  {
    b[o] := value % 256;
    b[o + 1] := value / 0x100 % 256;
    b[o + 2] := value / 0x10000 % 256;
    b[o + 3] := value / 0x1000000 % 256;
    b[o + 4] := value / 0x100000000 % 256;
    b[o + 5] := value / 0x10000000000 % 256;
    next := o + 6;
    Explicit(value, 6);
    IsSpliced(old(b[..]), b[..], o, LittleEndian(value, 6));
  }

  /** The width dispatch; other widths are a panic of the source. */
  method WriteUint(b: array<byte>, o: nat, value: nat, width: nat) returns (next: nat)
    requires width in {1, 2, 3, 4, 6}
    requires o + width <= b.Length
    modifies b
    ensures next == o + width && b[..] == Spliced(old(b[..]), o, LittleEndian(value, width))
  {
    match width
    case 1 => next := WriteUint8(b, o, value);
    case 2 => next := WriteUint16(b, o, value);
    case 3 => next := WriteUint24(b, o, value);
    case 4 => next := WriteUint32(b, o, value);
    case _ => next := WriteUint48(b, o, value);
  }

  lemma Shifts(v: nat)
    ensures v / 0x100 / 256 == v / 0x10000
    ensures v / 0x10000 / 256 == v / 0x1000000
    ensures v / 0x1000000 / 256 == v / 0x100000000
    ensures v / 0x100000000 / 256 == v / 0x10000000000
  {
  }

  lemma Unfold(v: nat, w: nat)
    requires w >= 1
    ensures LittleEndian(v, w)[0] == v % 256 && LittleEndian(v, w)[1..] == LittleEndian(v / 256, w - 1)
  {
  }

  /** The bytes of a field, as the source shifts them out. */
  lemma Explicit(v: nat, w: nat)
    requires w <= 6
    ensures w >= 1 ==> LittleEndian(v, w)[0] == v % 256
    ensures w >= 2 ==> LittleEndian(v, w)[1] == v / 0x100 % 256
    ensures w >= 3 ==> LittleEndian(v, w)[2] == v / 0x10000 % 256
    ensures w >= 4 ==> LittleEndian(v, w)[3] == v / 0x1000000 % 256
    ensures w >= 5 ==> LittleEndian(v, w)[4] == v / 0x100000000 % 256
    ensures w >= 6 ==> LittleEndian(v, w)[5] == v / 0x10000000000 % 256
  {
    Shifts(v);
    if w >= 1 { Unfold(v, w); }
    if w >= 2 { Unfold(v / 0x100, w - 1); }
    if w >= 3 { Unfold(v / 0x10000, w - 2); }
    if w >= 4 { Unfold(v / 0x1000000, w - 3); }
    if w >= 5 { Unfold(v / 0x100000000, w - 4); }
    if w >= 6 { Unfold(v / 0x10000000000, w - 5); }
  }

  /** Copies value into b at offset o. */
  method WriteBytes(b: array<byte>, o: nat, value: seq<byte>) returns (next: nat)
    requires o + |value| <= b.Length
    modifies b
    ensures next == o + |value| && b[..] == Spliced(old(b[..]), o, value)
  {
    next := o + |value|;
    forall k | 0 <= k < |value| {
      b[o + k] := value[k];
    }
    IsSpliced(old(b[..]), b[..], o, value);
  }
}
