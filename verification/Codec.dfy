/** What goes on the wire: packets, the Message header and the width selection
    (constants.go, packet.go, protocol_utils.go, message_draft.go). */
module Codec {
  import opened Bytes

  // Packet kinds: the high four bits of a signature byte.

  const CHANNEL_LOW: nat := 0
  const CHANNEL_HIGH: nat := 1
  const MESSAGE: nat := 2
  const STREAM: nat := 7
  const STREAM_END: nat := 8
  const HEARTBEAT: nat := 10
  const DATA: nat := 14

  const MAX_CHANNELS: nat := 4096

  /** What the application asks to send. The file list is always empty (message_draft.go:63-67). */
  datatype Draft = Draft(id: seq<byte>, action: seq<byte>, data: seq<byte>, expectsResponse: bool, hasStream: bool)
  {
    /** Ids are 16 bytes, actions are what getNameSizeBytes accepts, data fits a packet. */
    predicate Valid() {
      IsHeader(id, action, |data|) && |data| <= MAX_UINT32
    }

    /** The receiver cannot read a Data packet with a 32-bit size. */
    predicate Readable() {
      Valid() && |data| <= MAX_UINT24
    }
  }

  // Width selection.

  function MinSizeBytes(size: nat): (w: nat)
    requires size <= MAX_UINT48
    ensures w in {0, 1, 2, 3, 4, 6}
  {
    if size == 0 then 0
    else if size <= MAX_UINT8 then 1
    else if size <= MAX_UINT16 then 2
    else if size <= MAX_UINT24 then 3
    else if size <= MAX_UINT32 then 4
    else 6
  }

  function NameSizeBytes(size: nat): nat
    requires 1 <= size <= MAX_UINT16
  {
    MinSizeBytes(size)
  }

  function DataSizeBytes(size: nat): nat
    requires size <= MAX_UINT48
  {
    var w := MinSizeBytes(size);
    if w <= 2 then w else 6
  }

  /** The field is the narrowest supported one that holds the size. */
  lemma WidthsAreTight(size: nat)
    requires size <= MAX_UINT48
    ensures size < Pow256(MinSizeBytes(size)) && size < Pow256(DataSizeBytes(size))
    ensures forall w :: w in {0, 1, 2, 3, 4, 6} && size < Pow256(w) ==> MinSizeBytes(size) <= w
    ensures forall w :: w in {0, 1, 2, 6} && size < Pow256(w) ==> DataSizeBytes(size) <= w
    ensures 1 <= size <= MAX_UINT16 ==> NameSizeBytes(size) in {1, 2} && size < Pow256(NameSizeBytes(size))
    ensures 1 <= size <= MAX_UINT8 ==> NameSizeBytes(size) == 1
    ensures size <= MAX_UINT32 ==> forall w :: 1 <= w && size < Pow256(w) ==> SizeWidth(size) <= w
  {
    Powers();
  }

  // The header's flag byte: data width in bits 6-7, file fields in bits 2-5, name width in bit 1.

  function NameSizeFlag(w: nat): nat { if w == 1 then 0 else 2 }

  function DataSizeFlag(w: nat): nat { if w == 0 then 0x00 else if w == 1 then 0x40 else if w == 2 then 0x80 else 0xC0 }

  /** What a header can say: the id, an action that getNameSizeBytes accepts, a 48-bit data size. */
  predicate IsHeader(id: seq<byte>, action: seq<byte>, dataSize: nat) {
    |id| == 16 && 1 <= |action| <= MAX_UINT16 && dataSize <= MAX_UINT48
  }

  function Flags(actionSize: nat, dataSize: nat): byte
    requires 1 <= actionSize <= MAX_UINT16 && dataSize <= MAX_UINT48
  {
    NameSizeFlag(NameSizeBytes(actionSize)) + DataSizeFlag(DataSizeBytes(dataSize))
  }

  function HeaderFor(id: seq<byte>, action: seq<byte>, dataSize: nat): seq<byte>
    requires IsHeader(id, action, dataSize)
  {
    [Flags(|action|, dataSize)] + id
    + LittleEndian(|action|, NameSizeBytes(|action|)) + action
    + LittleEndian(dataSize, DataSizeBytes(dataSize))
  }

  function HeaderBytes(d: Draft): seq<byte>
    requires d.Valid()
  {
    HeaderFor(d.id, d.action, |d.data|)
  }

  // Framing.

  function SizeWidth(size: nat): (w: nat)
    requires size <= MAX_UINT32
    ensures 1 <= w <= 4 && size < Pow256(w) && (w == 4 <==> size > MAX_UINT24)
  {
    Powers();
    if size <= MAX_UINT8 then 1 else if size <= MAX_UINT16 then 2 else if size <= MAX_UINT24 then 3 else 4
  }

  /** Signature with the width of the size in bits 2-3, the size, the payload. */
  function Prefix(signature: nat, size: nat): seq<byte>
    requires size <= MAX_UINT32 && signature <= 243 && signature / 4 % 4 == 0
  {
    [signature + 4 * (SizeWidth(size) - 1)] + LittleEndian(size, SizeWidth(size))
  }

  function MessageSignature(d: Draft): nat {
    16 * MESSAGE + (if d.hasStream then 2 else 0) + (if d.expectsResponse then 1 else 0)
  }

  function SwitchPacket(channel: nat): seq<byte>
    requires channel < MAX_CHANNELS
  {
    if channel <= 15 then [16 * CHANNEL_LOW + channel] else [16 * CHANNEL_HIGH + channel / 256, channel % 256]
  }

  datatype Packet = Message(draft: Draft) | Data(bytes: seq<byte>) | Stream(bytes: seq<byte>) | StreamEnd
  {
    /** What can be written: sizes take up to 32 bits. */
    predicate Valid() {
      match this
      case Message(d) => d.Valid()
      case Data(x) => |x| <= MAX_UINT32
      case Stream(x) => |x| <= MAX_UINT32
      case StreamEnd => true
    }

    /** What can be read back: the reader fails on a 32-bit size. */
    predicate Readable() {
      match this
      case Message(d) => d.Valid()
      case Data(x) => |x| <= MAX_UINT24
      case Stream(x) => |x| <= MAX_UINT24
      case StreamEnd => true
    }
  }

  lemma HeaderFitsPacket(d: Draft)
    requires d.Valid()
    ensures 19 <= |HeaderBytes(d)| <= MAX_UINT24
  {
  }

  function Encode(p: Packet): seq<byte>
    requires p.Valid()
  {
    match p
    case Message(d) => HeaderFitsPacket(d); Prefix(MessageSignature(d), |HeaderBytes(d)|) + HeaderBytes(d)
    case Data(x) => Prefix(16 * DATA, |x|) + x
    case Stream(x) => Prefix(16 * STREAM, |x|) + x
    case StreamEnd => [16 * STREAM_END]
  }

  /** What one channelled write adds to the wire: the packet, after a switch if it is needed. */
  function Emit(current: nat, channel: nat, packet: seq<byte>): seq<byte>
    requires channel < MAX_CHANNELS
  {
    if current == channel then packet else SwitchPacket(channel) + packet
  }

  // The wire format, byte by byte.

  /** The flag byte says the widths of the action's size and of the data's size, and that there are no
      files. */
  lemma FlagsForm(actionSize: nat, dataSize: nat)
    requires 1 <= actionSize <= MAX_UINT16 && dataSize <= MAX_UINT48
    ensures Flags(actionSize, dataSize)
         == (if actionSize <= 255 then 0x00 else 0x02)
            + if dataSize == 0 then 0x00 else if dataSize <= 255 then 0x40 else if dataSize <= 65535 then 0x80 else 0xC0
  {
  }

  /** A number in so many bytes, the low ones first. */
  function Field(value: nat, width: nat): seq<byte>
    requires width <= 6
  {
    [value % 256, value / 0x100 % 256, value / 0x10000 % 256, value / 0x1000000 % 256, value / 0x100000000 % 256,
     value / 0x10000000000 % 256][..width]
  }

  lemma FieldIs(value: nat, width: nat)
    requires width <= 6
    ensures LittleEndian(value, width) == Field(value, width)
  {
    Explicit(value, width);
  }

  /** The header: flags, id, the action's size in one byte or two, the action, the data's size in none,
      one, two or six. */
  lemma HeaderForm(id: seq<byte>, action: seq<byte>, dataSize: nat)
    requires IsHeader(id, action, dataSize)
    ensures HeaderFor(id, action, dataSize)
         == [Flags(|action|, dataSize)] + id + Field(|action|, if |action| <= 255 then 1 else 2) + action
            + Field(dataSize, if dataSize == 0 then 0 else if dataSize <= 255 then 1 else if dataSize <= 65535 then 2 else 6)
  {
    FieldIs(|action|, NameSizeBytes(|action|));
    FieldIs(dataSize, DataSizeBytes(dataSize));
  }

  /** The packets: kind, width of the size and flags in one byte, the size in as few bytes as it takes,
      the payload. */
  lemma PacketForm(p: Packet)
    requires p.Valid()
    ensures match p
            case StreamEnd => Encode(p) == [0x80]
            case Data(x) => Encode(p) == Framed(0xE0, x)
            case Stream(x) => Encode(p) == Framed(0x70, x)
            case Message(d) =>
              |HeaderBytes(d)| <= MAX_UINT32 &&
              Encode(p) == Framed(0x20 + (if d.expectsResponse then 1 else 0) + (if d.hasStream then 2 else 0), HeaderBytes(d))
  {
    hide HeaderFor, LittleEndian, Field;
    match p
    case Message(d) => HeaderFitsPacket(d); FieldIs(|HeaderBytes(d)|, SizeWidth(|HeaderBytes(d)|));
    case Data(x) => FieldIs(|x|, SizeWidth(|x|));
    case Stream(x) => FieldIs(|x|, SizeWidth(|x|));
    case StreamEnd =>
  }

  function Framed(signature: nat, payload: seq<byte>): seq<byte>
    requires signature <= 243 && |payload| <= MAX_UINT32
  {
    if |payload| <= 0xFF then [signature] + Field(|payload|, 1) + payload
    else if |payload| <= 0xFFFF then [signature + 4] + Field(|payload|, 2) + payload
    else if |payload| <= 0xFF_FFFF then [signature + 8] + Field(|payload|, 3) + payload
    else [signature + 12] + Field(|payload|, 4) + payload
  }

  /** A switch takes one byte for the first sixteen channels and two for the others. */
  lemma SwitchForm(channel: nat)
    requires channel < MAX_CHANNELS
    ensures SwitchPacket(channel) == if channel < 16 then [channel] else [0x10 + channel / 256, channel % 256]
  {
  }
}
