/** The source selects bit fields with masks (constants.go) and joins them with or; the model divides
    and adds. The model's own functions select and join the same fields. */
module Bits {
  import opened Bytes
  import opened Codec
  import opened Demux
  import H = Handshake

  lemma HighHalf(b: bv8)
    ensures (b & 0xF0) as int == (b as int) / 16 * 16
  {
  }

  lemma LowHalf(b: bv8)
    ensures (b & 0x0F) as int == (b as int) % 16
  {
  }

  lemma HighTwo(b: bv8)
    ensures (b & 0xC0) as int == (b as int) / 64 * 64
  {
  }

  lemma NextTwo(b: bv8)
    ensures (b & 0x30) as int == (b as int) / 16 % 4 * 16
  {
  }

  lemma MiddleTwo(b: bv8)
    ensures (b & 0x0C) as int == (b as int) / 4 % 4 * 4
  {
  }

  lemma SecondLowest(b: bv8)
    ensures (b & 0x02) as int == (b as int) / 2 % 2 * 2
  {
  }

  lemma Lowest(b: bv8)
    ensures (b & 0x01) as int == (b as int) % 2
  {
  }

  /** The widths that the header's flag byte announces, as message_reader.go switches on them. */
  lemma HeaderWidths(b: bv8)
    ensures var f: byte := b as int;
            && ActionSizeWidth(f) == (match b & 0x02 case 0x00 => 1 case _ => 2)
            && DataSizeWidth(f) == (match b & 0xC0 case 0x00 => 0 case 0x40 => 1 case 0x80 => 2 case _ => 6)
            && FilesCountWidth(f) == (match b & 0x30 case 0x00 => 0 case 0x10 => 1 case 0x20 => 2 case _ => 3)
            && FilesSizeWidth(f)
               == (if b & 0x30 == 0 then 0 else match b & 0x0C case 0x00 => 2 case 0x04 => 3 case 0x08 => 3 case _ => 6)
            && (FilesSizeBroken(f) <==> b & 0x30 != 0 && b & 0x0C == 0x08)
  {
    SecondLowest(b);
    HighTwo(b);
    NextTwo(b);
    MiddleTwo(b);
  }

  /** The width of a packet's size, as getPacketSize switches on it. */
  lemma SizeWidths(b: bv8)
    ensures SizeFieldWidth(b as int) == (match b & 0x0C case 0x00 => 1 case 0x04 => 2 case _ => 3)
    ensures (b as int) / 4 % 4 == 3 <==> b & 0x0C == 0x0C
  {
    MiddleTwo(b);
  }

  /** What a signature byte makes of the machine, as Read switches on it. */
  lemma SignatureDispatch(st: State, b: bv8)
    ensures Signature(st, b as int) ==
            match b & 0xF0
            case 0xA0 => st
            case 0x00 => Switch(st, (b & 0x0F) as int)
            case 0x10 => st.(mode := AtChannelLow((b & 0x0F) as int))
            case 0x20 => st.(mode := AtSize(b as int, []))
            case 0xE0 => st.(mode := AtSize(b as int, []))
            case 0x70 => st.(mode := AtSize(b as int, []))
            case 0x80 => Demux.EndStream(st)
            case 0xF0 => Fail(st, UnknownSignature)
            case _ => Fail(st, NotImplemented)
  {
    hide Switch, Demux.EndStream;
    HighHalf(b);
    LowHalf(b);
  }

  /** What a Message signature says beside its kind and its size's width. */
  lemma MessageBits(st: State, b: bv8, size: nat)
    requires b & 0xF0 == 0x20 && Here(st).Idle?
    ensures Begin(st, b as int, size)
         == HeaderSoFar(st, b & 0x01 == 0x01, b & 0x02 == 0x02, Here(st).residue, Here(st).residue, size)
  {
    hide HeaderSoFar;
    HighHalf(b);
    SecondLowest(b);
    Lowest(b);
  }

  /** The control byte's constant bits and the form of its count, as ReadHeader tells them
      (parser.go:86-111): anything else in those bits is refused, whatever follows. */
  lemma ControlBits(b: bv8, rest: seq<byte>)
    ensures var r := H.ReadProtocolHeader([b as int] + rest);
            && (r == H.InvalidControlBits <==> b & 0xFC != 0xE0)
            && (b & 0xFC == 0xE0 ==>
                  match b & 0x03
                  case 0x00 => r == H.Channels(1, 1)
                  case 0x01 => r == if rest == [] then H.CutOff else H.Channels(rest[0], 2)
                  case 0x02 =>
                    r == (if |rest| < 2 then H.CutOff
                          else if rest[0] as nat + 256 * (rest[1] as nat) > 4096 then H.InvalidChannelsCount
                          else H.Channels(rest[0] as nat + 256 * (rest[1] as nat), 3))
                  case _ => r == H.Channels(4096, 1))
  {
    HeaderBits(b);
    H.GreetingSays([b as int] + rest);
  }

  lemma HeaderBits(b: bv8)
    ensures b & 0xFC == 0xE0 <==> (b as int) in {0xE0, 0xE1, 0xE2, 0xE3}
    ensures b & 0xFC == 0xE0 ==> (b & 0x03) as int == b as int - 0xE0
  {
  }

  /** The low half of a wide channel number is joined to the high one (parser.go:195). */
  lemma ChannelNumber(high: bv16, low: bv16)
    requires high < 16 && low < 256
    ensures ((high << 8) | low) as int == 256 * (high as int) + low as int
  {
  }

  /** The writer's flag bits do not overlap, so that joining them is adding them
      (message_draft.go:70-83). */
  lemma FlagBits(name: bv8, data: bv8, kind: bv8, expects: bv8, stream: bv8)
    requires name in {0x00, 0x02} && data in {0x00, 0x40, 0x80, 0xC0}
    requires expects in {0x00, 0x01} && stream in {0x00, 0x02}
    ensures (name | data) as int == name as int + data as int
    ensures (0x20 | expects | stream) as int == 16 * MESSAGE + expects as int + stream as int
  {
  }
}
