/** What two peers say to each other before any packet: how many channels each of them reads, and
    what the writer makes of it (protocol_utils.go, parser.go, conn.go). */
module Handshake {
  import opened Bytes
  import opened Codec

  /** An option left at zero takes its default (utils.go:7-12). */
  function GetDefault(value: nat, default: nat): nat { if value == 0 then default else value }

  /** The upper six bits of the first byte. */
  const CONTROL_BITS: nat := 0xE0

  function ProtocolHeader(channels: nat): seq<byte>
    requires 1 <= channels <= MAX_CHANNELS
  {
    if channels == 1 then [CONTROL_BITS]
    else if channels <= 256 then [CONTROL_BITS + 1, channels % 256]
    else if channels < MAX_CHANNELS then [CONTROL_BITS + 2] + LittleEndian(channels, 2)
    else [CONTROL_BITS + 3]
  }

  /** The form of the header for every count: nothing, one byte or two behind the first one. */
  lemma ProtocolHeaderForm(channels: nat)
    requires 1 <= channels <= MAX_CHANNELS
    ensures ProtocolHeader(channels)
         == if channels == 1 then [0xE0]
            else if channels <= 256 then [0xE1, channels % 256]
            else if channels <= 4095 then [0xE2, channels % 256, channels / 256]
            else [0xE3]
  {
    if 256 < channels < MAX_CHANNELS { Explicit(channels, 2); }
  }

  /** What reading a header gives: a count and how many bytes were taken, or a reason why not. */
  datatype Greeting =
    | Channels(count: nat, taken: nat)
    | CutOff
    | InvalidControlBits
    | InvalidChannelsCount

  function ReadProtocolHeader(s: seq<byte>): (r: Greeting)
    ensures r.Channels? ==> r.taken <= |s|
  {
    if s == [] then CutOff
    else if s[0] / 4 * 4 != CONTROL_BITS then InvalidControlBits
    else match s[0] % 4
      case 0 => Channels(1, 1)
      case 1 => if |s| < 2 then CutOff else Channels(s[1], 2)
      case 2 =>
        if |s| < 3 then CutOff
        else if ReadUint16(s, 1) > MAX_CHANNELS then InvalidChannelsCount
        else Channels(ReadUint16(s, 1), 3)
      case _ => Channels(MAX_CHANNELS, 1)
  }

  /** Which bytes give which greeting, for every input: only four first bytes are a header's, an error
      is given exactly for its reason, and no more than 4096 channels are ever understood. */
  lemma GreetingSays(s: seq<byte>)
    ensures var r := ReadProtocolHeader(s);
            && (r == InvalidControlBits <==> s != [] && s[0] !in {0xE0, 0xE1, 0xE2, 0xE3})
            && (r == InvalidChannelsCount <==> |s| >= 3 && s[0] == 0xE2 && s[1] as nat + 256 * (s[2] as nat) > 4096)
            && (r == CutOff <==> s == [] || (s[0] == 0xE1 && |s| < 2) || (s[0] == 0xE2 && |s| < 3))
            && (r.Channels? ==>
                  && r.count <= 4096
                  && match s[0]
                     case 0xE0 => r == Channels(1, 1)
                     case 0xE1 => r == Channels(s[1], 2)
                     case 0xE2 => r == Channels(s[1] as nat + 256 * (s[2] as nat), 3)
                     case _ => r == Channels(4096, 1))
  {
  }

  /** A header is read back as what was written, unless it says 256: the single byte it is given
      holds 0 then. Whatever follows is left alone. */
  lemma GreetingRoundTrip(channels: nat, rest: seq<byte>)
    requires 1 <= channels <= MAX_CHANNELS
    ensures var r := ReadProtocolHeader(ProtocolHeader(channels) + rest);
            && r == Channels(if channels == 256 then 0 else channels, |ProtocolHeader(channels)|)
            && (ProtocolHeader(channels) + rest)[r.taken..] == rest
  {
    var s := ProtocolHeader(channels) + rest;
    if 256 < channels < MAX_CHANNELS {
      LittleEndianThenValue(channels, 2);
      Powers();
      assert s[1..3] == LittleEndian(channels, 2);
      ReadersAgree(s, 1);
    }
  }

  /** Channels the writer uses: no more than it was told to, nor than the peer says it reads, and a
      zero falls back to the maximum (conn.go:117-146, writer.go:36-45). */
  function WriteChannels(option: nat, announced: nat): nat
    requires 1 <= option <= MAX_CHANNELS
  {
    var wanted := if announced < option then announced else option;
    GetDefault(wanted, MAX_CHANNELS)
  }

  /** What the writer ends up with when its peer reads this many channels and says so. */
  function Negotiated(option: nat, accepts: nat): nat
    requires 1 <= option <= MAX_CHANNELS && 1 <= accepts <= MAX_CHANNELS
  {
    match ReadProtocolHeader(ProtocolHeader(accepts))
    case Channels(count, _) => WriteChannels(option, count)
    case _ => option
  }

  /** The writer keeps to the channels its peer reads exactly if the peer does not read 256, and then
      it uses as many as it can: the smaller of what it was told and what the peer reads. */
  lemma NegotiationIsSafe(option: nat, accepts: nat)
    requires 1 <= option <= MAX_CHANNELS && 1 <= accepts <= MAX_CHANNELS
    ensures var w := Negotiated(option, accepts);
            && 1 <= w <= MAX_CHANNELS
            && (w <= accepts <==> accepts != 256)
            && (accepts != 256 ==> w == if accepts < option then accepts else option)
            && (accepts == 256 ==> w == MAX_CHANNELS)
  {
    GreetingRoundTrip(accepts, []);
    assert ProtocolHeader(accepts) + [] == ProtocolHeader(accepts);
  }
}
