/** Reading back what is written: a whole packet, and a packet put on a channel. */
module RoundTrip {
  import opened Bytes
  import opened Codec
  import opened Demux
  import opened Runs

  function HeaderOf(d: Draft): Header { Header(d.id, d.action, |d.data|, 0, 0) }

  lemma FieldsOf(a: seq<byte>, b: seq<byte>, c: seq<byte>, d: seq<byte>, e: seq<byte>)
    ensures var s, n := a + b + c + d + e, |a| + |b|;
            && s[..|a|] == a && s[|a|..n] == b && s[n..n + |c|] == c
            && s[n + |c|..n + |c| + |d|] == d && s[n + |c| + |d|..|s|] == e
  {
  }

  /** The flag byte tells the reader the widths the writer chose. */
  lemma FlagsRoundTrip(actionSize: nat, dataSize: nat)
    requires 1 <= actionSize <= MAX_UINT16 && dataSize <= MAX_UINT48
    ensures ActionSizeWidth(Flags(actionSize, dataSize)) == NameSizeBytes(actionSize)
    ensures DataSizeWidth(Flags(actionSize, dataSize)) == DataSizeBytes(dataSize)
    ensures FilesCountWidth(Flags(actionSize, dataSize)) == 0
  {
  }

  /** The bytes of a header with this flag byte, file fields included. */
  function HeaderWith(flags: byte, h: Header): seq<byte> {
    [flags] + h.id + LittleEndian(|h.action|, ActionSizeWidth(flags)) + h.action
    + LittleEndian(h.dataSize, DataSizeWidth(flags)) + LittleEndian(h.filesCount, FilesCountWidth(flags))
    + LittleEndian(h.totalFilesSize, FilesSizeWidth(flags))
  }

  /** The fields fit the widths that the flags announce. */
  predicate Fits(flags: byte, h: Header) {
    && |h.id| == 16 && |h.action| < Pow256(ActionSizeWidth(flags)) && h.dataSize < Pow256(DataSizeWidth(flags))
    && h.filesCount < Pow256(FilesCountWidth(flags)) && h.totalFilesSize < Pow256(FilesSizeWidth(flags))
  }

  lemma TwoMore(a: seq<byte>, b: seq<byte>, c: seq<byte>)
    ensures var s, n := a + b + c, |a| + |b|; s[..|a|] == a && s[|a|..n] == b && s[n..|s|] == c
  {
  }

  lemma Prefixed(a: seq<byte>, b: seq<byte>, i: nat, j: nat)
    requires i <= j <= |a|
    ensures (a + b)[i..j] == a[i..j]
  {
  }

  /** For every flag byte, a header's fields are found again, each in its place. */
  lemma AnyHeaderRoundTrip(flags: byte, h: Header)
    requires Fits(flags, h)
    ensures var s := HeaderWith(flags, h);
            LengthKnown(s) && HeaderLength(s) == |s| && s[0] == flags && DecodeHeader(s) == h
  {
    hide LittleEndian, Pow256, Value, ActionSizeWidth, DataSizeWidth, FilesCountWidth, FilesSizeWidth;
    var name := LittleEndian(|h.action|, ActionSizeWidth(flags));
    var data := LittleEndian(h.dataSize, DataSizeWidth(flags));
    var count := LittleEndian(h.filesCount, FilesCountWidth(flags));
    var size := LittleEndian(h.totalFilesSize, FilesSizeWidth(flags));
    LittleEndianThenValue(|h.action|, |name|);
    LittleEndianThenValue(h.dataSize, |data|);
    LittleEndianThenValue(h.filesCount, |count|);
    LittleEndianThenValue(h.totalFilesSize, |size|);
    var front := [flags] + h.id + name + h.action + data;
    var s := HeaderWith(flags, h);
    FieldsOf([flags], h.id, name, h.action, data);
    TwoMore(front, count, size);
    assert s == front + (count + size);
    Prefixed(front, count + size, 0, 17 + |name|);
    Prefixed(front, count + size, 17, 17 + |name|);
    Prefixed(front, count + size, 1, 17);
    Prefixed(front, count + size, 17 + |name|, 17 + |name| + |h.action|);
    Prefixed(front, count + size, 17 + |name| + |h.action|, |front|);
    assert s[0] == flags && ActionSize(s) == |h.action|;
  }

  /** And whatever a header's bytes are, they are those of the fields found in it: the fields leave out
      nothing but the bits of the flag byte. */
  lemma AnyHeaderIsItsFields(s: seq<byte>)
    requires LengthKnown(s) && |s| == HeaderLength(s)
    ensures Fits(s[0], DecodeHeader(s)) && HeaderWith(s[0], DecodeHeader(s)) == s
  {
    hide LittleEndian, Pow256, Value, ActionSizeWidth, DataSizeWidth, FilesCountWidth, FilesSizeWidth;
    var name, data := s[17..ActionAt(s[0])], s[DataSizeAt(s)..FilesCountAt(s)];
    var count, size := s[FilesCountAt(s)..FilesSizeAt(s)], s[FilesSizeAt(s)..HeaderLength(s)];
    FieldIsItsValue(name, ActionSizeWidth(s[0]));
    FieldIsItsValue(data, DataSizeWidth(s[0]));
    FieldIsItsValue(count, FilesCountWidth(s[0]));
    FieldIsItsValue(size, FilesSizeWidth(s[0]));
    Cut(s, 17, ActionAt(s[0]), DataSizeAt(s), FilesCountAt(s), FilesSizeAt(s));
  }

  lemma FieldIsItsValue(field: seq<byte>, width: nat)
    requires |field| == width
    ensures Value(field) < Pow256(width) && LittleEndian(Value(field), width) == field
  {
    ValueThenLittleEndian(field);
  }

  lemma Cut(s: seq<byte>, b: nat, c: nat, d: nat, e: nat, f: nat)
    requires 1 <= b <= c <= d <= e <= f <= |s|
    ensures [s[0]] + s[1..b] + s[b..c] + s[c..d] + s[d..e] + s[e..f] + s[f..|s|] == s
  {
  }

  /** Every header that can be written decodes to what it says, at exactly its own length. */
  lemma HeaderRoundTrip(id: seq<byte>, action: seq<byte>, dataSize: nat)
    requires IsHeader(id, action, dataSize)
    ensures var h := HeaderFor(id, action, dataSize);
            && LengthKnown(h) && HeaderLength(h) == |h| && DecodeHeader(h) == Header(id, action, dataSize, 0, 0)
            && !FilesSizeBroken(h[0]) && (forall left :: Complete(h, left))
  {
    hide Flags, LittleEndian, Pow256, MinSizeBytes, Value;
    var h := HeaderFor(id, action, dataSize);
    var nameField := LittleEndian(|action|, NameSizeBytes(|action|));
    var dataField := LittleEndian(dataSize, DataSizeBytes(dataSize));
    FlagsRoundTrip(|action|, dataSize);
    NoBytes();
    WidthsAreTight(|action|);
    WidthsAreTight(dataSize);
    LittleEndianThenValue(|action|, |nameField|);
    LittleEndianThenValue(dataSize, |dataField|);
    FieldsOf([Flags(|action|, dataSize)], id, nameField, action, dataField);
    assert h[0] == Flags(|action|, dataSize);
    assert ActionSize(h) == |action|;
    assert HeaderLength(h) == |h|;
    assert h[FilesCountAt(h)..FilesSizeAt(h)] == [] == h[FilesSizeAt(h)..HeaderLength(h)];
  }

  /** A header that fills its packet is delivered with its last byte exactly if something follows the
      action's size: an empty action without data or files leaves the channel waiting for ever,
      because its reader wants a byte to be there even to read none. */
  lemma HeaderAlone(st: State, h: seq<byte>)
    requires st.mode == InPayload(HeaderPart, |h|) && WellFormed(st) && Here(st).Reading? && Here(st).got == []
    requires LengthKnown(h) && |h| == HeaderLength(h) && !FilesSizeBroken(h[0])
    ensures var st' := Run(st, h);
            && st'.mode.AtSignature?
            && (|st'.log| == |st.log| + 1 <==> |h| > ActionAt(h[0]))
            && (|h| == ActionAt(h[0]) ==> st'.log == st.log && Here(st').Reading?)
  {
    hide Run, Overlay, Settled;
    assert [] + h == h && ChannelConsistent(st.channels, st.log, st.current);
    RunHeader(st, h, 0);
  }

  /** A packet whose size field is read whole fails there exactly if the field is the 32-bit one, and
      that one always fails: it is read into three bytes (stream_reader.go:144-156). */
  lemma WideSizePanics(st: State, signature: byte, field: seq<byte>)
    requires st.mode.AtSignature? && signature / 16 in {MESSAGE, DATA, STREAM} && |field| == SizeFieldWidth(signature)
    requires signature / 16 == MESSAGE ==> Here(st).Idle? ==> Here(st).residue == []
    ensures Run(st, [signature] + field).mode == Failed(Panic) <==> signature / 4 % 4 == 3
  {
    RunConcat(st, [signature], field);
    RunOne(st, signature);
    RunSize(Step(st, signature), signature, [], field);
  }

  lemma PrefixBits(signature: nat, w: nat)
    requires signature <= 243 && signature / 4 % 4 == 0 && 1 <= w <= 4
    ensures var b := signature + 4 * (w - 1);
            b / 16 == signature / 16 && b / 4 % 4 == w - 1 && b % 2 == signature % 2 && b / 2 % 2 == signature / 2 % 2
  {
    assert signature == 16 * (signature / 16) + signature % 4;
  }

  /** Signature and size are read back, and the size's width does not disturb the flags; a size over
      24 bits is written but cannot be read back. */
  lemma RunPrefix(st: State, signature: nat, size: nat)
    requires st.mode.AtSignature? && size <= MAX_UINT32
    requires signature <= 243 && signature / 4 % 4 == 0 && signature / 16 in {MESSAGE, DATA, STREAM}
    ensures Run(st, Prefix(signature, size)) == if size <= MAX_UINT24 then Begin(st, signature, size) else Fail(st, Panic)
  {
    hide Begin, LittleEndian, Value, Pow256, Run;
    var w := SizeWidth(size);
    var b: byte := signature + 4 * (w - 1);
    var field := LittleEndian(size, w);
    PrefixBits(signature, w);
    LittleEndianThenValue(size, w);
    RunConcat(st, [b], field);
    RunOne(st, b);
    if w <= 3 {
      RunSize(Step(st, b), b, [], field);
      BeginLooksAt(st, AtSize(b, []), signature, b, size);
      assert [] + field == field;
    } else {
      RunWide(st, b, field);
    }
  }

  lemma RunWide(st: State, b: byte, field: seq<byte>)
    requires st.mode.AtSignature? && b / 16 in {MESSAGE, DATA, STREAM} && b / 4 % 4 == 3 && |field| == 4
    ensures Run(Step(st, b), field) == Fail(st, Panic)
  {
    hide Begin, Run;
    RunSize(Step(st, b), b, [], field[..3]);
    RunConcat(Step(st, b), field[..3], field[3..]);
    assert field[..3] + field[3..] == field;
    RunFailed(Fail(st, Panic), field[3..]);
  }

  lemma RunSwitch(st: State, channel: nat)
    requires st.mode.AtSignature? && channel < |st.channels| && channel < MAX_CHANNELS
    ensures Run(st, SwitchPacket(channel)) == st.(current := channel)
  {
    if channel <= 15 {
      RunOne(st, channel);
    } else {
      var a, b := 16 * CHANNEL_HIGH + channel / 256, channel % 256;
      RunConcat(st, [a], [b]);
      RunOne(st, a);
      RunOne(Step(st, a), b);
      assert [a] + [b] == SwitchPacket(channel);
    }
  }

  /** The channel is in a state where this packet may come. */
  predicate Accepts(st: State, channel: nat, p: Packet) {
    var st := st.(current := channel);
    match p
    case Message(d) => Here(st) == Idle([])
    case Data(x) => ExpectsData(st) && |x| <= Here(st).feed.Room(Active(st))
    case Stream(x) => ExpectsStream(st)
    case StreamEnd => ExpectsStream(st)
  }

  /** What a packet does to the receiver, said without bytes. */
  function Arrive(st: State, channel: nat, p: Packet): State
    requires Accepts(st, channel, p)
  {
    var st := st.(current := channel);
    match p
    case Message(d) => Deliver(st, d.expectsResponse, d.hasStream, HeaderOf(d))
    case Data(x) => DataPassed(st, x, 0)
    case Stream(x) => StreamPassed(st, x, 0)
    case StreamEnd => Demux.EndStream(st)
  }

  /** Delivering overwrites the header that was being read. */
  lemma DeliverOverReading(st: State, r: bool, s: bool, got: seq<byte>, h: Header, m: Mode)
    requires st.current < |st.channels|
    ensures Deliver(Put(st, Reading(r, s, [], got)).(mode := m), r, s, h).(mode := st.mode) == Deliver(st, r, s, h)
  {
    var e := Entry(st.current, r, s, h, [], [], false, false);
    UpdateTwice(st.channels, st.current, Reading(r, s, [], got), Settled(|st.log|, e, [], UsualFeed(h.dataSize)));
  }

  lemma BeginMessage(st: State, d: Draft)
    requires d.Valid() && st.mode.AtSignature? && st.current < |st.channels| && Here(st) == Idle([])
    ensures MessageSignature(d) <= 243 && MessageSignature(d) / 4 % 4 == 0 && MessageSignature(d) / 16 == MESSAGE
    ensures |HeaderBytes(d)| <= MAX_UINT24
    ensures Run(st, Prefix(MessageSignature(d), |HeaderBytes(d)|))
         == Put(st, Reading(d.expectsResponse, d.hasStream, [], [])).(mode := InPayload(HeaderPart, |HeaderBytes(d)|))
  {
    hide Run, HeaderBytes, LittleEndian, Prefix;
    HeaderFitsPacket(d);
    RunPrefix(st, MessageSignature(d), |HeaderBytes(d)|);
  }

  lemma RunMessage(st: State, d: Draft)
    requires st.mode.AtSignature? && st.current < |st.channels| && Here(st) == Idle([]) && d.Valid()
    ensures Run(st, Encode(Message(d))) == Arrive(st, st.current, Message(d))
  {
    hide Run, HeaderFor, LittleEndian, Prefix, Deliver, DecodeHeader, LengthKnown, HeaderLength, Overlay, FilesSizeBroken;
    var h, r, s := HeaderBytes(d), d.expectsResponse, d.hasStream;
    BeginMessage(st, d);
    RunConcat(st, Prefix(MessageSignature(d), |h|), h);
    var begun := Put(st, Reading(r, s, [], [])).(mode := InPayload(HeaderPart, |h|));
    HeaderRoundTrip(d.id, d.action, |d.data|);
    OverlayIsDecode(h, 0);
    assert Here(begun) == Reading(r, s, [], []) && [] + h == h;
    RunHeader(begun, h, 0);
    NothingIn();
    DeliverOverReading(st, r, s, [], HeaderOf(d), begun.mode);
  }

  lemma NothingIn()
    ensures !DataIn([], 0)
  {
  }

  lemma RunDataPacket(st: State, x: seq<byte>)
    requires st.mode.AtSignature? && |x| <= MAX_UINT24 && ExpectsData(st) && |x| <= Here(st).feed.Room(Active(st))
    ensures Run(st, Encode(Data(x))) == DataPassed(st, x, 0)
  {
    hide LittleEndian, Value, Pow256, Run, Prefix, Record;
    RunPrefix(st, 16 * DATA, |x|);
    RunConcat(st, Prefix(16 * DATA, |x|), x);
    var begun := st.(mode := Rest(DataPart, |x|));
    assert Run(st, Prefix(16 * DATA, |x|)) == begun;
    if x == [] {
      RunNothing(st);
      PassedNothing(st);
    } else {
      RunData(begun, x, 0);
      RecordAnyMode(st, begun.mode, DataInto(Active(st), Here(st).feed, x), FeedInto(Here(st).feed, x));
    }
  }

  lemma RunStreamPacket(st: State, x: seq<byte>)
    requires st.mode.AtSignature? && |x| <= MAX_UINT24 && ExpectsStream(st)
    ensures Run(st, Encode(Stream(x))) == StreamPassed(st, x, 0)
  {
    hide LittleEndian, Value, Pow256, Run, Prefix, Record;
    RunPrefix(st, 16 * STREAM, |x|);
    RunConcat(st, Prefix(16 * STREAM, |x|), x);
    var begun := st.(mode := Rest(StreamPart, |x|));
    assert Run(st, Prefix(16 * STREAM, |x|)) == begun;
    if x == [] {
      RunNothing(st);
      PassedNothing(st);
    } else {
      RunStream(begun, x, 0);
      RecordAnyMode(st, begun.mode, Active(st).(stream := Active(st).stream + x), Here(st).feed);
    }
  }

  lemma RecordAnyMode(st: State, m: Mode, e: Entry, feed: Feed)
    requires Attached(st)
    ensures Record(st.(mode := m), e, feed).(mode := st.mode) == Record(st, e, feed).(mode := st.mode)
  {
  }

  lemma RunNothing(st: State)
    ensures Run(st, []) == st
  {
  }

  /** A part of no bytes changes nothing. */
  lemma PassedNothing(st: State)
    requires Attached(st) && !(Here(st).feed.Done(Active(st)) && Active(st).StreamDone())
    ensures DataPassed(st, [], 0) == StreamPassed(st, [], 0) == st.(mode := AtSignature)
  {
    var e, feed := Active(st), Here(st).feed;
    assert e.data + [] == e.data && e.stream + [] == e.stream && (feed.Former? ==> feed.received + [] == feed.received);
    assert st.log[Here(st).index := e] == st.log && st.channels[st.current := Here(st)] == st.channels;
  }

  lemma RunEnd(st: State)
    requires st.mode.AtSignature? && ExpectsStream(st)
    ensures Run(st, Encode(StreamEnd)) == Arrive(st, st.current, StreamEnd)
  {
    RunOne(st, 16 * STREAM_END);
  }

  lemma RunPacket(st: State, p: Packet)
    requires WellFormed(st) && st.mode.AtSignature? && p.Readable() && Accepts(st, st.current, p)
    ensures Run(st, Encode(p)) == Arrive(st, st.current, p)
  {
    hide DataPassed, StreamPassed, Deliver, Encode, Run, ExpectsData, ExpectsStream;
    match p {
      case Message(d) => RunMessage(st, d);
      case StreamEnd => RunEnd(st);
      case Data(x) => RunDataPacket(st, x);
      case Stream(x) => RunStreamPacket(st, x);
    }
  }

  /** A written switch moves the reader to the channel; an omitted one finds it there. */
  lemma RunEmit(st: State, channel: nat, packet: seq<byte>)
    requires st.mode.AtSignature? && channel < |st.channels| && channel < MAX_CHANNELS
    ensures Run(st, Emit(st.current, channel, packet)) == Run(st.(current := channel), packet)
  {
    if st.current != channel {
      RunSwitch(st, channel);
      RunConcat(st, SwitchPacket(channel), packet);
    } else {
      assert st.(current := channel) == st;
    }
  }

  /** A packet put on a channel arrives on that channel, whether or not a switch was written. */
  lemma EmitArrives(st: State, channel: nat, p: Packet)
    requires WellFormed(st) && st.mode.AtSignature? && p.Readable()
    requires channel < |st.channels| && channel < MAX_CHANNELS && Accepts(st, channel, p)
    ensures Run(st, Emit(st.current, channel, Encode(p))) == Arrive(st, channel, p)
    ensures WellFormed(Arrive(st, channel, p))
  {
    var there := st.(current := channel);
    RunEmit(st, channel, Encode(p));
    RunPacket(there, p);
    RunKeeps(there, Encode(p));
  }
}
