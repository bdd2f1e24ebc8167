/** The parser as a machine that takes one byte at a time. Feeding it a byte string is the
    one-shot reading of that string; since it keeps no window and makes no read calls, nothing in
    it depends on how the bytes arrive. The parser's classes are proved to follow it. */
module Demux {
  import opened Bytes
  import opened Codec

  /** How reading can fail. Panic stands for a run-time panic of the source. */
  datatype Error =
    | EndOfInput
    | ChannelOutOfRange
    | AlreadyProcessing
    | NotProcessing
    | UnexpectedData
    | MalformedSize
    | OutOfBounds
    | UnexpectedStream
    | NotImplemented
    | UnknownSignature
    | Panic

  datatype Header = Header(id: seq<byte>, action: seq<byte>, dataSize: nat, filesCount: nat, totalFilesSize: nat)

  /** A message delivered so far: its header and what has arrived of its parts. reread says that its
      packet went on behind its header, so that the parser has read on into it. */
  datatype Entry = Entry(channel: nat, expectsResponse: bool, hasStream: bool, header: Header,
                         data: seq<byte>, stream: seq<byte>, streamEnded: bool, reread: bool)
  {
    predicate DataDone() { |data| >= header.dataSize }
    predicate StreamDone() { !hasStream || streamEnded }
    predicate Done() { DataDone() && StreamDone() }
    function Due(): nat { if DataDone() then 0 else header.dataSize - |data| }
  }

  /** Where a channel's data goes: nowhere, to its message, or to data that its message has had
      before its header was read on into. */
  datatype Feed = NoFeed | Fed | Former(size: nat, received: seq<byte>)
  {
    predicate Done(e: Entry) {
      match this
      case NoFeed => true
      case Fed => e.DataDone()
      case Former(size, received) => |received| >= size
    }

    /** How much it still takes. */
    function Room(e: Entry): int {
      match this
      case NoFeed => 0
      case Fed => e.header.dataSize - |e.data|
      case Former(size, received) => size - |received|
    }
  }

  function UsualFeed(dataSize: nat): Feed { if dataSize > 0 then Fed else NoFeed }

  /** A channel's header reader is not reset with the channel: bytes of a header that was cut off stay
      in it. An idle channel keeps them, and a message that starts there goes on behind them (skip). */
  datatype Channel =
    | Idle(residue: seq<byte>)
    | Reading(expectsResponse: bool, hasStream: bool, skip: seq<byte>, got: seq<byte>)
    | Busy(index: nat, got: seq<byte>, feed: Feed)

  datatype Part = HeaderPart | DataPart | StreamPart

  datatype Mode =
    | AtSignature
    | AtChannelLow(high: nat)
    | AtSize(signature: byte, got: seq<byte>)
    | InPayload(part: Part, left: nat)
    | Failed(error: Error)

  /** log holds the messages, handed the places in it of those handed over, in order. A message whose
      header is read again is handed over again. */
  datatype State = State(current: nat, channels: seq<Channel>, log: seq<Entry>, handed: seq<nat>, mode: Mode)

  // Header layout, driven by the flag byte.

  function ActionSizeWidth(flags: byte): nat { if flags / 2 % 2 == 0 then 1 else 2 }

  function DataSizeWidth(flags: byte): nat {
    match flags / 64 case 0 => 0 case 1 => 1 case 2 => 2 case _ => 6
  }

  function FilesCountWidth(flags: byte): nat { flags / 16 % 4 }

  /** Bytes taken for the files size. The 32-bit reader takes three, see FilesSizeBroken. */
  function FilesSizeWidth(flags: byte): nat {
    if FilesCountWidth(flags) == 0 then 0 else
      match flags / 4 % 4 case 0 => 2 case 1 => 3 case 2 => 3 case _ => 6
  }

  /** The 32-bit reader has a three-byte buffer and decodes four bytes of it (stream_reader.go:144-156). */
  predicate FilesSizeBroken(flags: byte) { FilesCountWidth(flags) > 0 && flags / 4 % 4 == 2 }

  function ActionAt(flags: byte): nat { 17 + ActionSizeWidth(flags) }

  predicate LengthKnown(got: seq<byte>) { got != [] && |got| >= ActionAt(got[0]) }

  function ActionSize(got: seq<byte>): nat
    requires LengthKnown(got)
  {
    Value(got[17..ActionAt(got[0])])
  }

  function DataSizeAt(got: seq<byte>): nat
    requires LengthKnown(got)
  {
    ActionAt(got[0]) + ActionSize(got)
  }

  function FilesCountAt(got: seq<byte>): nat
    requires LengthKnown(got)
  {
    DataSizeAt(got) + DataSizeWidth(got[0])
  }

  function FilesSizeAt(got: seq<byte>): nat
    requires LengthKnown(got)
  {
    FilesCountAt(got) + FilesCountWidth(got[0])
  }

  function HeaderLength(got: seq<byte>): nat
    requires LengthKnown(got)
  {
    FilesSizeAt(got) + FilesSizeWidth(got[0])
  }

  /** The header ends here. An empty action with nothing after it ends only if the packet goes on:
      the action's reader wants a byte to be available even to read none (stream_reader.go:74-76). */
  predicate Complete(got: seq<byte>, left: nat) {
    LengthKnown(got) && |got| == HeaderLength(got) && (|got| > ActionAt(got[0]) || left > 0)
  }

  /** So much of a header does not go past its end. */
  predicate Within(got: seq<byte>) { LengthKnown(got) ==> |got| <= HeaderLength(got) }

  /** So much of a header ends before it does. */
  predicate Unfinished(got: seq<byte>) { LengthKnown(got) ==> |got| < HeaderLength(got) }

  function DecodeHeader(got: seq<byte>): Header
    requires LengthKnown(got) && |got| >= HeaderLength(got)
  {
    Header(got[1..17], got[ActionAt(got[0])..DataSizeAt(got)],
           Value(got[DataSizeAt(got)..FilesCountAt(got)]),
           Value(got[FilesCountAt(got)..FilesSizeAt(got)]),
           Value(got[FilesSizeAt(got)..HeaderLength(got)]))
  }

  // Which fields have been read when so much of a header is in, with so much left of its packet.

  predicate IdIn(got: seq<byte>) { |got| >= 17 }

  predicate ActionIn(got: seq<byte>, left: nat) {
    LengthKnown(got) && |got| >= DataSizeAt(got) && (|got| > ActionAt(got[0]) || left > 0)
  }

  predicate DataIn(got: seq<byte>, left: nat) { ActionIn(got, left) && |got| >= FilesCountAt(got) }

  predicate CountIn(got: seq<byte>, left: nat) { ActionIn(got, left) && |got| >= FilesSizeAt(got) }

  predicate SizeIn(got: seq<byte>, left: nat) {
    ActionIn(got, left) && |got| >= HeaderLength(got) && !FilesSizeBroken(got[0])
  }

  /** The fields of a message that none of its header has come in for. */
  const BLANK: Header := Header([0, 0, 0, 0, 0, 0, 0, 0, 0, 0, 0, 0, 0, 0, 0, 0], [], 0, 0, 0)

  /** A message's fields as the header bytes got leave them, if they were h before and the bytes skip
      had been read before there was a message to put them in. */
  function Overlay(h: Header, skip: seq<byte>, got: seq<byte>, left: nat): Header {
    Header(if IdIn(got) && !IdIn(skip) then got[1..17] else h.id,
           if ActionIn(got, left) && !ActionIn(skip, 0) then got[ActionAt(got[0])..DataSizeAt(got)] else h.action,
           if DataIn(got, left) && !DataIn(skip, 0) then Value(got[DataSizeAt(got)..FilesCountAt(got)]) else h.dataSize,
           if CountIn(got, left) && !CountIn(skip, 0) then Value(got[FilesCountAt(got)..FilesSizeAt(got)])
           else h.filesCount,
           if SizeIn(got, left) then Value(got[FilesSizeAt(got)..HeaderLength(got)]) else h.totalFilesSize)
  }

  /** A header read as a whole into a new message is its plain decoding. */
  lemma OverlayIsDecode(got: seq<byte>, left: nat)
    requires Complete(got, left) && !FilesSizeBroken(got[0])
    ensures Overlay(BLANK, [], got, left) == DecodeHeader(got)
  {
  }

  // One byte at a time.

  function Init(channelsCount: nat): State {
    State(0, seq(channelsCount, _ => Idle([])), [], [], AtSignature)
  }

  function Fail(st: State, e: Error): State { st.(mode := Failed(e)) }

  function Rest(part: Part, left: nat): Mode { if left == 0 then AtSignature else InPayload(part, left) }

  function Switch(st: State, channel: nat): State {
    if channel < |st.channels| then st.(current := channel, mode := AtSignature) else Fail(st, ChannelOutOfRange)
  }

  function Here(st: State): Channel { if st.current < |st.channels| then st.channels[st.current] else Idle([]) }

  function Put(st: State, c: Channel): State {
    if st.current < |st.channels| then st.(channels := st.channels[st.current := c]) else st
  }

  /** The message the current channel is receiving the parts of. */
  predicate Attached(st: State) { Here(st).Busy? && Here(st).index < |st.log| }

  function Active(st: State): Entry
    requires Attached(st)
  {
    st.log[Here(st).index]
  }

  predicate ExpectsData(st: State) { Attached(st) && !Here(st).feed.Done(Active(st)) }

  predicate ExpectsStream(st: State) { Attached(st) && !Active(st).StreamDone() }

  /** A channel that has got so far with message k is free once nothing is outstanding. */
  function Settled(k: nat, e: Entry, got: seq<byte>, feed: Feed): Channel {
    if feed.Done(e) && e.StreamDone() then Idle(got) else Busy(k, got, feed)
  }

  /** Records progress of the current channel's message. */
  function Record(st: State, e: Entry, feed: Feed): State
    requires Attached(st)
  {
    var k := Here(st).index;
    Put(st.(log := st.log[k := e]), Settled(k, e, Here(st).got, feed))
  }

  /** The header is complete: the message is delivered and its channel waits for its parts. */
  function Deliver(st: State, expectsResponse: bool, hasStream: bool, header: Header): State {
    var e := Entry(st.current, expectsResponse, hasStream, header, [], [], false, false);
    Put(st.(log := st.log + [e], handed := st.handed + [|st.log|]), Settled(|st.log|, e, [], UsualFeed(header.dataSize)))
  }

  /** The current channel has read this much of a header, in a packet with that much left. A message
      that has come in behind its own data size has no data, which is a nil dereference. */
  function HeaderSoFar(st: State, r: bool, s: bool, skip: seq<byte>, got: seq<byte>, left: nat): State {
    if !Complete(got, left) then Put(st, Reading(r, s, skip, got)).(mode := Rest(HeaderPart, left))
    else if FilesSizeBroken(got[0]) || DataIn(skip, 0) then Fail(Put(st, Reading(r, s, skip, got)), Panic)
    else Deliver(st, r, s, Overlay(BLANK, skip, got, left)).(mode := Rest(HeaderPart, left))
  }

  /** A delivered message as reading on into it leaves it: its fields overwritten as far as they have
      come, and its data replaced with its data size. */
  function Reread(e: Entry, got: seq<byte>, left: nat): Entry {
    e.(header := Overlay(e.header, [], got, left), data := if DataIn(got, left) then [] else e.data, reread := true)
  }

  /** The channel goes on with the data it had. */
  function FeedKept(e: Entry, feed: Feed, got: seq<byte>, left: nat): Feed {
    if DataIn(got, left) && feed.Fed? then Former(e.header.dataSize, e.data) else feed
  }

  /** The same as HeaderSoFar for a header behind that of a message whose parts are outstanding: it is
      read into that message, which is handed over again when it is complete. */
  function RereadSoFar(st: State, got: seq<byte>, left: nat): State
    requires Attached(st)
  {
    var k, e := Here(st).index, Reread(Active(st), got, left);
    var feed := FeedKept(Active(st), Here(st).feed, got, left);
    var st' := st.(log := st.log[k := e]);
    if !Complete(got, left) then Put(st', Busy(k, got, feed)).(mode := Rest(HeaderPart, left))
    else if FilesSizeBroken(got[0]) then Fail(Put(st', Busy(k, got, feed)), Panic)
    else
      Put(st'.(handed := st.handed + [k]), Settled(k, e, [], if e.header.dataSize > 0 then Fed else feed))
        .(mode := Rest(HeaderPart, left))
  }

  /** A packet's size has been read. */
  function Begin(st: State, signature: byte, size: nat): State {
    if signature / 16 == MESSAGE then
      if !Here(st).Idle? then Fail(st, AlreadyProcessing)
      else HeaderSoFar(st, signature % 2 == 1, signature / 2 % 2 == 1, Here(st).residue, Here(st).residue, size)
    else if signature / 16 == DATA then
      if !ExpectsData(st) then Fail(st, UnexpectedData) else st.(mode := Rest(DataPart, size))
    else
      if !ExpectsStream(st) then Fail(st, UnexpectedStream) else st.(mode := Rest(StreamPart, size))
  }

  function EndStream(st: State): State {
    if Attached(st) && Active(st).hasStream then
      Record(st, Active(st).(streamEnded := true), Here(st).feed).(mode := AtSignature)
    else Fail(st, Panic)
  }

  function Signature(st: State, b: byte): State {
    var kind := b / 16;
    if kind == HEARTBEAT then st
    else if kind == CHANNEL_LOW then Switch(st, b % 16)
    else if kind == CHANNEL_HIGH then st.(mode := AtChannelLow(b % 16))
    else if kind == MESSAGE || kind == DATA || kind == STREAM then st.(mode := AtSize(b, []))
    else if kind == STREAM_END then EndStream(st)
    else if kind == 15 then Fail(st, UnknownSignature)
    else Fail(st, NotImplemented)
  }

  /** Bytes the size field takes; the 32-bit reader takes three, then panics. */
  function SizeFieldWidth(signature: byte): nat { match signature / 4 % 4 case 0 => 1 case 1 => 2 case _ => 3 }

  function SizeByte(st: State, signature: byte, got: seq<byte>, b: byte): State {
    var got := got + [b];
    if |got| < SizeFieldWidth(signature) then st.(mode := AtSize(signature, got))
    else if signature / 4 % 4 == 3 then Fail(st, Panic)
    else Begin(st, signature, Value(got))
  }

  function HeaderByte(st: State, left: nat, b: byte): State {
    match Here(st)
    case Idle(_) => Fail(st, NotProcessing)
    case Reading(r, s, skip, got) => HeaderSoFar(st, r, s, skip, got + [b], left)
    case Busy(_, got, _) => if Attached(st) then RereadSoFar(st, got + [b], left) else Fail(st, NotProcessing)
  }

  /** Bytes of data go to the message or to its former data. */
  function DataInto(e: Entry, feed: Feed, piece: seq<byte>): Entry {
    if feed.Former? then e else e.(data := e.data + piece)
  }

  function FeedInto(feed: Feed, piece: seq<byte>): Feed {
    if feed.Former? then Former(feed.size, feed.received + piece) else feed
  }

  function DataPassed(st: State, piece: seq<byte>, left: nat): State
    requires Attached(st)
  {
    Record(st, DataInto(Active(st), Here(st).feed, piece), FeedInto(Here(st).feed, piece)).(mode := Rest(DataPart, left))
  }

  function StreamPassed(st: State, piece: seq<byte>, left: nat): State
    requires Attached(st)
  {
    Record(st, Active(st).(stream := Active(st).stream + piece), Here(st).feed).(mode := Rest(StreamPart, left))
  }

  function DataByte(st: State, left: nat, b: byte): State {
    if !ExpectsData(st) then Fail(st, UnexpectedData) else DataPassed(st, [b], left)
  }

  function StreamByte(st: State, left: nat, b: byte): State {
    if !ExpectsStream(st) then Fail(st, UnexpectedStream) else StreamPassed(st, [b], left)
  }

  function Step(st: State, b: byte): State {
    match st.mode
    case AtSignature => Signature(st, b)
    case AtChannelLow(high) => Switch(st, 256 * high + b)
    case AtSize(signature, got) => SizeByte(st, signature, got, b)
    case InPayload(HeaderPart, left) => HeaderByte(st, if left == 0 then 0 else left - 1, b)
    case InPayload(DataPart, left) => DataByte(st, if left == 0 then 0 else left - 1, b)
    case InPayload(StreamPart, left) => StreamByte(st, if left == 0 then 0 else left - 1, b)
    case Failed(_) => st
  }

  function Run(st: State, s: seq<byte>): State
    decreases |s|
  {
    if s == [] then st else Run(Step(st, s[0]), s[1..])
  }

  /** The whole reading of a byte string by a fresh parser. */
  function Parse(channelsCount: nat, s: seq<byte>): State { Run(Init(channelsCount), s) }

  // Reading in pieces.

  /** Cutting the input anywhere makes no difference. */
  lemma {:induction false} RunConcat(st: State, a: seq<byte>, b: seq<byte>)
    ensures Run(st, a + b) == Run(Run(st, a), b)
    decreases |a|
  {
    if a == [] {
      assert a + b == b;
    } else {
      assert (a + b)[1..] == a[1..] + b;
      RunConcat(Step(st, a[0]), a[1..], b);
    }
  }

  lemma {:induction false} RunFailed(st: State, s: seq<byte>)
    requires st.mode.Failed?
    ensures Run(st, s) == st
    decreases |s|
  {
    if s != [] { RunFailed(st, s[1..]); }
  }

  lemma RunOne(st: State, b: byte)
    ensures Run(st, [b]) == Step(st, b)
  {
    assert Run(Step(st, b), [b][1..]) == Step(st, b);
  }

  // What every reading keeps.

  /** A channel that is busy awaits a part of its own message. */
  ghost predicate ChannelConsistent(channels: seq<Channel>, log: seq<Entry>, c: nat)
    requires c < |channels|
  {
    match channels[c]
    case Idle(residue) => Within(residue)
    case Reading(_, _, skip, got) => skip <= got && Within(got)
    case Busy(k, got, feed) =>
      && k < |log| && log[k].channel == c && Within(got)
      && !(feed.Done(log[k]) && log[k].StreamDone())
      && (feed.Former? ==> |feed.received| <= feed.size)
      && (!log[k].reread ==> got == [] && feed == UsualFeed(log[k].header.dataSize))
  }

  /** A message with a part outstanding has its channel busy; one that was read on into may have lost
      its data that way, but not its stream. */
  ghost predicate EntryConsistent(channels: seq<Channel>, log: seq<Entry>, k: nat)
    requires k < |log|
  {
    var e := log[k];
    && e.channel < |channels|
    && |e.data| <= e.header.dataSize
    && (!e.hasStream ==> e.stream == [] && !e.streamEnded)
    && (!(if e.reread then e.StreamDone() else e.Done()) ==>
          channels[e.channel].Busy? && channels[e.channel].index == k)
  }

  /** The part of WellFormed that does not look at the mode. */
  ghost predicate Consistent(st: State) {
    && st.current < |st.channels|
    && (forall c :: 0 <= c < |st.channels| ==> ChannelConsistent(st.channels, st.log, c))
    && (forall k :: 0 <= k < |st.log| ==> EntryConsistent(st.channels, st.log, k))
    && (forall i :: 0 <= i < |st.handed| ==> st.handed[i] < |st.log|)
    && |st.log| <= |st.handed|
  }

  /** A channel is busy exactly while a part of its message is awaited, and no two channels share a
      message. */
  ghost predicate WellFormed(st: State) {
    && Consistent(st)
    && match st.mode
       case AtChannelLow(high) => high < 16
       case AtSize(signature, got) => signature / 16 in {MESSAGE, DATA, STREAM} && |got| < SizeFieldWidth(signature)
       case InPayload(part, left) =>
         && left > 0
         && (part == StreamPart ==> ExpectsStream(st))
         && (part == HeaderPart && Here(st).Reading? ==> Unfinished(Here(st).got))
         && (part == HeaderPart && Here(st).Busy? ==> Unfinished(Here(st).got))
       case _ => true
  }

  lemma InitWellFormed(channelsCount: nat)
    requires channelsCount >= 1
    ensures WellFormed(Init(channelsCount))
  {
  }

  /** What a change of the current channel and of its message has to keep. */
  lemma ChangeKeeps(st: State, st': State, k: nat)
    requires Consistent(st)
    requires st'.current == st.current && |st'.channels| == |st.channels| && |st.log| <= |st'.log| <= |st'.handed|
    requires forall c :: 0 <= c < |st.channels| && c != st.current ==> st'.channels[c] == st.channels[c]
    requires forall j :: 0 <= j < |st'.log| && j != k ==> j < |st.log| && st'.log[j] == st.log[j]
    requires k < |st.log| ==> st.log[k].channel == st.current
    requires Here(st).Busy? ==> Here(st).index == k
    requires ChannelConsistent(st'.channels, st'.log, st.current)
    requires k < |st'.log| ==> EntryConsistent(st'.channels, st'.log, k)
    requires forall i :: 0 <= i < |st'.handed| ==> st'.handed[i] < |st'.log|
    ensures Consistent(st')
  {
    forall c | 0 <= c < |st'.channels| ensures ChannelConsistent(st'.channels, st'.log, c) {
      assert ChannelConsistent(st.channels, st.log, c);
    }
    forall j | 0 <= j < |st'.log| ensures EntryConsistent(st'.channels, st'.log, j) {
      if j != k {
        assert j < |st.log| && EntryConsistent(st.channels, st.log, j);
        assert ChannelConsistent(st.channels, st.log, st.current);
      }
    }
  }

  lemma RecordKeeps(st: State, e: Entry, feed: Feed)
    requires Consistent(st) && Attached(st)
    requires e.channel == st.current && e.hasStream == Active(st).hasStream && |e.data| <= e.header.dataSize
    requires !e.hasStream ==> e.stream == [] && !e.streamEnded
    requires feed.Former? ==> |feed.received| <= feed.size
    requires e.reread == Active(st).reread && (!e.reread ==> feed == UsualFeed(e.header.dataSize))
    ensures var st' := Record(st, e, feed);
            Consistent(st') && |st'.channels| == |st.channels| && |st'.log| == |st.log|
  {
    assert ChannelConsistent(st.channels, st.log, st.current);
    ChangeKeeps(st, Record(st, e, feed), Here(st).index);
  }

  lemma PutKeeps(st: State, c: Channel)
    requires Consistent(st) && !Here(st).Busy?
    requires match c case Idle(g) => Within(g) case Reading(_, _, skip, got) => skip <= got && Within(got) case _ => false
    ensures Consistent(Put(st, c))
  {
    ChangeKeeps(st, Put(st, c), |st.log|);
  }

  lemma DeliverKeeps(st: State, r: bool, s: bool, h: Header)
    requires Consistent(st) && !Here(st).Busy?
    ensures Consistent(Deliver(st, r, s, h)) && |Deliver(st, r, s, h).channels| == |st.channels|
  {
    ChangeKeeps(st, Deliver(st, r, s, h), |st.log|);
  }

  /** One more byte does not go past the end of a header that is not over. */
  lemma LengthReached(got: seq<byte>, b: byte)
    requires Unfinished(got)
    ensures Within(got + [b])
  {
    var more := got + [b];
    LengthStable(got, more);
    if !LengthKnown(got) && LengthKnown(more) {
      assert |more| == ActionAt(more[0]) <= HeaderLength(more);
    }
  }

  lemma HeaderKeeps(st: State, r: bool, s: bool, skip: seq<byte>, got: seq<byte>, left: nat)
    requires Consistent(st) && !Here(st).Busy? && Within(got) && skip <= got
    ensures var st' := HeaderSoFar(st, r, s, skip, got, left);
            WellFormed(st') && |st'.channels| == |st.channels| && |st.log| <= |st'.log|
  {
    PutKeeps(st, Reading(r, s, skip, got));
    if Complete(got, left) && !FilesSizeBroken(got[0]) && !DataIn(skip, 0) {
      DeliverKeeps(st, r, s, Overlay(BLANK, skip, got, left));
    }
  }

  /** Reading on overwrites a message's header and may empty its data; the channel's own progress
      stays what it was. */
  lemma RereadEntry(e: Entry, feed: Feed, got: seq<byte>, left: nat)
    requires |e.data| <= e.header.dataSize && (feed.Former? ==> |feed.received| <= feed.size)
    ensures var e', feed' := Reread(e, got, left), FeedKept(e, feed, got, left);
            && e' == e.(header := e'.header, data := e'.data, reread := true) && |e'.data| <= e'.header.dataSize
            && feed'.Done(e') == feed.Done(e) && (feed'.Former? ==> |feed'.received| <= feed'.size)
  {
  }

  lemma RereadKeeps(st: State, got: seq<byte>, left: nat)
    requires Consistent(st) && Attached(st) && Within(got)
    ensures var st' := RereadSoFar(st, got, left);
            WellFormed(st') && |st'.channels| == |st.channels| && |st.log| == |st'.log|
  {
    hide Reread, FeedKept, HeaderLength, FilesSizeBroken;
    var k := Here(st).index;
    assert ChannelConsistent(st.channels, st.log, st.current) && EntryConsistent(st.channels, st.log, k);
    RereadEntry(Active(st), Here(st).feed, got, left);
    ChangeKeeps(st, RereadSoFar(st, got, left), k);
  }

  lemma HeaderByteKeeps(st: State, left: nat, b: byte)
    requires WellFormed(st) && st.mode == InPayload(HeaderPart, left + 1)
    ensures var st' := HeaderByte(st, left, b);
            WellFormed(st') && |st'.channels| == |st.channels| && |st.log| <= |st'.log|
  {
    hide HeaderSoFar, RereadSoFar, Complete, LengthKnown, HeaderLength;
    assert ChannelConsistent(st.channels, st.log, st.current);
    if Here(st).Reading? {
      LengthReached(Here(st).got, b);
      HeaderKeeps(st, Here(st).expectsResponse, Here(st).hasStream, Here(st).skip, Here(st).got + [b], left);
    } else if Attached(st) {
      LengthReached(Here(st).got, b);
      RereadKeeps(st, Here(st).got + [b], left);
    }
  }

  lemma PartByteKeeps(st: State, left: nat, b: byte)
    requires WellFormed(st)
    ensures var st' := DataByte(st, left, b); WellFormed(st') && |st'.channels| == |st.channels| && |st.log| <= |st'.log|
    ensures var st' := StreamByte(st, left, b); WellFormed(st') && |st'.channels| == |st.channels| && |st.log| <= |st'.log|
  {
    if Attached(st) {
      assert ChannelConsistent(st.channels, st.log, st.current) && EntryConsistent(st.channels, st.log, Here(st).index);
      var e, feed := Active(st), Here(st).feed;
      if ExpectsData(st) { RecordKeeps(st, DataInto(e, feed, [b]), FeedInto(feed, [b])); }
      if ExpectsStream(st) { RecordKeeps(st, e.(stream := e.stream + [b]), feed); }
    }
  }

  lemma BeginKeeps(st: State, signature: byte, size: nat)
    requires Consistent(st)
    ensures var st' := Begin(st, signature, size);
            WellFormed(st') && |st'.channels| == |st.channels| && |st.log| <= |st'.log|
  {
    hide HeaderSoFar, Complete, LengthKnown, HeaderLength;
    assert ChannelConsistent(st.channels, st.log, st.current);
    if Here(st).Idle? {
      HeaderKeeps(st, signature % 2 == 1, signature / 2 % 2 == 1, Here(st).residue, Here(st).residue, size);
    }
  }

  lemma SignatureKeeps(st: State, b: byte)
    requires WellFormed(st) && st.mode.AtSignature?
    ensures var st' := Signature(st, b); WellFormed(st') && |st'.channels| == |st.channels| && |st.log| <= |st'.log|
  {
    if b / 16 == STREAM_END && Attached(st) && Active(st).hasStream {
      assert ChannelConsistent(st.channels, st.log, st.current) && EntryConsistent(st.channels, st.log, Here(st).index);
      RecordKeeps(st, Active(st).(streamEnded := true), Here(st).feed);
    }
  }

  lemma PayloadByteKeeps(st: State, b: byte)
    requires WellFormed(st) && st.mode.InPayload?
    ensures var st' := Step(st, b); WellFormed(st') && |st'.channels| == |st.channels| && |st.log| <= |st'.log|
  {
    if st.mode.part == HeaderPart {
      HeaderByteKeeps(st, st.mode.left - 1, b);
    } else {
      PartByteKeeps(st, st.mode.left - 1, b);
    }
  }

  lemma StepKeeps(st: State, b: byte)
    requires WellFormed(st)
    ensures WellFormed(Step(st, b)) && |Step(st, b).channels| == |st.channels|
    ensures |st.log| <= |Step(st, b).log|
  {
    match st.mode {
      case AtSignature => SignatureKeeps(st, b);
      case AtChannelLow(high) =>
      case AtSize(signature, got) => BeginKeeps(st, signature, Value(got + [b]));
      case InPayload(_, _) => PayloadByteKeeps(st, b);
      case Failed(_) =>
    }
  }

  /** Once the action's size is in, more bytes do not move the fields. */
  lemma LengthStable(got: seq<byte>, more: seq<byte>)
    requires got <= more
    ensures LengthKnown(got) ==>
              LengthKnown(more) && ActionSize(got) == ActionSize(more) && HeaderLength(got) == HeaderLength(more)
  {
    if LengthKnown(got) {
      assert got[17..ActionAt(got[0])] == more[17..ActionAt(got[0])];
    }
  }

  lemma {:induction false} RunKeeps(st: State, s: seq<byte>)
    requires WellFormed(st)
    ensures WellFormed(Run(st, s)) && |Run(st, s).channels| == |st.channels|
    ensures |st.log| <= |Run(st, s).log|
    decreases |s|
  {
    if s != [] {
      StepKeeps(st, s[0]);
      RunKeeps(Step(st, s[0]), s[1..]);
    }
  }
}
