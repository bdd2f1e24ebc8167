/** The parser (parser.go): packet dispatch, the current channel and the part of a packet that is
    still to come. It is proved to follow the byte machine whatever the source's read sizes are and
    whatever the buffer holds when: the messages it hands over are those of the machine's log. */
module ParserObjects {
  import opened Bytes
  import C = Codec
  import opened Demux
  import opened Runs
  import opened Channels
  import opened ReaderObjects
  import opened PartObjects
  import opened MessageReaderObjects
  import opened ParserChannelObjects
  import opened Handshake

  const DEFAULT_READ_BUFFER_SIZE: nat := 4096

  // What the byte machine does with what one call takes.

  lemma RunMore(channelsCount: nat, consumed: seq<byte>, piece: seq<byte>)
    ensures Parse(channelsCount, consumed + piece) == Run(Parse(channelsCount, consumed), piece)
  {
    RunConcat(Init(channelsCount), consumed, piece);
  }

  /** Only the current channel moves. */
  predicate SameElsewhere(st: State, st': State) {
    && st'.current == st.current && |st'.channels| == |st.channels|
    && forall id :: 0 <= id < |st.channels| && id != st.current ==> st'.channels[id] == st.channels[id]
  }

  /** How much is left of the header packet that this channel is in. */
  function HeaderLeft(st: State, id: nat): nat {
    if id == st.current && st.mode.InPayload? && st.mode.part == HeaderPart then st.mode.left else 0
  }

  /** A piece of a header, possibly empty. */
  lemma HeaderPiece(st: State, piece: seq<byte>, left: nat)
    requires Here(st).Reading? && Within(Here(st).got + piece)
    ensures var Reading(r, s, skip, got) := Here(st);
            Run(HeaderSoFar(st, r, s, skip, got, |piece| + left), piece) == HeaderSoFar(st, r, s, skip, got + piece, left)
  {
    hide HeaderSoFar, Complete, Run, HeaderLength, LengthKnown;
    var Reading(r, s, skip, got) := Here(st);
    if piece == [] {
      assert got + piece == got;
      RunEmpty(HeaderSoFar(st, r, s, skip, got, left));
    } else {
      var m := InPayload(HeaderPart, |piece| + left);
      BeforeItsEnd(st, r, s, skip, got, piece, |piece| + left);
      RunHeader(Put(st, Reading(r, s, skip, got)).(mode := m), piece, left);
      Overwrite(st, r, s, skip, got, got + piece, m, left);
    }
  }

  lemma BeforeItsEnd(st: State, r: bool, s: bool, skip: seq<byte>, got: seq<byte>, piece: seq<byte>, left: nat)
    requires Within(got + piece) && piece != [] && left > 0
    ensures HeaderSoFar(st, r, s, skip, got, left) == Put(st, Reading(r, s, skip, got)).(mode := InPayload(HeaderPart, left))
  {
    LengthStable(got, got + piece);
    assert !Complete(got, left);
  }

  lemma RunEmpty(st: State)
    ensures Run(st, []) == st
  {
  }

  lemma StillReading(st: State, r: bool, s: bool, skip: seq<byte>, got: seq<byte>, left: nat)
    requires !Complete(got, left) && st.current < |st.channels|
    ensures var st' := HeaderSoFar(st, r, s, skip, got, left);
            && SameElsewhere(st, st') && st'.log == st.log && st'.handed == st.handed
            && st'.channels[st.current] == Reading(r, s, skip, got) && st'.mode == Rest(HeaderPart, left)
            && (Here(st) == Reading(r, s, skip, got) ==> st' == st.(mode := Rest(HeaderPart, left)))
  {
    assert Here(st) == Reading(r, s, skip, got) ==> st.channels[st.current := Here(st)] == st.channels;
  }

  function NewEntry(st: State, r: bool, s: bool, h: Header): Entry { Entry(st.current, r, s, h, [], [], false, false) }

  lemma NowDelivered(st: State, r: bool, s: bool, skip: seq<byte>, got: seq<byte>, left: nat)
    requires Complete(got, left) && st.current < |st.channels|
    ensures var st' := HeaderSoFar(st, r, s, skip, got, left);
            var e := NewEntry(st, r, s, Overlay(BLANK, skip, got, left));
            if FilesSizeBroken(got[0]) || DataIn(skip, 0) then
              st'.log == st.log && st'.handed == st.handed && st'.mode == Failed(Panic)
            else
              && SameElsewhere(st, st') && st'.log == st.log + [e] && st'.handed == st.handed + [|st.log|]
              && st'.channels[st.current] == Settled(|st.log|, e, [], UsualFeed(e.header.dataSize))
              && st'.mode == Rest(HeaderPart, left)
  {
    hide Overlay, DataIn, Settled, UsualFeed, FilesSizeBroken;
  }

  lemma NowReread(st: State, got: seq<byte>, left: nat)
    requires Attached(st)
    ensures var k, st', e := Here(st).index, RereadSoFar(st, got, left), Reread(Active(st), got, left);
            var feed := FeedKept(Active(st), Here(st).feed, got, left);
            && SameElsewhere(st, st') && st'.log == st.log[k := e]
            && st'.handed == st.handed + (if Complete(got, left) && !FilesSizeBroken(got[0]) then [k] else [])
            && if Complete(got, left) && FilesSizeBroken(got[0]) then st'.mode == Failed(Panic)
               else
                 && st'.mode == Rest(HeaderPart, left)
                 && st'.channels[st.current]
                    == if Complete(got, left) then Settled(k, e, [], if e.header.dataSize > 0 then Fed else feed)
                       else Busy(k, got, feed)
  {
    hide Reread, FeedKept, Settled, Complete, FilesSizeBroken;
  }

  lemma Recorded(st: State, e: Entry, feed: Feed)
    requires Attached(st)
    ensures var k, st' := Here(st).index, Record(st, e, feed);
            && SameElsewhere(st, st') && st'.log == st.log[k := e] && st'.handed == st.handed && st'.mode == st.mode
            && st'.channels[st.current] == Settled(k, e, Here(st).got, feed)
  {
  }

  /** Recording a message's progress unchanged changes nothing. */
  lemma RecordSame(st: State)
    requires Attached(st) && !(Here(st).feed.Done(Active(st)) && Active(st).StreamDone())
    ensures Record(st, Active(st), Here(st).feed) == st
  {
    var k := Here(st).index;
    assert st.log[k := Active(st)] == st.log && st.channels[st.current := Here(st)] == st.channels;
  }

  lemma DataPiece(st: State, piece: seq<byte>, left: nat)
    requires st.mode == Rest(DataPart, |piece| + left) && ExpectsData(st) && |piece| <= Here(st).feed.Room(Active(st))
    ensures Run(st, piece) == DataPassed(st, piece, left)
  {
    if piece == [] {
      assert Active(st).data + piece == Active(st).data;
      assert Here(st).feed.Former? ==> Here(st).feed.received + piece == Here(st).feed.received;
      RecordSame(st);
    } else {
      RunData(st, piece, left);
    }
  }

  lemma StreamPiece(st: State, piece: seq<byte>, left: nat)
    requires st.mode == Rest(StreamPart, |piece| + left) && ExpectsStream(st)
    ensures Run(st, piece) == StreamPassed(st, piece, left)
  {
    if piece == [] {
      assert Active(st).stream + piece == Active(st).stream;
      RecordSame(st);
    } else {
      RunStream(st, piece, left);
    }
  }

  /** What is left of the input behind heartbeats and channel switches. */
  function AfterIdle(s: seq<byte>): seq<byte>
    decreases |s|
  {
    if s != [] && s[0] / 16 in {C.HEARTBEAT, C.CHANNEL_LOW} then AfterIdle(s[1..])
    else if |s| >= 2 && s[0] / 16 == C.CHANNEL_HIGH then AfterIdle(s[2..])
    else s
  }

  predicate HasSize(signature: byte) { signature / 16 in {C.MESSAGE, C.DATA, C.STREAM} }

  /** A whole size field behind its signature. */
  lemma SizeField(st: State, signature: byte, field: seq<byte>)
    requires st.mode.AtSignature? && HasSize(signature) && |field| == SizeFieldWidth(signature)
    ensures Run(Step(st, signature), field)
         == if signature / 4 % 4 == 3 then Fail(st, Panic) else Begin(st, signature, Value(field))
  {
    hide Begin, Run;
    var st' := Step(st, signature);
    RunSize(st', signature, [], field);
    BeginLooksAt(st, st'.mode, signature, signature, Value(field));
    assert [] + field == field;
  }

  lemma SizeFieldShort(st: State, signature: byte, field: seq<byte>)
    requires st.mode.AtSignature? && HasSize(signature) && |field| < SizeFieldWidth(signature)
    ensures Run(Step(st, signature), field) == st.(mode := AtSize(signature, field))
  {
    hide Run, Begin;
    RunSizeShort(Step(st, signature), signature, [], field);
    assert [] + field == field;
  }

  // Messages and channels against the machine's.

  /** The delivered message holds the entry's header, but for the action, and the parts that have
      arrived. Data that overran its size may have been cut short. */
  ghost predicate Keeps(m: Message, e: Entry, k: nat, exact: bool)
    reads m, m.data, m.stream
  {
    && m.index == k && m.expectsResponse == e.expectsResponse && m.id == e.header.id
    && m.filesCount == e.header.filesCount && m.totalFilesSize == e.header.totalFilesSize
    && m.data != null && m.data.owner == m && m.data.Valid() && m.data.size == e.header.dataSize
    && (if exact then m.data.pushed == e.data && m.data.err.None? else m.data.pushed <= e.data)
    && (m.stream != null) == e.hasStream
    && (m.stream != null ==>
          m.stream.owner == m && m.stream.Valid() && m.stream.pushed == e.stream && m.stream.done == e.streamEnded)
  }

  /** The same with the action, of which the model's messages have a copy. */
  ghost predicate Carries(m: Message, e: Entry, k: nat, exact: bool)
    reads m, m.data, m.stream
  {
    Keeps(m, e, k, exact) && m.action == e.header.action
  }

  ghost predicate IsNewStream(m: Message)
    requires m.stream != null
    reads m, m.stream
  {
    m.stream.owner == m && m.stream.Valid() && m.stream.pushed == [] && !m.stream.done
  }

  /** A channel's data is its message's, or what the message had before. */
  ghost predicate IsFed(d: MessageData?, m: Message, feed: Feed)
    reads d, m`data
  {
    match feed
    case NoFeed => d == null
    case Fed => d != null && d == m.data
    case Former(size, received) =>
      d != null && d != m.data && d.owner == m && d.Valid() && d.err.None? && d.size == size && d.pushed == received
  }

  /** The channel's objects are what the machine's channel is; left is how much is left of a header
      packet that it is in. */
  ghost predicate Matches(c: ParserChannel, s: Channel, objects: seq<Message>, left: nat)
    reads c, c.messageReader, c.messageReader.readers, c.data,
          if c.message != null then {c.message, c.message.data, c.message.stream} else {}
  {
    match s
    case Idle(residue) =>
      c.IsIdle() && c.messageReader.InPlace() && c.messageReader.got == residue && c.messageReader.Stands(0)
    case Reading(r, st, skip, got) =>
      && c.IsReading() && c.messageReader.got == got && c.messageReader.Stands(left)
      && c.messageReader.base == BLANK_FIELDS && c.messageReader.from < OVER && Tells(c.messageReader.from, skip, 0)
      && c.message.index == -1 - c.id && c.message.expectsResponse == r && (c.message.stream != null) == st
      && (st ==> IsNewStream(c.message))
    case Busy(k, got, feed) =>
      && k < |objects| && c.message == objects[k] && c.stream == c.message.stream
      && c.messageReader.Tracks(c.message) && c.messageReader.got == got && c.messageReader.Stands(left)
      && c.messageReader.from == 0 && IsFed(c.data, c.message, feed) && (feed.Fed? ==> c.messageReader.step.Rank() < 5)
  }

  ghost predicate OwnsMessage(m: Message, parts: set<object>)
    reads m
  {
    m in parts && (m.data != null ==> m.data in parts) && (m.stream != null ==> m.stream in parts)
  }

  ghost predicate OwnsChannel(c: ParserChannel, parts: set<object>)
    reads parts
  {
    && c in parts && c.messageReader in parts
    && (forall k :: 0 <= k < |c.messageReader.readers| ==> c.messageReader.readers[k] in parts)
    && (c.message != null ==> c.message in parts && OwnsMessage(c.message, parts))
    && (c.data != null ==> c.data in parts)
  }

  class Parser {
    const channelsCount: nat
    var currentChannel: ParserChannel
    var channels: map<nat, ParserChannel>
    const reader: BufferedReader
    const sub: LimitedReader
    var subMode: Part
    const packetsSize16: StreamReader
    const packetsSize24: StreamReader
    const packetsSize32: StreamReader

    /** All the bytes there are, those taken so far, and what they amount to. */
    ghost const input: seq<byte>
    ghost const window: array<byte>
    ghost var consumed: seq<byte>
    ghost var st: State
    /** The delivered messages, in the order of the log, and the messages handed over so far. */
    ghost var objects: seq<Message>
    ghost var emitted: seq<Message>
    /** The channels, the messages and what they are made of. */
    ghost var parts: set<object>

    ghost function Readers(): set<object>
      reads reader
    {
      {reader, reader.buffer, reader.source, sub, packetsSize16, packetsSize24, packetsSize32}
    }

    ghost predicate SizeReader(r: StreamReader, size: nat)
      reads r
    {
      r.Valid() && r.offset == 0 && r.size == size && r.slot == size
    }

    ghost predicate ReadersOk()
      reads this`parts, reader, reader.buffer, reader.source, sub, packetsSize16, packetsSize24, packetsSize32
    {
      && sub.b == reader && reader.Valid() && reader.buffer == window
      && this !in parts && reader !in parts && reader.buffer !in parts && reader.source !in parts && sub !in parts
      && packetsSize16 !in parts && packetsSize24 !in parts && packetsSize32 !in parts
      && SizeReader(packetsSize16, 2) && SizeReader(packetsSize24, 3) && SizeReader(packetsSize32, 3)
      && packetsSize24 != packetsSize32
    }

    ghost predicate ChannelOk(id: nat)
      requires id in channels && id < |st.channels|
      reads this`channels, this`st, this`objects, this`parts, parts
    {
      var c := channels[id];
      && c.id == id && c.messageReader.owner == id
      && OwnsChannel(c, parts) && Matches(c, st.channels[id], objects, HeaderLeft(st, id))
    }

    ghost predicate ChannelsOk()
      reads this`channels, this`currentChannel, this`st, this`objects, this`parts, parts
    {
      && |st.channels| == channelsCount
      && (forall id :: id in channels ==> id < channelsCount && ChannelOk(id))
      && (forall id :: 0 <= id < channelsCount && id !in channels ==> st.channels[id] == Idle([]))
      && st.current in channels && channels[st.current] == currentChannel
    }

    ghost predicate MessageOk(k: nat, exact: bool)
      requires k < |objects| && k < |st.log|
      reads this`st, this`objects, this`parts, parts
    {
      objects[k] in parts && OwnsMessage(objects[k], parts) && Carries(objects[k], st.log[k], k, exact)
    }

    /** The messages handed over are those that the machine hands over. */
    ghost predicate HandedOk()
      reads this`st, this`objects, this`emitted
    {
      && |emitted| == |st.handed|
      && forall i :: 0 <= i < |emitted| ==> st.handed[i] < |objects| && emitted[i] == objects[st.handed[i]]
    }

    ghost predicate LogOk(exact: bool)
      reads this`st, this`objects, this`emitted, this`parts, parts
    {
      && |objects| == |st.log| && HandedOk()
      && forall k :: 0 <= k < |objects| ==> MessageOk(k, exact)
    }

    /** Between packets or not, the objects are what the machine's state says. */
    ghost predicate Ready()
      reads this, Readers(), parts
    {
      ReadersOk() && ChannelsOk() && LogOk(true) && Consistent(st)
    }

    /** Nothing of the input is lost. */
    ghost predicate Whole()
      requires reader.Valid()
      reads this`consumed, reader, reader.buffer, reader.source
    {
      consumed + reader.Unread() == input
    }

    /** What the byte machine makes of the bytes taken so far. */
    ghost function Truth(): State
      reads this`consumed
    {
      Parse(channelsCount, consumed)
    }

    ghost predicate Valid()
      reads this, Readers(), parts
    {
      Ready() && Whole() && st == Truth() && st.mode == Rest(subMode, sub.size) && WellFormed(st)
    }

    /** Reading has come to an end. st is what the machine makes of the whole input; the error is the
        machine's, except that overrunning data is noticed in a way that depends on the blocks. */
    ghost predicate Stopped(e: Error)
      reads this, parts
    {
      && st == Parse(channelsCount, input)
      && if e == EndOfInput then !st.mode.Failed? && LogOk(true)
         else
           && st.mode.Failed?
           && ((st.mode.error == e && LogOk(true))
               || (st.mode.error == UnexpectedData && e in {MalformedSize, Panic} && LogOk(false)))
    }

    /** What one read comes to, given the messages handed over before. */
    ghost predicate Result(before: seq<Message>, m: Message?, error: Option<Error>)
      reads this, Readers(), parts
    {
      match error
      case None => Valid() && emitted == before + if m == null then [] else [m]
      case Some(e) => m == null && emitted == before && Stopped(e)
    }

    /** Nothing but a protocol header may have been read yet. */
    ghost predicate AtStart()
      reads this, Readers(), parts
    {
      Ready() && st == Init(channelsCount) && consumed == [] && emitted == [] == objects && sub.size == 0
    }

    /** Options left at zero take their defaults. greeting says how much of the source comes before
        the packets. */
    constructor (source: Source, channels: nat, bufferSize: nat, ghost greeting: nat)
      requires channels <= C.MAX_CHANNELS && (bufferSize == 0 || MIN_READ_BUFFER_SIZE <= bufferSize)
      requires greeting <= |source.pending|
      ensures AtStart() && fresh(parts) && fresh(reader) && fresh(window) && fresh(sub)
      ensures fresh(packetsSize16) && fresh(packetsSize24) && fresh(packetsSize32) && reader.source == source
      ensures channelsCount == GetDefault(channels, C.MAX_CHANNELS)
      ensures reader.Valid() && reader.buffer == window && reader.Unread() == source.pending
      ensures input == source.pending[greeting..] && window.Length == if bufferSize == 0 then 4096 else bufferSize
    {
      hide AtStart, Ready, ParserChannel.Objects, Consistent, Init, MessageReader.InPlace, ParserChannel.IsIdle,
        BufferedReader.Unread, Carries, Matches, WellFormed, Run;
      channelsCount := GetDefault(channels, C.MAX_CHANNELS);
      subMode := HeaderPart;
      packetsSize16 := new StreamReader(2, 0, 2);
      packetsSize24 := new StreamReader(3, 0, 3);
      packetsSize32 := new StreamReader(3, 0, 3);
      var buffer := new byte[GetDefault(bufferSize, DEFAULT_READ_BUFFER_SIZE)](_ => 0);
      var reader := new BufferedReader(source, buffer);
      this.reader, window := reader, buffer;
      sub := new LimitedReader(reader, 0);
      var channel0 := new ParserChannel(0);
      currentChannel := channel0;
      this.channels := map[0 := channel0];
      input, consumed, st := source.pending[greeting..], [], Init(GetDefault(channels, C.MAX_CHANNELS));
      objects, emitted := [], [];
      parts := channel0.Objects();
      new;
      assert reader.Valid() && reader.buffer == window && reader.Unread() == source.pending;
      Starts();
    }

    lemma Starts()
      requires channelsCount >= 1 && channels == map[0 := currentChannel]
      requires st == Init(channelsCount) && consumed == [] && emitted == [] == objects
      requires ReadersOk() && sub.size == 0
      requires currentChannel.id == 0 == currentChannel.messageReader.owner && OwnsChannel(currentChannel, parts)
      requires currentChannel.IsIdle() && currentChannel.messageReader.InPlace()
      requires currentChannel.messageReader.step == AtFlags
      ensures AtStart()
    {
      hide Consistent, MessageReader.InPlace, StandsAt, BufferedReader.Unread, Carries;
      StandsAtStart(currentChannel.messageReader);
      InitWellFormed(channelsCount);
    }

    /** What is unread at the start is the whole input. */
    lemma StartIsValid()
      requires AtStart() && reader.Unread() == input
      ensures Valid()
    {
      hide Consistent, ChannelOk, LogOk, BufferedReader.Unread;
      InitWellFormed(channelsCount);
      assert [] + input == input;
    }

    /** The peer's protocol header. Whatever pieces it comes in, it is read as a whole, and the
        packets start right behind it. */
    method ReadHeader() returns (count: nat, greeting: Greeting)
      requires AtStart()
      requires var g := ReadProtocolHeader(reader.Unread()); g.Channels? ==> reader.Unread()[g.taken..] == input
      modifies Readers()
      ensures greeting == ReadProtocolHeader(old(reader.Unread()))
      ensures greeting.Channels? ==> Valid() && emitted == [] && count == greeting.count
    {
      hide Consistent, ChannelsOk, LogOk, BufferedReader.Unread, Init, WellFormed;
      ghost var all := reader.Unread();
      count := 0;
      var control, error := reader.ReadByte();
      if error.Some? {
        return 0, CutOff;
      } else if control / 4 * 4 != CONTROL_BITS {
        return 0, InvalidControlBits;
      }
      match control % 4 {
        case 0 => count, greeting := 1, Channels(1, 1);
        case 1 =>
          count, error := reader.ReadByte();
          if error.Some? {
            return 0, CutOff;
          }
          greeting := Channels(count, 2);
          assert all[1..][1..] == all[2..];
        case 2 =>
          var field := new StreamReader(2, 0, 2);
          var v := field.GetWhole(reader);
          if v.Broken? {
            return 0, CutOff;
          }
          assert all[1..][..2] == [all[1], all[2]] && all[1..][2..] == all[3..];
          count := ReadUint16(v.value, 0);
          if count > C.MAX_CHANNELS {
            return 0, InvalidChannelsCount;
          }
          greeting := Channels(count, 3);
        case _ => count, greeting := C.MAX_CHANNELS, Channels(C.MAX_CHANNELS, 1);
      }
      StartIsValid();
    }

    /** What the current channel waits for is what the machine expects on it. */
    lemma CurrentParts()
      requires Ready()
      ensures currentChannel in parts
      ensures ExpectsData(st) == !currentChannel.DataDone() && ExpectsStream(st) == !currentChannel.StreamDone()
      ensures (currentChannel.stream != null) == (Attached(st) && Active(st).hasStream)
      ensures currentChannel.data != null || currentChannel.stream != null ==>
                Attached(st) && currentChannel.message == objects[Here(st).index]
      ensures currentChannel.data != null ==>
                currentChannel.data in parts && currentChannel.data.Valid() && currentChannel.data.err.None?
                && currentChannel.data.size - |currentChannel.data.pushed| == Here(st).feed.Room(Active(st))
      ensures currentChannel.stream != null ==> currentChannel.stream in parts && currentChannel.stream.Valid()
    {
      hide MessageReader.InPlace, Fielded, StandsAt, ReadersOk, MessageData.Valid, MessageStream.Valid, HandedOk;
      assert ChannelOk(st.current);
      if Attached(st) {
        assert MessageOk(Here(st).index, true);
        var d := currentChannel.data;
        if d != null { assert d.wrote == |d.pushed| <= d.size by { WroteIsPushed(d); } }
      }
    }

    static lemma WroteIsPushed(d: MessageData)
      requires d.Valid()
      ensures d.wrote == |d.pushed| <= d.size
    {
    }

    lemma OwnsItself(c: ParserChannel)
      requires OwnsChannel(c, parts)
      ensures c in parts && c.messageReader in parts
      ensures (c.message != null ==> c.message in parts && OwnsMessage(c.message, parts))
    {
    }

    /** The current channel's message and what belongs to it, as the machine has them. */
    twostate lemma CurrentAttached()
      requires old(Ready()) && old(Here(st)).Busy?
      ensures var k, c := old(Here(st)).index, old(currentChannel);
              && k < |old(objects)| && old(Attached(st)) && old(MessageOk(k, true)) && old(c.message) == old(objects)[k]
              && old(c.stream) == old(objects[k].stream) && old(IsFed(c.data, objects[k], Here(st).feed))
              && c in old(parts) && old(objects)[k] in old(parts)
              && (old(c.data) != null ==> old(c.data) in old(parts))
    {
      hide MessageReader.InPlace, Fielded, StandsAt, ReadersOk, MessageData.Valid, MessageStream.Valid, Carries, HandedOk;
      assert old(ChannelOk(st.current));
    }

    // What a call on the current channel leaves as it was.

    /** Among these objects, no others were touched. */
    twostate predicate OnlyTouched(among: set<object>, new touched: set<object>)
      reads among
    {
      forall o: object :: o in among && o !in touched ==> unchanged(o)
    }

    /** What a call on the current channel may touch. */
    twostate predicate IsCurrent(new o: object)
      reads {}
    {
      || o == old(currentChannel) || o == old(currentChannel.message)
      || o == old(currentChannel.data) || o == old(currentChannel.stream)
      || o == old(currentChannel).messageReader || o in old(currentChannel).messageReader.readers
    }

    /** An object that is no part of the message at place j. */
    twostate predicate AwayFrom(new o: object, j: nat)
      requires j < |old(objects)|
      reads {}
    {
      o != old(objects)[j] && o != old(objects[j].data) && o != old(objects[j].stream)
    }

    /** A channel none of whose objects was touched still is what the machine says. */
    twostate lemma ChannelKept(id: nat, new touched: set<object>)
      requires id in old(channels) && id < |old(st).channels| && old(ChannelOk(id))
      requires id in channels && channels[id] == old(channels[id])
      requires id < |st.channels| && st.channels[id] == old(st).channels[id] && HeaderLeft(st, id) == HeaderLeft(old(st), id)
      requires old(objects) <= objects && old(parts) <= parts
      requires OnlyTouched(old(parts), touched)
      requires var c := channels[id];
               && c !in touched && c.messageReader !in touched
               && (forall k :: 0 <= k < |c.messageReader.readers| ==> c.messageReader.readers[k] !in touched)
               && old(c.message) !in touched && old(c.data) !in touched
               && (old(c.message) != null ==> old(c.message.data) !in touched && old(c.message.stream) !in touched)
      ensures ChannelOk(id)
    {
      hide MessageReader.InPlace, Fielded, StandsAt, Tells, MessageStream.Valid, MessageData.Valid;
      var c := channels[id];
      assert unchanged(c) && unchanged(c.messageReader);
      assert forall k :: 0 <= k < |c.messageReader.readers| ==> unchanged(c.messageReader.readers[k]);
      assert c.message != null ==> unchanged(c.message);
    }

    /** A channel's reader is the channel's own. */
    twostate lemma ReaderIsOwned(id: nat)
      requires old(Ready()) && id in old(channels)
      ensures id < |old(st).channels| && old(ChannelOk(id))
      ensures var c := old(channels[id]);
              && c.id == id == c.messageReader.owner
              && forall k :: 0 <= k < |c.messageReader.readers| ==> c.messageReader.readers[k].owner == id
    {
      hide Fielded, StandsAt, Tells, MessageReader.Quiet, MessageReader.Partial, MessageReader.Base, LogOk, OwnsChannel;
      assert old(ChannelOk(id));
    }

    /** So are its data and stream its message's. */
    twostate lemma PartsAreOwned(id: nat)
      requires old(Ready()) && id in old(channels)
      ensures var c := old(channels[id]);
              && (old(c.data) != null ==> old(c.message) != null && old(c.data.owner) == old(c.message))
              && (old(c.stream) != null ==> old(c.message) != null && old(c.stream.owner) == old(c.message))
              && (old(c.message) != null ==>
                    && (old(c.message.data) != null ==> old(c.message.data.owner) == old(c.message))
                    && (old(c.message.stream) != null ==> old(c.message.stream.owner) == old(c.message))
                    && old(c.message.index) == if old(st).channels[id].Busy? then old(st).channels[id].index else -1 - id)
    {
      hide MessageReader.InPlace, StandsAt, Tells, MessageStream.Valid, MessageData.Valid, HandedOk;
      assert old(ChannelOk(id));
      if old(st).channels[id].Busy? { assert old(MessageOk(st.channels[id].index, true)); }
    }

    /** Another channel shares no object with the current one or with the message it fills. */
    twostate lemma OthersApart(id: nat)
      requires old(Ready()) && id in old(channels) && id != old(st).current
      ensures id < |old(st).channels| && old(ChannelOk(id))
      ensures var c := old(channels[id]);
              && !IsCurrent(c) && !IsCurrent(c.messageReader)
              && (forall k :: 0 <= k < |c.messageReader.readers| ==> !IsCurrent(c.messageReader.readers[k]))
              && (old(c.data) != null ==> !IsCurrent(old(c.data)))
              && (old(c.message) != null ==>
                    && !IsCurrent(old(c.message))
                    && (old(c.message.data) != null ==> !IsCurrent(old(c.message.data)))
                    && (old(c.message.stream) != null ==> !IsCurrent(old(c.message.stream))))
    {
      hide ChannelOk, LogOk, ReadersOk;
      ReaderIsOwned(id);
      ReaderIsOwned(old(st).current);
      PartsAreOwned(id);
      PartsAreOwned(old(st).current);
      if old(st).channels[id].Busy? && old(Here(st)).Busy? { BusyApart(id); }
    }

    /** No two channels are busy with one message. */
    twostate lemma BusyApart(id: nat)
      requires old(Ready()) && id in old(channels) && id != old(st).current
      requires id < |old(st).channels| && old(st).channels[id].Busy? && old(Here(st)).Busy?
      ensures old(st).channels[id].index != old(Here(st)).index
    {
      hide ChannelOk, LogOk, ReadersOk;
      assert ChannelConsistent(old(st).channels, old(st).log, id);
      assert ChannelConsistent(old(st).channels, old(st).log, old(st).current);
    }

    /** A call on the current channel leaves the others alone. */
    twostate lemma OtherKept(id: nat, new touched: set<object>)
      requires old(Ready()) && OnlyTouched(old(parts), touched) && forall o :: o in touched ==> IsCurrent(o)
      requires id in old(channels) && id in channels && channels[id] == old(channels[id]) && id != old(st).current
      requires SameElsewhere(old(st), st)
      requires old(objects) <= objects && old(parts) <= parts
      ensures id < |st.channels| && ChannelOk(id)
    {
      hide Matches, MessageOk, ChannelOk, LogOk, Consistent, MessageStream.Valid, MessageData.Valid;
      OthersApart(id);
      ChannelKept(id, touched);
    }

    twostate lemma OthersKept(new touched: set<object>)
      requires old(Ready()) && OnlyTouched(old(parts), touched) && forall o :: o in touched ==> IsCurrent(o)
      requires unchanged(`channels) && unchanged(`currentChannel) && SameElsewhere(old(st), st)
      requires old(objects) <= objects && old(parts) <= parts
      requires st.current < |st.channels| && st.current in channels ==> ChannelOk(st.current)
      ensures ChannelsOk()
    {
      hide Matches, MessageOk, ChannelOk, LogOk, Consistent, OnlyTouched;
      forall id | id in channels && id != st.current ensures id < |st.channels| && ChannelOk(id) { OtherKept(id, touched); }
    }

    /** What belongs to the current channel is no part of another message. */
    twostate lemma CurrentAway(new o: object, j: nat)
      requires old(Ready()) && IsCurrent(o) && j < |old(objects)|
      requires old(Here(st)).Busy? ==> old(Here(st)).index != j
      ensures AwayFrom(o, j)
    {
      hide MessageReader.InPlace, StandsAt, Tells, MessageStream.Valid, MessageData.Valid, HandedOk;
      assert old(ChannelOk(st.current)) && old(MessageOk(j, true));
      if old(Here(st)).Busy? { assert old(MessageOk(Here(st).index, true)); }
    }

    twostate lemma MessageKept(j: nat, new touched: set<object>)
      requires old(Ready()) && old(objects) <= objects && old(parts) <= parts && j < |old(objects)|
      requires OnlyTouched(old(parts), touched) && forall o :: o in touched ==> AwayFrom(o, j)
      requires j < |st.log| && st.log[j] == old(st).log[j]
      ensures MessageOk(j, true)
    {
      hide ChannelsOk, MessageStream.Valid, MessageData.Valid, HandedOk, Consistent, ReadersOk;
      var m := objects[j];
      assert old(MessageOk(j, true));
      assert unchanged(m) && unchanged(m.data) && (m.stream != null ==> unchanged(m.stream));
    }

    /** A call on the current channel, where message k is in progress if any is, leaves the other
        messages alone. */
    twostate lemma LogKeptBut(k: nat, new touched: set<object>)
      requires old(Ready()) && OnlyTouched(old(parts), touched) && forall o :: o in touched ==> IsCurrent(o)
      requires old(objects) <= objects && old(parts) <= parts && |objects| == |st.log| && k <= |old(objects)|
      requires forall j :: 0 <= j < |old(objects)| && j != k ==> st.log[j] == old(st).log[j]
      requires old(Here(st)).Busy? ==> old(Here(st)).index == k
      requires HandedOk() && k < |objects| ==> MessageOk(k, true)
      requires |objects| <= |old(objects)| + (if k == |old(objects)| then 1 else 0)
      ensures HandedOk() ==> LogOk(true)
    {
      hide ChannelsOk, MessageOk, OnlyTouched, AwayFrom, IsCurrent, HandedOk;
      forall j | 0 <= j < |old(objects)| && j != k ensures MessageOk(j, true) {
        forall o | o in touched ensures AwayFrom(o, j) { CurrentAway(o, j); }
        MessageKept(j, touched);
      }
    }

    /** Nothing about the messages has changed. */
    twostate lemma LogKept()
      requires old(Ready()) && OnlyTouched(old(parts), {}) && old(parts) <= parts
      requires unchanged(`objects) && unchanged(`emitted) && st.log == old(st).log && st.handed == old(st).handed
      ensures LogOk(true)
    {
      hide ChannelsOk, MessageOk, OnlyTouched, AwayFrom;
      forall j | 0 <= j < |objects| ensures MessageOk(j, true) { MessageKept(j, {}); }
    }

    /** A call took n bytes of the packet, and nothing else about the parser has changed. */
    twostate predicate Took(n: nat)
      requires old(reader.Valid())
      reads this`channels, this`currentChannel, this`subMode,
            reader, reader.buffer, reader.source, sub, packetsSize16, packetsSize24, packetsSize32
    {
      && n <= |old(reader.Unread())| && reader.Valid() && reader.Unread() == old(reader.Unread())[n..]
      && reader.buffer == old(reader.buffer) && n <= old(sub.size) && sub.size == old(sub.size) - n
      && unchanged(`channels) && unchanged(`currentChannel) && unchanged(`subMode)
      && unchanged(packetsSize16) && unchanged(packetsSize24) && unchanged(packetsSize32)
    }

    twostate lemma TookLess(n: nat)
      requires old(reader.Valid()) && Took(n)
      ensures reader.Valid() && |reader.Unread()| == |old(reader.Unread())| - n && n <= old(sub.size)
      ensures n <= |old(reader.Unread())|
    {
    }

    /** Keeps the books: these bytes have been taken, these objects and messages are new, and these are
        handed over. */
    ghost method Advance(piece: seq<byte>, more: set<object>, messages: seq<Message>, handed: seq<Message>)
      modifies this`st, this`consumed, this`parts, this`objects, this`emitted
      ensures st == Run(old(st), piece) && consumed == old(consumed) + piece
      ensures parts == old(parts) + more && objects == old(objects) + messages && emitted == old(emitted) + handed
    {
      st, consumed, parts := Run(st, piece), consumed + piece, parts + more;
      objects, emitted := objects + messages, emitted + handed;
    }

    /** Once the machine has failed, the rest of the input makes no difference. */
    lemma Stops(consumed: seq<byte>, rest: seq<byte>)
      requires consumed + rest == input && Parse(channelsCount, consumed).mode.Failed?
      ensures Parse(channelsCount, input) == Parse(channelsCount, consumed)
    {
      RunMore(channelsCount, consumed, rest);
      RunFailed(Parse(channelsCount, consumed), rest);
    }

    static lemma InitSize(channelsCount: nat)
      ensures |Init(channelsCount).channels| == channelsCount
    {
    }

    /** What the machine makes of the bytes taken is well-formed. */
    lemma TruthIsWellFormed()
      requires channelsCount >= 1
      ensures WellFormed(Truth()) && |Truth().channels| == channelsCount
    {
      hide Run, Init;
      InitWellFormed(channelsCount);
      RunKeeps(Init(channelsCount), consumed);
      InitSize(channelsCount);
    }


    // The parts of a message: data, stream, and the end of the stream.

    /** A Data or Stream packet is being entered or resumed. If it may not come now, the machine fails
        on it. */
    ghost predicate Entering(part: Part, ok: bool, e: Error)
      reads this, Readers(), parts
    {
      && Ready() && Whole() && subMode == part && part != HeaderPart
      && if ok then st.mode == Rest(part, sub.size) && WellFormed(st) && st == Truth()
         else
           var end := Parse(channelsCount, input);
           end.mode == Failed(e) && end.log == st.log && end.handed == st.handed
    }

    /** Progress of the current channel's message, with its header's reader at rest. */
    twostate lemma ChannelRecorded(new touched: set<object>, new e: Entry, new feed: Feed)
      requires old(Ready()) && old(Here(st)).Busy? && OnlyTouched(old(parts), touched)
      requires forall o :: o in touched ==> o == old(currentChannel) || o == old(currentChannel.data) || o == old(currentChannel.stream)
      requires unchanged(`channels) && unchanged(`currentChannel) && unchanged(`objects) && unchanged(`parts)
      requires SameElsewhere(old(st), st) && HeaderLeft(old(st), old(st).current) == 0 == HeaderLeft(st, st.current)
      requires st.channels[st.current] == Settled(old(Here(st)).index, e, old(Here(st)).got, feed)
      requires feed.Fed? ==> old(Here(st)).feed.Fed?
      requires old(Here(st)).index < |old(objects)|
      requires var m := old(objects)[old(Here(st)).index];
               && (old(Here(st)).feed.Fed? || (old(m.data) != null && unchanged(old(m.data))))
               && if feed.Done(e) && e.StreamDone() then currentChannel.IsIdle()
                  else unchanged(currentChannel) && IsFed(currentChannel.data, m, feed)
      ensures ChannelOk(st.current)
    {
      hide MessageReader.InPlace, StandsAt, Fielded, MessageData.Valid, MessageStream.Valid, ReadersOk, HandedOk,
        LogOk, Feed.Done, Entry.StreamDone;
      CurrentAttached();
      assert old(ChannelOk(st.current));
      var c, m := currentChannel, old(objects)[old(Here(st)).index];
      assert unchanged(m) && unchanged(c.messageReader);
      assert forall k :: 0 <= k < |c.messageReader.readers| ==> unchanged(c.messageReader.readers[k]);
      c.messageReader.KeptStays(m);
    }

    /** What the machine's side of a piece of data is. */
    twostate lemma DataRun(new d: MessageData, new piece: seq<byte>)
      requires old(Ready()) && old(ExpectsData(st)) && d == old(currentChannel.data) && WellFormed(old(st))
      requires d.Valid() && d.pushed == old(d.pushed) + piece
      requires old(st).mode == Rest(DataPart, |piece| + sub.size)
      requires st == Run(old(st), piece) && old(st) == old(Truth()) && consumed == old(consumed) + piece
      ensures st == DataPassed(old(st), piece, sub.size) && WellFormed(st) && Consistent(st) && st == Truth()
    {
      hide ChannelsOk, LogOk, Run, Init, DataPassed, OwnsMessage, HandedOk;
      CurrentAttached();
      WroteIsPushed(d);
      DataPiece(old(st), piece, sub.size);
      RunKeeps(old(st), piece);
      RunMore(channelsCount, old(consumed), piece);
    }

    twostate lemma DataMessageKept(new d: MessageData, new piece: seq<byte>)
      requires old(Ready()) && old(ExpectsData(st)) && d == old(currentChannel.data)
      requires unchanged(`objects) && unchanged(`parts) && OnlyTouched(old(parts), {old(currentChannel), d})
      requires d.Valid() && d.err.None? && d.pushed == old(d.pushed) + piece
      requires var k := old(Here(st)).index;
               |st.log| == |old(st).log| && st.log[k] == DataInto(Active(old(st)), old(Here(st)).feed, piece)
      ensures MessageOk(old(Here(st)).index, true)
    {
      hide ChannelsOk, LogOk, MessageData.Valid, MessageStream.Valid;
      CurrentAttached();
      var m := old(objects)[old(Here(st)).index];
      assert unchanged(m) && (m.stream != null ==> unchanged(m.stream));
      if m.data != d { assert unchanged(m.data); }
    }

    twostate lemma DataChannelKept(new d: MessageData, new piece: seq<byte>)
      requires old(Ready()) && old(ExpectsData(st)) && d == old(currentChannel.data)
      requires unchanged(`channels) && unchanged(`currentChannel) && unchanged(`objects) && unchanged(`parts)
      requires OnlyTouched(old(parts), {currentChannel, d})
      requires SameElsewhere(old(st), st) && HeaderLeft(old(st), old(st).current) == 0 == HeaderLeft(st, st.current)
      requires var e, feed := DataInto(Active(old(st)), old(Here(st)).feed, piece), FeedInto(old(Here(st)).feed, piece);
               st.channels[st.current] == Settled(old(Here(st)).index, e, old(Here(st)).got, feed)
      requires d.Valid() && d.err.None? && d.pushed == old(d.pushed) + piece
      requires if d.Done() && old(currentChannel.StreamDone()) then currentChannel.IsIdle() else unchanged(currentChannel)
      ensures ChannelOk(st.current)
    {
      hide ChannelsOk, LogOk, MessageData.Valid, MessageStream.Valid, Matches, ReadersOk, Consistent;
      CurrentAttached();
      WroteIsPushed(d);
      var e, feed := DataInto(Active(old(st)), old(Here(st)).feed, piece), FeedInto(old(Here(st)).feed, piece);
      var m := old(objects)[old(Here(st)).index];
      assert unchanged(m);
      if !old(Here(st)).feed.Fed? { assert unchanged(old(m.data)); }
      assert d.Done() == feed.Done(e);
      ChannelRecorded({currentChannel, d}, e, feed);
    }

    twostate lemma HandedStays()
      requires old(HandedOk()) && unchanged(`emitted) && old(objects) <= objects && st.handed == old(st).handed
      ensures HandedOk()
    {
    }

    /** The call has taken n bytes of the payload and passed them on. */
    twostate lemma DataTaken(n: nat, new d: MessageData)
      requires old(Entering(DataPart, true, UnexpectedData)) && old(ExpectsData(st)) && d == old(currentChannel.data)
      requires Took(n) && st == Run(old(st), old(reader.Unread())[..n])
      requires consumed == old(consumed) + old(reader.Unread())[..n]
      requires unchanged(`objects) && unchanged(`emitted) && unchanged(`parts) && OnlyTouched(old(parts), {currentChannel, d})
      requires d.Valid() && d.err.None? && d.pushed == old(d.pushed) + old(reader.Unread())[..n]
      requires if d.Done() && old(currentChannel.StreamDone()) then currentChannel.IsIdle() else unchanged(currentChannel)
      ensures Valid()
    {
      hide MessageOk, Matches, ChannelOk, BufferedReader.Unread, Run, Init, MessageData.Valid, OwnsMessage, Record, HandedOk,
        WellFormed, Consistent, OnlyTouched, DataInto, FeedInto, Settled;
      var piece := old(reader.Unread())[..n];
      var e, feed := DataInto(Active(old(st)), old(Here(st)).feed, piece), FeedInto(old(Here(st)).feed, piece);
      DataRun(d, piece);
      Recorded(old(st), e, feed);
      HandedStays();
      DataMessageKept(d, piece);
      LogKeptBut(old(Here(st)).index, {currentChannel, d});
      DataChannelKept(d, piece);
      OthersKept({currentChannel, d});
    }

    /** The call itself: what is taken, what is touched, and what comes of it. */
    method TakeData() returns (error: Option<Error>, ghost n: nat)
      requires Ready()
      modifies parts, Readers()
      ensures Took(n)
      ensures error == Some(UnexpectedData) ==> OnlyTouched(old(parts), {})
      ensures error in {None, Some(UnexpectedData), Some(MalformedSize), Some(Panic)}
      ensures (error == Some(UnexpectedData)) == !old(ExpectsData(st))
      ensures error != Some(UnexpectedData) ==>
                var d := old(currentChannel.data);
                && d != null && d.Valid() && OnlyTouched(old(parts), {currentChannel, d})
      ensures error.None? ==>
                var d := old(currentChannel.data);
                && d.err.None? && d.pushed == old(d.pushed) + old(reader.Unread())[..n]
                && (old(sub.size) > 0 && old(reader.available) > 0 ==> n > 0)
                && if d.Done() && old(currentChannel.StreamDone()) then currentChannel.IsIdle() else unchanged(currentChannel)
      ensures error in {Some(MalformedSize), Some(Panic)} ==>
                var d := old(currentChannel.data);
                && |old(d.pushed)| + n > d.size && n > 0
                && old(d.pushed) <= d.pushed <= old(d.pushed) + old(reader.Unread())[..n]
    {
      hide ChannelsOk, LogOk, Consistent, BufferedReader.Unread, ExpectsData, MessageData.Valid, Carries;
      CurrentParts();
      error, n := currentChannel.ProcessData(sub);
    }

    /** The call has taken more than the message declared. */
    twostate lemma DataOverran(n: nat, new d: MessageData, new e: Error)
      requires old(Entering(DataPart, true, UnexpectedData)) && old(ExpectsData(st)) && d == old(currentChannel.data)
      requires 0 < n <= |old(reader.Unread())| && n <= old(sub.size)
      requires unchanged(`currentChannel) && unchanged(`objects) && unchanged(`emitted) && unchanged(`parts)
      requires OnlyTouched(old(parts), {currentChannel, d})
      requires |old(d.pushed)| + n > d.size && d.Valid()
      requires old(d.pushed) <= d.pushed <= old(d.pushed) + old(reader.Unread())[..n]
      requires st == Parse(channelsCount, input) && e in {MalformedSize, Panic}
      ensures Stopped(e)
    {
      hide ChannelsOk, MessageData.Valid, Run, Init, BufferedReader.Unread, MessageOk, OnlyTouched, HandedOk, Carries,
        Consistent, SizeReader;
      DataOverrun(n, d);
      var k := old(Here(st)).index;
      CurrentAttached();
      HandedStays();
      forall j | 0 <= j < |objects| ensures MessageOk(j, false) {
        if j != k {
          OverrunOthers(j, d, old(reader.Unread())[..n]);
        } else {
          OverrunMessage(d, old(reader.Unread())[..n]);
        }
      }
    }

    twostate lemma OverrunOthers(j: nat, new d: MessageData, new piece: seq<byte>)
      requires old(Ready()) && old(ExpectsData(st)) && d == old(currentChannel.data)
      requires unchanged(`objects) && unchanged(`parts) && OnlyTouched(old(parts), {old(currentChannel), d})
      requires j < |old(objects)| && j != old(Here(st)).index
      requires |piece| > old(Here(st)).feed.Room(Active(old(st))) && st.log == Overrun(old(st), piece)
      ensures MessageOk(j, false)
    {
      hide ChannelsOk, OnlyTouched, AwayFrom, MessageData.Valid, MessageStream.Valid, HandedOk, Consistent, ReadersOk;
      forall o | o in {old(currentChannel), d} ensures AwayFrom(o, j) { CurrentAway(o, j); }
      MessageKept(j, {old(currentChannel), d});
    }

    twostate lemma OverrunMessage(new d: MessageData, new piece: seq<byte>)
      requires old(Ready()) && old(ExpectsData(st)) && d == old(currentChannel.data)
      requires unchanged(`objects) && unchanged(`parts) && OnlyTouched(old(parts), {old(currentChannel), d})
      requires |piece| > old(Here(st)).feed.Room(Active(old(st))) && st.log == Overrun(old(st), piece)
      requires d.Valid() && old(d.pushed) <= d.pushed <= old(d.pushed) + piece
      ensures MessageOk(old(Here(st)).index, false)
    {
      hide ChannelsOk, MessageData.Valid, MessageStream.Valid, HandedOk, Consistent, ReadersOk;
      CurrentAttached();
      WroteIsPushed(d);
      var m := old(objects)[old(Here(st)).index];
      assert unchanged(m) && (m.stream != null ==> unchanged(m.stream));
      if m.data != d { assert unchanged(m.data); }
    }

    /** The machine's side of it. */
    twostate lemma DataOverrun(n: nat, new d: MessageData)
      requires old(Ready()) && WellFormed(old(st)) && old(Whole()) && old(st) == old(Truth()) && old(ExpectsData(st))
      requires old(st).mode == Rest(DataPart, old(sub.size))
      requires 0 < n <= |old(reader.Unread())| && n <= old(sub.size)
      requires d == old(currentChannel.data) && |old(d.pushed)| + n > d.size
      requires st == Parse(channelsCount, input)
      ensures n > old(Here(st)).feed.Room(Active(old(st)))
      ensures st.mode == Failed(UnexpectedData) && st.log == Overrun(old(st), old(reader.Unread())[..n])
      ensures st.handed == old(st).handed
    {
      hide ChannelsOk, LogOk, Run, Init, BufferedReader.Unread, Overrun, HandedOk;
      CurrentAttached();
      var all := old(reader.Unread());
      RunMore(channelsCount, old(consumed), all);
      assert all == all[..n] + all[n..];
      RunConcat(old(st), all[..n], all[n..]);
      RunDataTooLong(old(st), all[..n], old(sub.size) - n);
      RunFailed(Run(old(st), all[..n]), all[n..]);
    }

    lemma EnteringPart(part: Part)
      requires Entering(part, ExpectsData(st), UnexpectedData) || Entering(part, ExpectsStream(st), UnexpectedStream)
      ensures Ready() && reader.Valid() && this !in parts
    {
    }

    twostate lemma PartRefused(new part: Part, new e: Error)
      requires old(Entering(part, false, e)) && unchanged(`objects) && unchanged(`emitted) && unchanged(`parts)
      requires OnlyTouched(old(parts), {})
      requires st == Parse(channelsCount, input) && e != EndOfInput
      ensures Stopped(e)
    {
      hide LogOk, Parse, OnlyTouched, ChannelsOk, ReadersOk, Consistent;
      LogKept();
    }

    method PassData() returns (error: Option<Error>)
      requires Entering(DataPart, ExpectsData(st), UnexpectedData)
      modifies this, parts, Readers()
      ensures Result(old(emitted), null, error) && fresh(parts - old(parts))
      ensures error.None? ==> |reader.Unread()| <= |old(reader.Unread())|
      ensures error.None? && old(sub.size) > 0 && old(reader.available) > 0 ==> |reader.Unread()| < |old(reader.Unread())|
    {
      hide Entering, Ready, Valid, Stopped, Took, OnlyTouched, Run, Parse, BufferedReader.Unread,
        MessageData.Valid, ExpectsData, ParserChannel.IsIdle;
      EnteringPart(DataPart);
      ghost var n;
      ghost var all, d := reader.Unread(), currentChannel.data;
      error, n := TakeData();
      TookLess(n);
      if error.None? {
        assert emitted + [] == emitted && objects + [] == objects && parts + {} == parts;
        Advance(all[..n], {}, [], []);
        DataTaken(n, d);
      } else {
        st := Parse(channelsCount, input);
        if error != Some(UnexpectedData) {
          DataOverran(n, d, error.value);
        } else {
          PartRefused(DataPart, UnexpectedData);
        }
      }
    }

    twostate lemma StreamRun(new piece: seq<byte>)
      requires old(Ready()) && old(ExpectsStream(st)) && WellFormed(old(st))
      requires old(st).mode == Rest(StreamPart, |piece| + sub.size)
      requires st == Run(old(st), piece) && old(st) == old(Truth()) && consumed == old(consumed) + piece
      ensures st == StreamPassed(old(st), piece, sub.size) && WellFormed(st) && Consistent(st) && st == Truth()
    {
      hide ChannelsOk, LogOk, Run, Init, OwnsMessage, StreamPassed;
      StreamPiece(old(st), piece, sub.size);
      RunKeeps(old(st), piece);
      RunMore(channelsCount, old(consumed), piece);
    }

    /** The current message's stream has moved on, or ended. */
    twostate lemma StreamMessageKept(new t: MessageStream, new touched: set<object>, new e: Entry)
      requires old(Ready()) && old(Attached(st)) && Active(old(st)).hasStream && t == old(currentChannel.stream)
      requires unchanged(`objects) && unchanged(`parts) && OnlyTouched(old(parts), touched)
      requires touched <= {old(currentChannel), t} && |st.log| == |old(st).log| && st.log[old(Here(st)).index] == e
      requires t.Valid() && e == Active(old(st)).(stream := t.pushed, streamEnded := t.done)
      ensures MessageOk(old(Here(st)).index, true)
    {
      hide ChannelsOk, LogOk, MessageData.Valid, MessageStream.Valid;
      CurrentAttached();
      var m := old(objects)[old(Here(st)).index];
      assert unchanged(m) && unchanged(m.data);
    }

    twostate lemma StreamChannelKept(new t: MessageStream, new touched: set<object>, new e: Entry)
      requires old(Ready()) && old(Attached(st)) && Active(old(st)).hasStream && t == old(currentChannel.stream)
      requires unchanged(`channels) && unchanged(`currentChannel) && unchanged(`objects) && unchanged(`parts)
      requires OnlyTouched(old(parts), touched) && touched <= {currentChannel, t}
      requires SameElsewhere(old(st), st) && HeaderLeft(old(st), old(st).current) == 0 == HeaderLeft(st, st.current)
      requires st.channels[st.current] == Settled(old(Here(st)).index, e, old(Here(st)).got, old(Here(st)).feed)
      requires e == Active(old(st)).(stream := e.stream, streamEnded := e.streamEnded)
      requires if old(currentChannel.DataDone()) && e.streamEnded then currentChannel.IsIdle() else unchanged(currentChannel)
      ensures ChannelOk(st.current)
    {
      hide ChannelsOk, LogOk, MessageData.Valid, MessageStream.Valid, Matches, ReadersOk, Consistent;
      CurrentAttached();
      var c, m, feed := currentChannel, old(objects)[old(Here(st)).index], old(Here(st)).feed;
      var d := old(c.data);
      assert unchanged(m) && unchanged(m.data) && (d != null ==> unchanged(d));
      DataDoneIs();
      ChannelRecorded(touched, e, feed);
    }

    twostate lemma DataDoneIs()
      requires old(Ready()) && old(Attached(st))
      ensures old(currentChannel.DataDone()) == old(Here(st)).feed.Done(Active(old(st)))
    {
      hide ChannelsOk, LogOk, MessageData.Valid, MessageStream.Valid, Matches, ReadersOk, Consistent;
      CurrentAttached();
      var d := old(currentChannel.data);
      if d != null {
        assert old(d.Valid());
        OldWroteIsPushed(d);
      }
    }

    static twostate lemma OldWroteIsPushed(new d: MessageData)
      requires old(allocated(d)) && old(d.Valid())
      ensures old(d.wrote) == |old(d.pushed)| <= d.size
    {
    }

    twostate lemma StreamTaken(n: nat, new t: MessageStream)
      requires old(Entering(StreamPart, true, UnexpectedStream)) && old(ExpectsStream(st)) && t == old(currentChannel.stream)
      requires Took(n) && st == Run(old(st), old(reader.Unread())[..n])
      requires consumed == old(consumed) + old(reader.Unread())[..n]
      requires unchanged(`objects) && unchanged(`emitted) && unchanged(`parts) && OnlyTouched(old(parts), {t})
      requires t.Valid() && !t.done && t.pushed == old(t.pushed) + old(reader.Unread())[..n] && unchanged(currentChannel)
      ensures Valid()
    {
      hide MessageOk, Matches, ChannelOk, BufferedReader.Unread, Run, Init, MessageStream.Valid, OwnsMessage, Record, HandedOk,
        WellFormed, Consistent, OnlyTouched, Settled;
      var piece := old(reader.Unread())[..n];
      var e := Active(old(st)).(stream := Active(old(st)).stream + piece);
      StreamRun(piece);
      Recorded(old(st), e, old(Here(st)).feed);
      HandedStays();
      StreamIs(t);
      StreamMessageKept(t, {t}, e);
      LogKeptBut(old(Here(st)).index, {t});
      StreamChannelKept(t, {t}, e);
      OthersKept({t});
    }

    twostate lemma StreamIs(new t: MessageStream)
      requires old(Ready()) && old(Attached(st)) && t == old(currentChannel.stream)
      ensures old(t.pushed) == Active(old(st)).stream && old(t.done) == Active(old(st)).streamEnded
    {
      hide ChannelsOk, LogOk, MessageData.Valid, MessageStream.Valid, Matches, ReadersOk, Consistent;
      CurrentAttached();
    }

    method TakeStream() returns (error: Option<Error>, ghost n: nat)
      requires Ready()
      modifies parts, Readers()
      ensures Took(n)
      ensures error == if old(ExpectsStream(st)) then None else Some(UnexpectedStream)
      ensures error.Some? ==> OnlyTouched(old(parts), {})
      ensures error.None? ==>
                var t := currentChannel.stream;
                && t != null && t == old(currentChannel.stream) && t.Valid() && !t.done && OnlyTouched(old(parts), {t})
                && t.pushed == old(t.pushed) + old(reader.Unread())[..n] && unchanged(currentChannel)
                && (old(sub.size) > 0 && old(reader.available) > 0 ==> n > 0)
    {
      hide ChannelsOk, LogOk, Consistent, BufferedReader.Unread, ExpectsStream, MessageStream.Valid, Carries;
      CurrentParts();
      error, n := currentChannel.ProcessStream(sub);
    }

    method PassStream() returns (error: Option<Error>)
      requires Entering(StreamPart, ExpectsStream(st), UnexpectedStream)
      modifies this, parts, Readers()
      ensures Result(old(emitted), null, error) && fresh(parts - old(parts))
      ensures error.None? ==> |reader.Unread()| <= |old(reader.Unread())|
      ensures error.None? && old(sub.size) > 0 && old(reader.available) > 0 ==> |reader.Unread()| < |old(reader.Unread())|
    {
      hide Entering, Ready, Valid, Stopped, Took, OnlyTouched, Run, Parse, BufferedReader.Unread,
        MessageStream.Valid, ExpectsStream;
      EnteringPart(StreamPart);
      ghost var n;
      ghost var all, t := reader.Unread(), currentChannel.stream;
      error, n := TakeStream();
      if error.None? {
        TookLess(n);
        assert emitted + [] == emitted && objects + [] == objects && parts + {} == parts;
        Advance(all[..n], {}, [], []);
        StreamTaken(n, t);
      } else {
        st := Parse(channelsCount, input);
        PartRefused(StreamPart, UnexpectedStream);
      }
    }

    /** The packet's signature has been taken and amounts to this. */
    ghost predicate Entered(next: State)
      reads this, Readers(), parts
    {
      Ready() && Whole() && st.mode.AtSignature? && sub.size == 0 && Truth() == next
    }

    twostate lemma StreamEnded(new t: MessageStream)
      requires old(Entered(Demux.EndStream(st))) && old(Attached(st)) && Active(old(st)).hasStream
      requires t == old(currentChannel.stream)
      requires st == old(Truth()) && unchanged(`consumed) && ReadersOk() && Whole() && sub.size == 0
      requires unchanged(`channels) && unchanged(`currentChannel) && unchanged(`emitted) && unchanged(`parts)
      requires unchanged(`objects) && unchanged(`subMode)
      requires OnlyTouched(old(parts), {currentChannel, t}) && t.Valid() && t.done && t.pushed == old(t.pushed)
      requires if old(currentChannel.DataDone()) then currentChannel.IsIdle() else unchanged(currentChannel)
      ensures Valid()
    {
      hide MessageOk, Matches, ChannelOk, BufferedReader.Unread, Run, Init, MessageStream.Valid, OwnsMessage, Record, HandedOk,
        Consistent, OnlyTouched, Settled;
      var e := Active(old(st)).(streamEnded := true);
      HasChannelsBefore();
      TruthIsWellFormed();
      Recorded(old(st), e, old(Here(st)).feed);
      HandedStays();
      StreamIs(t);
      StreamMessageKept(t, {currentChannel, t}, e);
      LogKeptBut(old(Here(st)).index, {currentChannel, t});
      StreamChannelKept(t, {currentChannel, t}, e);
      OthersKept({currentChannel, t});
    }

    twostate lemma HasChannelsBefore()
      requires old(Ready())
      ensures channelsCount >= 1 && |old(st).channels| == channelsCount
    {
      hide ChannelOk, ReadersOk, LogOk;
    }

    method EndStream() returns (error: Option<Error>)
      requires Entered(Demux.EndStream(st))
      modifies this, parts, Readers()
      ensures Result(old(emitted), null, error) && fresh(parts - old(parts))
      ensures error.None? ==> reader.Unread() == old(reader.Unread())
    {
      hide Carries, Matches, ChannelOk, LogOk, BufferedReader.Unread, Run, Init, Consistent, WellFormed,
        MessageStream.Valid, Parse, HandedOk, Record;
      CurrentParts();
      ghost var t := currentChannel.stream;
      error := currentChannel.EndStream();
      if error.None? {
        st := Truth();
        StreamEnded(t);
      } else {
        Stops(consumed, reader.Unread());
        st := Parse(channelsCount, input);
        LogKept();
      }
    }

    // Headers.

    /** A header packet is being entered or resumed on the current channel. */
    ghost predicate AtHeader()
      reads this, Readers(), parts
    {
      && Ready() && Whole() && subMode == HeaderPart
      && match Here(st)
         case Idle(_) =>
           var end := Parse(channelsCount, input);
           end.mode == Failed(NotProcessing) && end.log == st.log && end.handed == st.handed
         case Reading(r, s, skip, got) =>
           && (st.mode.AtSignature? || st.mode == InPayload(HeaderPart, sub.size))
           && Truth() == HeaderSoFar(st, r, s, skip, got, sub.size)
         case Busy(_, _, _) =>
           sub.size > 0 && reader.available > 0 && st.mode == InPayload(HeaderPart, sub.size) && Truth() == st
    }

    /** What reading a header touches. */
    ghost function HeaderObjects(c: ParserChannel, m: Message): set<object> {
      {c, c.messageReader, m} + set r | r in c.messageReader.readers
    }

    /** The reader of the current channel can go on where it stands. */
    lemma CanProcess()
      requires AtHeader()
      ensures ReadersOk() && reader.Valid() && this !in parts && currentChannel in parts
      ensures (currentChannel.message == null) == Here(st).Idle?
      ensures currentChannel.message != null ==>
                && currentChannel.messageReader.Tracks(currentChannel.message)
                && currentChannel.messageReader.Goes(sub.size)
                && currentChannel.message in parts && currentChannel.messageReader in parts
                && (currentChannel.message.data != null ==> currentChannel.message.data in parts)
                && forall k :: 0 <= k < |currentChannel.messageReader.readers| ==> currentChannel.messageReader.readers[k] in parts
    {
      hide MessageReader.InPlace, StandsAt, Fielded, Tells, LogOk, MessageReader.Goes, HeaderSoFar, Run, Init, Consistent;
      assert ChannelOk(st.current);
      var c := currentChannel;
      if !Here(st).Idle? {
        StandsGoes(c.messageReader, HeaderLeft(st, st.current));
      }
    }

    /** What a call on the current channel's header did, whatever came of it. */
    twostate predicate HeaderCall(n: nat, new m: Message, new read: seq<byte>)
      requires old(reader.Valid())
      reads this`channels, this`currentChannel, this`subMode, currentChannel, currentChannel.messageReader, m,
            reader, reader.buffer, reader.source, sub, packetsSize16, packetsSize24, packetsSize32
    {
      && unchanged(`channels) && unchanged(`currentChannel) && unchanged(`subMode)
      && unchanged(packetsSize16) && unchanged(packetsSize24) && unchanged(packetsSize32)
      && m == old(currentChannel.message) && m.stream == old(m.stream) && (m.data == old(m.data) || fresh(m.data))
      && reader.Valid() && reader.buffer == old(reader.buffer)
      && n <= |old(reader.Unread())| && reader.Unread() == old(reader.Unread())[n..] && n <= old(sub.size)
      && read == old(currentChannel.messageReader.got) + old(reader.Unread())[..n]
    }

    /** A header's channel and message, as the machine has them. */
    twostate lemma HeaderObjectsAre(new m: Message)
      requires old(Ready()) && m == old(currentChannel.message)
      ensures !old(Here(st)).Idle? && m in old(parts) && old(currentChannel) in old(parts)
      ensures forall o :: o in HeaderObjects(old(currentChannel), m) ==> o in old(parts) && IsCurrent(o)
      ensures var r := old(currentChannel).messageReader;
              && old(r.got) == old(Here(st)).got && old(r.InPlace()) && old(r.Kept(m))
              && old(r.Stands(HeaderLeft(st, st.current)))
      ensures old(m.data) != null ==> old(m.data) in old(parts)
      ensures old(m.stream) != null ==> old(m.stream) in old(parts)
      ensures old(Here(st)).Busy? ==>
                && old(Attached(st)) && old(Here(st)).index < |old(objects)| && m == old(objects)[old(Here(st)).index]
                && old(m.index) == old(Here(st)).index
                && old(currentChannel.messageReader.from) == 0
    {
      hide MessageReader.InPlace, StandsAt, Fielded, Tells, LogOk, Consistent, MessageData.Valid, MessageStream.Valid;
      assert old(ChannelOk(st.current));
      if old(Here(st)).Busy? { CurrentAttached(); }
      forall o | o in HeaderObjects(old(currentChannel), m) ensures o in old(parts) && IsCurrent(o) {}
    }

    // A new message's header.

    twostate lemma NewMessageIs(new m: Message)
      requires old(Ready()) && m == old(currentChannel.message) && old(Here(st)).Reading?
      ensures var r := old(currentChannel).messageReader;
              && old(r.base) == BLANK_FIELDS && old(r.from) < OVER && Tells(old(r.from), old(Here(st)).skip, 0)
      ensures m.expectsResponse == old(Here(st)).expectsResponse && old(m.stream != null) == old(Here(st)).hasStream
      ensures old(m.stream) != null ==> old(IsNewStream(m))
      ensures old(currentChannel.data) == null && old(currentChannel.stream) == null
    {
      hide MessageReader.InPlace, StandsAt, Fielded, Tells, LogOk, Consistent, MessageStream.Valid;
      assert old(ChannelOk(st.current));
    }

    /** The machine's side of a piece of its header. */
    twostate lemma HeaderRun(n: nat, new read: seq<byte>)
      requires old(AtHeader()) && old(Here(st)).Reading? && n <= |old(reader.Unread())| && n <= old(sub.size)
      requires read == old(Here(st)).got + old(reader.Unread())[..n] && Within(read)
      ensures var Reading(r, s, skip, got) := old(Here(st));
              Run(old(Truth()), old(reader.Unread())[..n]) == HeaderSoFar(old(st), r, s, skip, read, old(sub.size) - n)
    {
      hide HeaderSoFar, Run, Init, ChannelsOk, LogOk, Within, BufferedReader.Unread;
      HeaderPiece(old(st), old(reader.Unread())[..n], old(sub.size) - n);
    }

    twostate lemma ReadingGoesOn(n: nat, new m: Message, new read: seq<byte>)
      requires old(AtHeader()) && old(Here(st)).Reading? && HeaderCall(n, m, read) && sub.size == old(sub.size) - n
      requires OnlyTouched(old(parts), HeaderObjects(currentChannel, m))
      requires currentChannel.messageReader.InPlace() && currentChannel.GoesOn(m, read, sub.size)
      requires unchanged(`objects) && unchanged(`emitted) && parts == old(parts) + if m.data != null then {m.data} else {}
      requires unchanged(m`index)
      requires consumed == old(consumed) + old(reader.Unread())[..n] && st == Truth()
      ensures Valid()
    {
      hide MessageOk, ChannelOk, BufferedReader.Unread, Run, Init, HeaderSoFar, Complete, Within, WellFormed, Consistent,
        OnlyTouched, HandedOk, MessageReader.InPlace, StandsAt, Fielded, Tells, HeaderObjects, IsCurrent;
      HeaderObjectsAre(m);
      StandsTells(currentChannel.messageReader.step, read, sub.size);
      HeaderRun(n, read);
      RunMore(channelsCount, old(consumed), old(reader.Unread())[..n]);
      var Reading(r, s, skip, got) := old(Here(st));
      StillReading(old(st), r, s, skip, read, sub.size);
      HasChannelsBefore();
      TruthIsWellFormed();
      WellFormedIsConsistent();
      HandedStays();
      LogKeptBut(|old(objects)|, HeaderObjects(currentChannel, m));
      ReadingKept(m, read);
      OthersKept(HeaderObjects(currentChannel, m));
    }

    lemma WellFormedIsConsistent()
      requires WellFormed(st)
      ensures Consistent(st)
    {
      hide Consistent;
    }

    twostate lemma ReadingKept(new m: Message, new read: seq<byte>)
      requires old(Ready()) && old(Here(st)).Reading? && m == old(currentChannel.message)
      requires unchanged(`channels) && unchanged(`currentChannel)
      requires parts == old(parts) + if m.data != null then {m.data} else {}
      requires OnlyTouched(old(parts), HeaderObjects(currentChannel, m)) && m.stream == old(m.stream) && unchanged(m`index)
      requires currentChannel.messageReader.InPlace() && currentChannel.GoesOn(m, read, HeaderLeft(st, st.current))
      requires st.current == old(st).current < |st.channels| == |old(st).channels|
      requires st.channels[st.current]
            == Reading(old(Here(st)).expectsResponse, old(Here(st)).hasStream, old(Here(st)).skip, read)
      ensures ChannelOk(st.current)
    {
      hide MessageReader.InPlace, StandsAt, Fielded, Tells, Consistent, LogOk, ReadersOk, MessageStream.Valid,
        MessageData.Valid;
      NewMessageIs(m);
      HeaderObjectsAre(m);
      assert old(ChannelOk(st.current));
      if m.stream != null { assert unchanged(m.stream); }
    }

    // A header that is read into a delivered message.

    /** The machine's side of a piece of it. */
    twostate lemma RereadRun(n: nat, new read: seq<byte>)
      requires old(AtHeader()) && old(Here(st)).Busy? && old(Attached(st))
      requires 0 < n <= |old(reader.Unread())| && n <= old(sub.size)
      requires read == old(Here(st)).got + old(reader.Unread())[..n] && Within(read)
      ensures Run(old(Truth()), old(reader.Unread())[..n]) == RereadSoFar(old(st), read, old(sub.size) - n)
    {
      hide RereadSoFar, Run, Init, ChannelsOk, LogOk, Within, BufferedReader.Unread;
      RunReread(old(st), old(reader.Unread())[..n], old(sub.size) - n);
    }

    /** Fields that have not come in by now had not come in before. */
    static lemma NotInBefore(early: seq<byte>, late: seq<byte>, l: nat, left: nat, was: nat, to: nat)
      requires early < late && Tells(was, early, l) && Tells(to, late, left)
      ensures (to < 2 ==> was < 2) && (to < 4 ==> was < 4) && (to < 5 ==> was < 5) && (to < 6 ==> was < 6)
      ensures to < OVER ==> was < OVER
    {
      hide IdIn, ActionIn, DataIn, CountIn, SizeIn;
      FieldsComeIn(early, late, l, left);
    }

    /** The message is what reading on into it has made of it. */
    twostate lemma RereadMessage(new m: Message, new read: seq<byte>, new left: nat, to: nat)
      requires old(Ready()) && old(Here(st)).Busy? && m == old(currentChannel.message)
      requires OnlyTouched(old(parts), HeaderObjects(old(currentChannel), m)) && m.stream == old(m.stream)
      requires old(Here(st)).got < read && Tells(to, read, left)
      requires Fielded(m, old(currentChannel.messageReader.base), 0, to, read)
      requires old(parts) <= parts && (m.data != null ==> m.data in parts) && old(objects) <= objects
      requires m.index == old(Here(st)).index < |old(objects)| && m.index < |st.log| && m.index < |old(st).log|
      requires st.log[m.index] == Reread(old(st).log[m.index], read, left)
      ensures MessageOk(m.index, true)
    {
      hide Reread, Tells, StandsAt, Value, LengthKnown, HeaderLength, MessageReader.InPlace, MessageStream.Valid,
        MessageData.Valid, Consistent, HandedOk, ReadersOk, ChannelsOk, DataIn, IdIn, ActionIn, CountIn, SizeIn,
        Overlay;
      HeaderObjectsAre(m);
      CurrentAttached();
      var r, k := old(currentChannel).messageReader, old(Here(st)).index;
      var h, was := old(st).log[k].header, old(r.step.Rank());
      StandsTells(old(r.step), old(r.got), HeaderLeft(old(st), old(st).current));
      NotInBefore(old(r.got), read, HeaderLeft(old(st), old(st).current), left, was, to);
      RereadFields(m, read, left, to, h, was);
      RereadIs(old(st).log[k], read, left, to);
      assert m.stream != null ==> unchanged(m.stream);
      if to < 5 { assert unchanged(m.data); }
    }

    static lemma RereadIs(e: Entry, got: seq<byte>, left: nat, to: nat)
      requires Tells(to, got, left)
      ensures Reread(e, got, left)
           == e.(header := Overlay(e.header, [], got, left), data := if to >= 5 then [] else e.data, reread := true)
    {
    }

    static lemma TellsNothing()
      ensures Tells(0, [], 0)
    {
    }

    twostate lemma RereadFields(new m: Message, new read: seq<byte>, new left: nat, new to: nat, new h: Header, was: nat)
      requires old(Ready()) && m == old(currentChannel.message) && Tells(to, read, left)
      requires var r := old(currentChannel).messageReader;
               && Fielded(m, old(r.base), 0, to, read) && old(Fielded(m, r.base, 0, was, r.got))
      requires (to < 2 ==> was < 2) && (to < 4 ==> was < 4) && (to < 5 ==> was < 5) && (to < 6 ==> was < 6)
      requires to < OVER ==> was < OVER
      requires old(m.id) == h.id && old(m.action) == h.action && old(m.filesCount) == h.filesCount
      requires old(m.totalFilesSize) == h.totalFilesSize
      ensures var o := Overlay(h, [], read, left);
              && m.id == o.id && m.action == o.action && m.filesCount == o.filesCount && m.totalFilesSize == o.totalFilesSize
              && if to >= 5 then m.data != null && m.data.owner == m && IsNewData(m) && m.data.size == o.dataSize
                 else m.data == old(m.data) && o.dataSize == h.dataSize
    {
      hide Tells, Overlay, Value, Ready, LengthKnown;
      TellsNothing();
      FieldsAre(m, old(currentChannel.messageReader.base), 0, to, read, left, h, []);
    }

    /** How far the reader got, and whether the message has got its data by that. */
    twostate predicate DataIsNew(m: Message, new to: nat)
      reads m
    {
      if to >= 5 > old(currentChannel.messageReader.step.Rank()) then fresh(m.data) else m.data == old(m.data)
    }

    /** The channel goes on with the data it had. */
    twostate lemma FeedStays(new m: Message, new read: seq<byte>, new left: nat, to: nat)
      requires old(Ready()) && old(Attached(st)) && m == old(currentChannel.message)
      requires OnlyTouched(old(parts), HeaderObjects(old(currentChannel), m))
      requires DataIsNew(m, to) && Tells(to, read, left)
      ensures IsFed(old(currentChannel.data), m, FeedKept(Active(old(st)), old(Here(st)).feed, read, left))
    {
      hide MessageReader.InPlace, StandsAt, Fielded, MessageData.Valid, MessageStream.Valid, Consistent, ReadersOk, HandedOk,
        ActionIn, CountIn, SizeIn, DataIn;
      CurrentAttached();
      assert old(ChannelOk(st.current));
      var d := old(currentChannel.data);
      assert d != null ==> unchanged(d);
    }

    twostate lemma RereadGoesOn(n: nat, new m: Message, new read: seq<byte>)
      requires old(AtHeader()) && old(Here(st)).Busy? && HeaderCall(n, m, read) && sub.size == old(sub.size) - n && n > 0
      requires OnlyTouched(old(parts), HeaderObjects(currentChannel, m)) && unchanged(m`index)
      requires currentChannel.messageReader.InPlace() && currentChannel.GoesOn(m, read, sub.size)
      requires DataIsNew(m, currentChannel.messageReader.step.Rank())
      requires unchanged(`objects) && unchanged(`emitted) && parts == old(parts) + if m.data != null then {m.data} else {}
      requires consumed == old(consumed) + old(reader.Unread())[..n] && st == Truth()
      ensures Valid()
    {
      hide MessageOk, ChannelOk, BufferedReader.Unread, Run, Init, RereadSoFar, Complete, Within, WellFormed, Consistent,
        OnlyTouched, HandedOk, MessageReader.InPlace, StandsAt, Fielded, Tells, HeaderObjects, IsCurrent, Reread, FeedKept,
        MessageReader.Kept;
      HeaderObjectsAre(m);
      StandsTells(currentChannel.messageReader.step, read, sub.size);
      RereadRun(n, read);
      RunMore(channelsCount, old(consumed), old(reader.Unread())[..n]);
      NowReread(old(st), read, sub.size);
      HasChannelsBefore();
      TruthIsWellFormed();
      WellFormedIsConsistent();
      HandedStays();
      RereadProgress(m, read, sub.size);
      LogKeptBut(old(Here(st)).index, HeaderObjects(currentChannel, m));
      RereadChannel(m, read);
      OthersKept(HeaderObjects(currentChannel, m));
    }

    /** RereadMessage where the header goes on. */
    twostate lemma RereadProgress(new m: Message, new read: seq<byte>, left: nat)
      requires old(Ready()) && old(Here(st)).Busy? && m == old(currentChannel.message) && unchanged(`currentChannel)
      requires OnlyTouched(old(parts), HeaderObjects(currentChannel, m)) && m.stream == old(m.stream)
      requires old(Here(st)).got < read && currentChannel.GoesOn(m, read, left)
      requires old(parts) <= parts && (m.data != null ==> m.data in parts) && old(objects) <= objects
      requires unchanged(m`index) && |st.log| == |old(st).log|
      requires old(Here(st)).index < |st.log| && st.log[old(Here(st)).index] == Reread(Active(old(st)), read, left)
      ensures MessageOk(old(Here(st)).index, true)
    {
      hide MessageReader.InPlace, StandsAt, Fielded, Tells, Reread, OnlyTouched, HeaderObjects, Consistent, ReadersOk,
        HandedOk, ChannelsOk;
      HeaderObjectsAre(m);
      CurrentAttached();
      StandsTells(currentChannel.messageReader.step, read, left);
      RereadMessage(m, read, left, currentChannel.messageReader.step.Rank());
    }

    twostate lemma RereadChannel(new m: Message, new read: seq<byte>)
      requires old(Ready()) && old(Attached(st)) && m == old(currentChannel.message)
      requires unchanged(`channels) && unchanged(`currentChannel) && unchanged(`objects)
      requires parts == old(parts) + if m.data != null then {m.data} else {}
      requires OnlyTouched(old(parts), HeaderObjects(currentChannel, m)) && m.stream == old(m.stream)
      requires DataIsNew(m, currentChannel.messageReader.step.Rank())
      requires currentChannel.messageReader.InPlace() && currentChannel.GoesOn(m, read, HeaderLeft(st, st.current))
      requires st.current == old(st).current < |st.channels| == |old(st).channels|
      requires var feed := FeedKept(Active(old(st)), old(Here(st)).feed, read, HeaderLeft(st, st.current));
               st.channels[st.current] == Busy(old(Here(st)).index, read, feed)
      ensures ChannelOk(st.current)
    {
      hide MessageReader.InPlace, StandsAt, Fielded, Consistent, LogOk, ReadersOk, IsFed, ActionIn, CountIn, SizeIn, DataIn;
      var left := HeaderLeft(st, st.current);
      CurrentAttached();
      HeaderObjectsAre(m);
      StandsTells(currentChannel.messageReader.step, read, left);
      FeedStays(m, read, left, currentChannel.messageReader.step.Rank());
      assert old(ChannelOk(st.current));
    }

    // A header that is over.

    /** The message's channel waits for its parts, or is free. */
    twostate lemma ChannelAfter(new m: Message, new k: nat, new before: Feed, new e: Entry)
      requires old(Ready()) && m == old(currentChannel.message) && unchanged(`channels) && unchanged(`currentChannel)
      requires OnlyTouched(old(parts), HeaderObjects(currentChannel, m)) && m.stream == old(m.stream)
      requires parts == old(parts) + if m.data != null then {m.data} else {}
      requires k < |objects| && objects[k] == m && Carries(m, e, k, true) && e.data == []
      requires IsFed(old(currentChannel.data), m, before) && !before.Fed?
      requires (m.stream == null ==> old(currentChannel.stream) == null)
      requires currentChannel.Attached(m, old(currentChannel.data), old(currentChannel.stream))
      requires var r := currentChannel.messageReader; r.Tracks(m) && r.step == AtFlags && r.got == [] && r.from == 0
      requires st.current == old(st).current < |st.channels| == |old(st).channels|
      requires st.channels[st.current] == Settled(k, e, [], if e.header.dataSize > 0 then Fed else before)
      ensures ChannelOk(st.current)
    {
      hide MessageReader.InPlace, Fielded, Consistent, LogOk, ReadersOk, MessageData.Valid, MessageStream.Valid, Tells,
        OnlyTouched;
      HeaderObjectsAre(m);
      assert old(ChannelOk(st.current));
      WroteIsPushed(m.data);
      if before.Former? { WroteIsPushed(old(currentChannel.data)); }
    }

    /** The message is handed over. */
    twostate lemma HandedOver(new k: nat)
      requires old(HandedOk()) && old(objects) <= objects && k < |objects|
      requires emitted == old(emitted) + [objects[k]] && st.handed == old(st).handed + [k]
      ensures HandedOk()
    {
    }

    static lemma HasFields(m: Message, base: Fields, from: nat, got: seq<byte>, left: nat, skip: seq<byte>)
      requires Fielded(m, base, from, OVER, got) && base == BLANK_FIELDS && Complete(got, left) && !FilesSizeBroken(got[0])
      requires Tells(from, skip, 0) && from < OVER && m.data != null
      ensures var h := Overlay(BLANK, skip, got, left);
              && m.id == h.id && m.action == h.action && m.filesCount == h.filesCount && m.totalFilesSize == h.totalFilesSize
              && m.data.owner == m && IsNewData(m) && m.data.size == h.dataSize && !DataIn(skip, 0)
    {
      hide Complete, Overlay, ActionIn, IdIn, CountIn, SizeIn, Value;
      CompleteTells(got, left);
      FieldsAre(m, base, from, OVER, got, left, BLANK, skip);
    }

    /** The machine's side of it. */
    twostate lemma ReadingOverRun(n: nat, new m: Message, new read: seq<byte>)
      requires old(AtHeader()) && old(Here(st)).Reading? && m == old(currentChannel.message)
      requires n <= |old(reader.Unread())| && n <= old(sub.size) && sub.size == old(sub.size) - n
      requires read == old(currentChannel.messageReader.got) + old(reader.Unread())[..n]
      requires currentChannel == old(currentChannel) && currentChannel.Decoded(m, read, sub.size) && m.data != null
      requires consumed == old(consumed) + old(reader.Unread())[..n] && st == Truth()
      ensures WellFormed(st) && Consistent(st) && SameElsewhere(old(st), st) && st.mode == Rest(HeaderPart, sub.size)
      ensures var Reading(r, s, skip, _) := old(Here(st));
              var h := Overlay(BLANK, skip, read, sub.size);
              var e := NewEntry(old(st), r, s, h);
              && st.log == old(st).log + [e] && st.handed == old(st).handed + [|old(st).log|]
              && st.channels[st.current] == Settled(|old(st).log|, e, [], UsualFeed(h.dataSize))
              && m.id == h.id && m.action == h.action && m.filesCount == h.filesCount
              && m.totalFilesSize == h.totalFilesSize
              && m.data.owner == m && IsNewData(m) && m.data.size == h.dataSize
    {
      hide MessageOk, ChannelOk, BufferedReader.Unread, Run, Init, HeaderSoFar, Complete, Within, WellFormed, Consistent,
        HandedOk, MessageReader.InPlace, StandsAt, Fielded, Tells, Overlay, DataIn, FilesSizeBroken, Settled, UsualFeed,
        IsNewData, IsNewStream, SizeReader, MessageReader.Kept;
      var Reading(r, s, skip, got) := old(Here(st));
      NewMessageIs(m);
      HeaderObjectsAre(m);
      CompleteTells(read, sub.size);
      HasFields(m, BLANK_FIELDS, old(currentChannel.messageReader.from), read, sub.size, skip);
      HeaderRun(n, read);
      RunMore(channelsCount, old(consumed), old(reader.Unread())[..n]);
      NowDelivered(old(st), r, s, skip, read, sub.size);
      HasChannelsBefore();
      TruthIsWellFormed();
      WellFormedIsConsistent();
    }

    twostate lemma ReadingOver(n: nat, new m: Message, new read: seq<byte>)
      requires old(AtHeader()) && old(Here(st)).Reading? && HeaderCall(n, m, read) && sub.size == old(sub.size) - n
      requires OnlyTouched(old(parts), HeaderObjects(currentChannel, m)) && currentChannel.Decoded(m, read, sub.size)
      requires m.data != null && currentChannel.Attached(m, old(currentChannel.data), old(currentChannel.stream))
      requires var r := currentChannel.messageReader; r.Tracks(m) && r.step == AtFlags && r.got == [] && r.from == 0
      requires objects == old(objects) + [m] && emitted == old(emitted) + [m] && parts == old(parts) + {m.data}
      requires m.index == |old(objects)|
      requires consumed == old(consumed) + old(reader.Unread())[..n] && st == Truth()
      ensures Valid()
    {
      hide MessageOk, ChannelOk, BufferedReader.Unread, Run, Parse, HeaderSoFar, Complete, WellFormed, Consistent,
        OnlyTouched, HandedOk, MessageReader.InPlace, Fielded, Tells, HeaderObjects, IsCurrent, Overlay, FilesSizeBroken,
        Settled, UsualFeed, ParserChannel.Attached, IsNewData, SizeReader, ParserChannel.Decoded;
      var h := Overlay(BLANK, old(Here(st)).skip, read, sub.size);
      ReadingOverRun(n, m, read);
      HeaderObjectsAre(m);
      HandedOver(|old(objects)|);
      NewMessageOk(m, h);
      LogKeptBut(|old(objects)|, HeaderObjects(currentChannel, m));
      NewChannelAfter(m, h);
      OthersKept(HeaderObjects(currentChannel, m));
    }

    twostate lemma NewMessageOk(new m: Message, new h: Header)
      requires old(Ready()) && old(Here(st)).Reading? && m == old(currentChannel.message)
      requires OnlyTouched(old(parts), HeaderObjects(old(currentChannel), m)) && m.stream == old(m.stream)
      requires m.id == h.id && m.action == h.action && m.filesCount == h.filesCount && m.totalFilesSize == h.totalFilesSize
      requires m.data != null && m.data.owner == m && IsNewData(m) && m.data.size == h.dataSize
      requires objects == old(objects) + [m] && parts == old(parts) + {m.data} && m.index == |old(objects)|
      requires var e := NewEntry(old(st), old(Here(st)).expectsResponse, old(Here(st)).hasStream, h);
               st.log == old(st).log + [e]
      ensures MessageOk(|old(objects)|, true)
    {
      hide MessageReader.InPlace, StandsAt, Fielded, Tells, ReadersOk, Consistent, ChannelOk, HandedOk, MessageStream.Valid,
        MessageData.Valid, MessageOk;
      NewMessageIs(m);
      HeaderObjectsAre(m);
      if m.stream != null { assert unchanged(m.stream); }
      assert OwnsMessage(m, parts);
      assert Carries(m, st.log[|old(objects)|], |old(objects)|, true);
      MessageIsOk(|old(objects)|);
    }

    lemma MessageIsOk(k: nat)
      requires k < |objects| && k < |st.log|
      requires objects[k] in parts && OwnsMessage(objects[k], parts) && Carries(objects[k], st.log[k], k, true)
      ensures MessageOk(k, true)
    {
    }

    twostate lemma NewChannelAfter(new m: Message, new h: Header)
      requires old(Ready()) && old(Here(st)).Reading? && m == old(currentChannel.message)
      requires unchanged(`channels) && unchanged(`currentChannel)
      requires OnlyTouched(old(parts), HeaderObjects(currentChannel, m)) && m.stream == old(m.stream)
      requires m.data != null && parts == old(parts) + {m.data}
      requires objects == old(objects) + [m] && |objects| == |st.log| && MessageOk(|old(objects)|, true)
      requires currentChannel.Attached(m, old(currentChannel.data), old(currentChannel.stream))
      requires var r := currentChannel.messageReader; r.Tracks(m) && r.step == AtFlags && r.got == [] && r.from == 0
      requires st.current == old(st).current < |st.channels| == |old(st).channels|
      requires var e := NewEntry(old(st), old(Here(st)).expectsResponse, old(Here(st)).hasStream, h);
               && st.log == old(st).log + [e]
               && st.channels[st.current] == Settled(|old(st).log|, e, [], UsualFeed(e.header.dataSize))
      ensures ChannelOk(st.current)
    {
      hide MessageReader.InPlace, StandsAt, Fielded, Tells, ReadersOk, Consistent, ChannelOk, HandedOk, MessageStream.Valid,
        MessageData.Valid, OnlyTouched, HeaderObjects, Settled, ParserChannel.Attached, Carries, Matches;
      var e := NewEntry(old(st), old(Here(st)).expectsResponse, old(Here(st)).hasStream, h);
      NewMessageIs(m);
      ChannelAfter(m, |old(objects)|, NoFeed, e);
    }

    twostate lemma RereadOver(n: nat, new m: Message, new read: seq<byte>)
      requires old(AtHeader()) && old(Here(st)).Busy? && HeaderCall(n, m, read) && sub.size == old(sub.size) - n && n > 0
      requires OnlyTouched(old(parts), HeaderObjects(currentChannel, m)) && currentChannel.Decoded(m, read, sub.size)
      requires m.data != null && currentChannel.Attached(m, old(currentChannel.data), old(currentChannel.stream))
      requires DataIsNew(m, OVER) && m.index == old(Here(st)).index
      requires var r := currentChannel.messageReader; r.Tracks(m) && r.step == AtFlags && r.got == [] && r.from == 0
      requires unchanged(`objects) && emitted == old(emitted) + [m] && parts == old(parts) + {m.data}
      requires consumed == old(consumed) + old(reader.Unread())[..n] && st == Truth()
      ensures Valid()
    {
      hide MessageOk, ChannelOk, BufferedReader.Unread, Run, Init, RereadSoFar, Complete, Within, WellFormed, Consistent,
        OnlyTouched, HandedOk, MessageReader.InPlace, StandsAt, Fielded, Tells, HeaderObjects, IsCurrent, Reread, FeedKept,
        MessageReader.Kept, FilesSizeBroken, Settled, ParserChannel.Attached, IsFed;
      var k := old(Here(st)).index;
      HeaderObjectsAre(m);
      CurrentAttached();
      CompleteTells(read, sub.size);
      RereadRun(n, read);
      RunMore(channelsCount, old(consumed), old(reader.Unread())[..n]);
      NowReread(old(st), read, sub.size);
      HasChannelsBefore();
      TruthIsWellFormed();
      WellFormedIsConsistent();
      HandedOver(k);
      RereadMessage(m, read, sub.size, OVER);
      LogKeptBut(k, HeaderObjects(currentChannel, m));
      RereadChannelAfter(m, read, sub.size);
      OthersKept(HeaderObjects(currentChannel, m));
    }

    twostate lemma RereadChannelAfter(new m: Message, new read: seq<byte>, left: nat)
      requires old(Ready()) && old(Attached(st)) && m == old(currentChannel.message)
      requires unchanged(`channels) && unchanged(`currentChannel) && unchanged(`objects)
      requires OnlyTouched(old(parts), HeaderObjects(currentChannel, m)) && m.stream == old(m.stream)
      requires m.data != null && parts == old(parts) + {m.data} && DataIsNew(m, OVER) && Tells(OVER, read, left)
      requires old(Here(st)).index < |st.log| && |objects| == |st.log| && MessageOk(old(Here(st)).index, true)
      requires currentChannel.Attached(m, old(currentChannel.data), old(currentChannel.stream))
      requires var r := currentChannel.messageReader; r.Tracks(m) && r.step == AtFlags && r.got == [] && r.from == 0
      requires st.current == old(st).current < |st.channels| == |old(st).channels|
      requires var k, e := old(Here(st)).index, Reread(Active(old(st)), read, left);
               && st.log[k] == e
               && st.channels[st.current]
                  == Settled(k, e, [], if e.header.dataSize > 0 then Fed
                                       else FeedKept(Active(old(st)), old(Here(st)).feed, read, left))
      ensures ChannelOk(st.current)
    {
      hide MessageReader.InPlace, StandsAt, Fielded, ReadersOk, Consistent, ChannelOk, HandedOk, MessageStream.Valid,
        MessageData.Valid, OnlyTouched, HeaderObjects, Settled, ParserChannel.Attached, Carries, Matches, IsFed, DataIn,
        IdIn, ActionIn, CountIn, SizeIn, Overlay;
      CurrentAttached();
      FeedStays(m, read, left, OVER);
      RereadIs(Active(old(st)), read, left, OVER);
      var before := FeedKept(Active(old(st)), old(Here(st)).feed, read, left);
      ChannelAfter(m, old(Here(st)).index, before, st.log[old(Here(st)).index]);
    }

    // A header that the input, or the reader, stops in.

    /** What the machine makes of all the input, from where the call left off. */
    twostate lemma InputFrom(n: nat)
      requires old(reader.Valid()) && old(Whole()) && n <= |old(reader.Unread())|
      ensures Parse(channelsCount, input)
           == Run(Run(old(Truth()), old(reader.Unread())[..n]), old(reader.Unread())[n..])
    {
      hide BufferedReader.Unread, Run, Init;
      var all := old(reader.Unread());
      RunMore(channelsCount, old(consumed), all);
      assert all == all[..n] + all[n..];
      RunConcat(old(Truth()), all[..n], all[n..]);
    }

    /** The input has ended, or the header has, in a way that stops the reading. */
    twostate predicate HeaderStopped(new n: nat, m: Message, new read: seq<byte>, new e: Error)
      requires old(reader.Valid()) && currentChannel == old(currentChannel)
      reads this`currentChannel, currentChannel, currentChannel.messageReader, currentChannel.messageReader.readers, m, m.data, sub
    {
      if e == EndOfInput then n == |old(reader.Unread())| && n <= old(sub.size) && currentChannel.GoesOn(m, read, old(sub.size) - n)
      else e == Panic && (currentChannel.HasNoData(m, read, sub.size) || currentChannel.IsBroken(m, read, sub.size))
    }

    twostate lemma ReadingStops(n: nat, new m: Message, new read: seq<byte>, new e: Error)
      requires old(AtHeader()) && old(Here(st)).Reading? && HeaderCall(n, m, read)
      requires OnlyTouched(old(parts), HeaderObjects(currentChannel, m)) && HeaderStopped(n, m, read, e)
      requires e == Panic ==> sub.size == old(sub.size) - n
      requires unchanged(`objects) && unchanged(`emitted) && old(parts) <= parts
      requires st == Parse(channelsCount, input)
      ensures Stopped(e)
    {
      hide MessageOk, ChannelOk, BufferedReader.Unread, Run, Init, HeaderSoFar, Complete, Within, WellFormed, Consistent,
        OnlyTouched, HandedOk, MessageReader.InPlace, StandsAt, Fielded, Tells, HeaderObjects, IsCurrent, Overlay, DataIn,
        FilesSizeBroken, Settled, UsualFeed, IsNewStream;
      var Reading(r, s, skip, got) := old(Here(st));
      var left := old(sub.size) - n;
      NewMessageIs(m);
      HeaderObjectsAre(m);
      StopsWithin(n, m, read, e);
      HeaderRun(n, read);
      InputFrom(n);
      if e == EndOfInput {
        RunEmpty(Run(old(Truth()), old(reader.Unread())[..n]));
        assert old(reader.Unread())[n..] == [];
        StillReading(old(st), r, s, skip, read, left);
      } else {
        StopsPanics(m, read, left);
        NowDelivered(old(st), r, s, skip, read, left);
        RunFailed(Run(old(Truth()), old(reader.Unread())[..n]), old(reader.Unread())[n..]);
      }
      HandedStays();
      LogKeptBut(|old(objects)|, HeaderObjects(currentChannel, m));
    }

    twostate lemma StopsWithin(new n: nat, m: Message, new read: seq<byte>, new e: Error)
      requires old(reader.Valid()) && currentChannel == old(currentChannel) && HeaderStopped(n, m, read, e)
      requires e == Panic ==> n <= old(sub.size) == sub.size + n
      ensures Within(read) && n <= old(sub.size) && (e == EndOfInput <==> !Complete(read, old(sub.size) - n))
      ensures e == EndOfInput ==> Tells(currentChannel.messageReader.step.Rank(), read, old(sub.size) - n)
      ensures e == Panic && FilesSizeBroken(read[0]) ==> Tells(6, read, sub.size)
    {
      hide BufferedReader.Unread, StandsAt, Tells, Complete, Within, Fielded, FilesSizeBroken;
      if e == EndOfInput {
        StandsTells(currentChannel.messageReader.step, read, old(sub.size) - n);
      } else {
        assert Complete(read, sub.size) by { StopsComplete(m, read); }
        CompleteTells(read, sub.size);
      }
    }

    twostate lemma StopsComplete(m: Message, new read: seq<byte>)
      requires currentChannel == old(currentChannel)
      requires currentChannel.HasNoData(m, read, sub.size) || currentChannel.IsBroken(m, read, sub.size)
      ensures Complete(read, sub.size)
    {
    }

    twostate lemma StopsPanics(m: Message, new read: seq<byte>, new left: nat)
      requires old(currentChannel) == currentChannel
      requires old(Here(st)).Reading? && Tells(old(currentChannel.messageReader.from), old(Here(st)).skip, 0)
      requires currentChannel.HasNoData(m, read, left) || currentChannel.IsBroken(m, read, left)
      ensures read != [] && (FilesSizeBroken(read[0]) || DataIn(old(Here(st)).skip, 0))
    {
      hide Fielded, DataIn, ActionIn, IdIn, CountIn, SizeIn;
    }

    twostate lemma RereadStops(n: nat, new m: Message, new read: seq<byte>, new e: Error)
      requires old(AtHeader()) && old(Here(st)).Busy? && HeaderCall(n, m, read) && n > 0
      requires OnlyTouched(old(parts), HeaderObjects(currentChannel, m)) && HeaderStopped(n, m, read, e)
      requires unchanged(m`index) && (e == Panic ==> sub.size == old(sub.size) - n)
      requires unchanged(`objects) && unchanged(`emitted) && parts == old(parts) + if m.data != null then {m.data} else {}
      requires st == Parse(channelsCount, input)
      ensures Stopped(e)
    {
      hide MessageOk, ChannelOk, BufferedReader.Unread, Run, Init, RereadSoFar, Complete, Within, WellFormed, Consistent,
        OnlyTouched, HandedOk, MessageReader.InPlace, StandsAt, Fielded, Tells, HeaderObjects, IsCurrent, Reread, FeedKept,
        FilesSizeBroken, Settled, MessageReader.Kept;
      var k, left := old(Here(st)).index, old(sub.size) - n;
      HeaderObjectsAre(m);
      StopsWithin(n, m, read, e);
      RereadRun(n, read);
      InputFrom(n);
      NowReread(old(st), read, left);
      if e == EndOfInput {
        RunEmpty(Run(old(Truth()), old(reader.Unread())[..n]));
        assert old(reader.Unread())[n..] == [];
        RereadProgress(m, read, left);
      } else {
        RereadBreaks(m, read, left);
        RunFailed(Run(old(Truth()), old(reader.Unread())[..n]), old(reader.Unread())[n..]);
        RereadMessage(m, read, left, 6);
      }
      HandedStays();
      LogKeptBut(k, HeaderObjects(currentChannel, m));
    }

    /** A delivered message has its data, so only the files size can stop the reader. */
    twostate lemma RereadBreaks(m: Message, new read: seq<byte>, new left: nat)
      requires old(currentChannel) == currentChannel && old(currentChannel.messageReader.from) == 0
      requires currentChannel.HasNoData(m, read, left) || currentChannel.IsBroken(m, read, left)
      ensures Complete(read, left) && FilesSizeBroken(read[0]) && Tells(6, read, left)
      ensures Fielded(m, old(currentChannel.messageReader.base), 0, 6, read)
    {
      CompleteTells(read, left);
    }

    /** A header that is over, or that the reader stops in, was not so before the call. */
    twostate lemma RereadTakes(n: nat, new m: Message, new read: seq<byte>)
      requires old(AtHeader()) && old(Resumes()) && m == old(currentChannel.message) && n <= |old(reader.Unread())|
      requires read == old(currentChannel.messageReader.got) + old(reader.Unread())[..n]
      requires n <= old(sub.size) && Complete(read, old(sub.size) - n)
      ensures n > 0
    {
      hide BufferedReader.Unread, StandsAt, Complete, Run, Init, Consistent, Tells;
      assert old(currentChannel.messageReader.got) + old(reader.Unread())[..0] == old(currentChannel.messageReader.got);
      HeaderObjectsAre(m);
      StandsTells(old(currentChannel.messageReader.step), old(currentChannel.messageReader.got), old(sub.size));
    }

    /** What reading on in a header comes to, if it goes on. */
    twostate lemma HeaderGoesOn(n: nat, new m: Message, new read: seq<byte>)
      requires old(AtHeader()) && m == old(currentChannel.message) && HeaderCall(n, m, read) && sub.size == old(sub.size) - n
      requires OnlyTouched(old(parts), HeaderObjects(currentChannel, m)) && unchanged(m`index)
      requires currentChannel.messageReader.InPlace() && currentChannel.GoesOn(m, read, sub.size)
      requires DataIsNew(m, currentChannel.messageReader.step.Rank())
      requires old(sub.size) > 0 && old(reader.available) > 0 ==> n > 0
      requires unchanged(`objects) && unchanged(`emitted) && parts == old(parts) + if m.data != null then {m.data} else {}
      requires consumed == old(consumed) + old(reader.Unread())[..n] && st == Truth()
      ensures Valid()
    {
      hide BufferedReader.Unread, AtHeader, Run, OnlyTouched, HeaderObjects, HeaderCall, Valid, MessageReader.InPlace,
        ParserChannel.GoesOn, DataIsNew;
      HeaderIs(m);
      if old(Here(st)).Reading? {
        ReadingGoesOn(n, m, read);
      } else {
        RereadGoesOn(n, m, read);
      }
    }

    /** A packet that was entered before goes on, with something of it in the window. */
    ghost predicate Resumes()
      reads this`st, sub, reader
    {
      sub.size > 0 && reader.available > 0 && st.mode == InPayload(HeaderPart, sub.size)
    }

    twostate lemma HeaderIs(m: Message)
      requires old(AtHeader()) && m == old(currentChannel.message)
      ensures old(reader.Valid())
      ensures if old(Here(st)).Reading? then true
              else old(Here(st)).Busy? && old(m.index) == old(Here(st)).index && old(Resumes())
    {
      hide MessageReader.InPlace, StandsAt, Fielded, Tells, Consistent, MessageData.Valid, MessageStream.Valid, HeaderSoFar,
        Run, Init, BufferedReader.Unread;
      HeaderObjectsAre(m);
    }

    /** What it comes to if it is over; place is the message's place among those delivered. */
    twostate lemma HeaderOver(n: nat, new m: Message, new read: seq<byte>)
      requires old(AtHeader()) && m == old(currentChannel.message) && HeaderCall(n, m, read) && sub.size == old(sub.size) - n
      requires OnlyTouched(old(parts), HeaderObjects(currentChannel, m)) && currentChannel.Decoded(m, read, sub.size)
      requires m.data != null && currentChannel.Attached(m, old(currentChannel.data), old(currentChannel.stream))
      requires DataIsNew(m, OVER)
      requires m.index == if old(Here(st)).Busy? then old(Here(st)).index else |old(objects)|
      requires var r := currentChannel.messageReader; r.Tracks(m) && r.step == AtFlags && r.got == [] && r.from == 0
      requires objects == old(objects) + (if old(Here(st)).Busy? then [] else [m])
      requires emitted == old(emitted) + [m] && parts == old(parts) + {m.data}
      requires consumed == old(consumed) + old(reader.Unread())[..n] && st == Truth()
      ensures Valid()
    {
      hide BufferedReader.Unread, AtHeader, Run, OnlyTouched, HeaderObjects, HeaderCall, Valid, Complete, FilesSizeBroken,
        ParserChannel.Attached, MessageReader.InPlace, Fielded, DataIsNew;
      HeaderIs(m);
      if old(Here(st)).Reading? {
        ReadingOver(n, m, read);
      } else {
        CallIs(n, m, read);
        RereadTakes(n, m, read);
        assert objects == old(objects);
        RereadOver(n, m, read);
      }
    }

    twostate lemma HeaderTakes(n: nat, new m: Message, new read: seq<byte>)
      requires old(AtHeader()) && m == old(currentChannel.message) && HeaderCall(n, m, read)
      requires currentChannel.Decoded(m, read, old(sub.size) - n)
      ensures old(Resumes()) ==> n > 0
    {
      hide BufferedReader.Unread, AtHeader, Run, Complete, FilesSizeBroken, Fielded;
      if old(Resumes()) { RereadTakes(n, m, read); }
    }

    twostate lemma CallIs(new n: nat, m: Message, new read: seq<byte>)
      requires old(reader.Valid()) && HeaderCall(n, m, read)
      ensures m == old(currentChannel.message) && n <= |old(reader.Unread())| && n <= old(sub.size)
      ensures reader.Valid() && |reader.Unread()| == |old(reader.Unread())| - n && currentChannel == old(currentChannel)
      ensures read == old(currentChannel.messageReader.got) + old(reader.Unread())[..n]
      ensures m.data == old(m.data) || fresh(m.data)
    {
      hide BufferedReader.Unread;
    }

    /** What it comes to if it stops there. */
    twostate lemma HeaderStops(n: nat, new m: Message, new read: seq<byte>, new e: Error)
      requires old(AtHeader()) && m == old(currentChannel.message) && HeaderCall(n, m, read) && unchanged(m`index)
      requires OnlyTouched(old(parts), HeaderObjects(currentChannel, m)) && HeaderStopped(n, m, read, e)
      requires e == Panic ==> sub.size == old(sub.size) - n
      requires unchanged(`objects) && unchanged(`emitted) && parts == old(parts) + if m.data != null then {m.data} else {}
      requires st == Parse(channelsCount, input)
      ensures Stopped(e)
    {
      hide BufferedReader.Unread, AtHeader, Run, OnlyTouched, HeaderObjects, HeaderCall, Stopped, HeaderStopped;
      HeaderIs(m);
      if old(Here(st)).Reading? {
        ReadingStops(n, m, read, e);
      } else {
        CallIs(n, m, read);
        if e != EndOfInput { StoppedIsComplete(n, m, read, e); RereadTakes(n, m, read); }
        assert e == EndOfInput ==> n > 0 by { StoppedAtEnd(n, m, read, e); }
        RereadStops(n, m, read, e);
      }
    }

    twostate lemma StoppedIsComplete(new n: nat, m: Message, new read: seq<byte>, new e: Error)
      requires old(reader.Valid()) && currentChannel == old(currentChannel) && HeaderStopped(n, m, read, e) && e != EndOfInput
      ensures e == Panic && Complete(read, sub.size)
    {
      hide BufferedReader.Unread;
    }

    twostate lemma StoppedAtEnd(new n: nat, m: Message, new read: seq<byte>, new e: Error)
      requires old(reader.Valid()) && currentChannel == old(currentChannel) && HeaderStopped(n, m, read, e)
      requires old(Resumes())
      ensures e == EndOfInput ==> n > 0
    {
    }

    twostate lemma HeaderOnly(new m: Message)
      requires unchanged(`currentChannel)
      requires var r := currentChannel.messageReader;
               forall o: object :: o in old(parts) && o != currentChannel && o != r && o != m && o !in r.readers ==> unchanged(o)
      ensures OnlyTouched(old(parts), HeaderObjects(currentChannel, m))
    {
    }

    /** The call itself: what is taken, what is touched, and what comes of it. */
    method TakeHeader(ghost place: nat) returns (m: Message?, error: Option<Error>, ghost n: nat, ghost read: seq<byte>)
      requires AtHeader() && currentChannel.message != null
      modifies parts, Readers()
      ensures HeaderCall(n, old(currentChannel.message), read)
      ensures OnlyTouched(old(parts), HeaderObjects(currentChannel, old(currentChannel.message)))
      ensures error.None? || error == Some(Panic) ==> sub.size == old(sub.size) - n
      ensures old(currentChannel.message).index == if m == null then old(currentChannel.message.index) else place
      ensures error.Some? ==> m == null && HeaderStopped(n, old(currentChannel.message), read, error.value)
      ensures error.None? && m == null ==>
                && currentChannel.messageReader.InPlace()
                && currentChannel.GoesOn(old(currentChannel.message), read, sub.size)
                && DataIsNew(old(currentChannel.message), currentChannel.messageReader.step.Rank())
                && (old(sub.size) > 0 && old(reader.available) > 0 ==> n > 0)
      ensures m != null ==>
                && m == old(currentChannel.message) && currentChannel.Decoded(m, read, sub.size) && DataIsNew(m, OVER)
                && m.data != null && currentChannel.Attached(m, old(currentChannel.data), old(currentChannel.stream))
                && var r := currentChannel.messageReader;
                   r.Tracks(m) && r.step == AtFlags && r.got == [] && r.from == 0
    {
      hide AtHeader, OnlyTouched, HeaderObjects, BufferedReader.Unread, MessageReader.Goes, MessageReader.Tracks,
        ParserChannel.Attached, ParserChannel.Decoded, MessageReader.Kept, MessageReader.InPlace, StandsAt, EndsBroken;
      CanProcess();
      ghost var was := currentChannel.message;
      m, error, n, read := currentChannel.ProcessMessage(sub, place);
      HeaderOnly(was);
    }

    /** Keeps the books after a piece of a header, or when the reading stops in it. */
    ghost method Book(piece: seq<byte>, data: MessageData?, messages: seq<Message>, handed: seq<Message>, stops: bool)
      modifies this`st, this`consumed, this`parts, this`objects, this`emitted
      ensures consumed == old(consumed) + piece && parts == old(parts) + if data != null then {data} else {}
      ensures objects == old(objects) + messages && emitted == old(emitted) + handed
      ensures st == if stops then Parse(channelsCount, input) else Truth()
    {
      consumed, parts := consumed + piece, parts + if data != null then {data} else {};
      objects, emitted := objects + messages, emitted + handed;
      st := if stops then Parse(channelsCount, input) else Truth();
    }

    /** Reads on in the header of the current channel's message, whether that has been delivered or not. */
    method ProcessHeader() returns (m: Message?, error: Option<Error>)
      requires AtHeader() && currentChannel.message != null
      modifies this, parts, Readers()
      ensures Result(old(emitted), m, error) && fresh(parts - old(parts))
      ensures error.None? ==> |reader.Unread()| <= |old(reader.Unread())|
      ensures error.None? && old(Resumes()) ==> |reader.Unread()| < |old(reader.Unread())|
    {
      hide AtHeader, Valid, Stopped, OnlyTouched, HeaderObjects, HeaderCall, HeaderStopped, DataIsNew, Run, Parse, Here,
        BufferedReader.Unread, MessageReader.Tracks, MessageReader.InPlace, ParserChannel.GoesOn, ParserChannel.Attached,
        ParserChannel.Decoded, MessageData.Valid, ReadersOk;
      CanProcess();
      ghost var was, all, busy, n, read := currentChannel.message, reader.Unread(), Here(st).Busy?, 0, [];
      m, error, n, read := TakeHeader(if busy then Here(st).index else |objects|);
      CallIs(n, was, read);
      assert emitted + [] == emitted && objects + [] == objects;
      Book(all[..n], was.data, if busy || m == null then [] else [m], if m == null then [] else [m], error.Some?);
      if error.Some? {
        HeaderStops(n, was, read, error.value);
      } else if m == null {
        HeaderGoesOn(n, was, read);
      } else {
        HeaderOver(n, m, read);
        HeaderTakes(n, m, read);
      }
    }

    method ContinueHeader() returns (m: Message?, error: Option<Error>)
      requires AtHeader()
      modifies this, parts, Readers()
      ensures Result(old(emitted), m, error) && fresh(parts - old(parts))
      ensures error.None? ==> |reader.Unread()| <= |old(reader.Unread())|
      ensures error.None? && old(Resumes()) ==> |reader.Unread()| < |old(reader.Unread())|
    {
      hide AtHeader, Ready, Valid, Stopped, OnlyTouched, Parse, BufferedReader.Unread, HeaderObjects, MessageReader.Goes,
        MessageReader.Tracks;
      CanProcess();
      if currentChannel.message != null {
        m, error := ProcessHeader();
      } else {
        st := Parse(channelsCount, input);
        UntouchedIsOnly();
        HeaderRefused();
        return null, Some(NotProcessing);
      }
    }

    twostate lemma UntouchedIsOnly()
      requires forall o: object :: o in old(parts) ==> unchanged(o)
      ensures OnlyTouched(old(parts), {})
    {
    }

    twostate lemma HeaderRefused()
      requires old(AtHeader()) && old(Here(st)).Idle? && OnlyTouched(old(parts), {})
      requires unchanged(`objects) && unchanged(`emitted) && unchanged(`parts) && st == Parse(channelsCount, input)
      ensures Stopped(NotProcessing)
    {
      hide LogOk, Parse, OnlyTouched, ChannelsOk, ReadersOk, Consistent;
      LogKept();
    }

    // Packets.

    /** Only the mode may have changed. */
    twostate lemma StillReady()
      requires old(Ready()) && ReadersOk() && OnlyTouched(old(parts), {})
      requires unchanged(`channels) && unchanged(`currentChannel) && unchanged(`objects) && unchanged(`emitted)
      requires unchanged(`parts) && st.(mode := old(st).mode) == old(st)
      requires HeaderLeft(st, st.current) == HeaderLeft(old(st), st.current)
      ensures Ready()
    {
      hide ChannelOk, Matches, Carries, LogOk;
      LogKept();
      forall id | id in channels ensures ChannelOk(id) {
        assert old(ChannelOk(id));
        ChannelKept(id, {});
      }
    }

    /** The size of the packet, its field's width being in the signature. */
    method GetPacketSize(signature: byte) returns (size: nat, error: Option<Error>)
      requires ReadersOk()
      modifies Readers()
      ensures var all, w := old(reader.Unread()), SizeFieldWidth(signature);
              && error == (if |all| < w then Some(EndOfInput) else if signature / 4 % 4 == 3 then Some(Panic) else None)
              && (error.None? ==> ReadersOk() && size == Value(all[..w]) && reader.Unread() == all[w..])
      ensures sub.size == old(sub.size) && reader.buffer == old(reader.buffer)
    {
      hide BufferedReader.Unread, Value, ReadUint16, ReadUint24;
      size, error := 0, None;
      if signature / 4 % 4 == 0 {
        ghost var all := reader.Unread();
        size, error := reader.ReadByte();
        if error.None? { FieldValue(all[..1]); }
        return;
      }
      var field;
      if signature / 4 % 4 == 1 {
        field := packetsSize16.GetWhole(reader);
      } else if signature / 4 % 4 == 2 {
        field := packetsSize24.GetWhole(reader);
      } else {
        field := packetsSize32.GetWhole(reader);
      }
      if field.Broken? {
        return 0, Some(field.error);
      } else if signature / 4 % 4 == 3 {
        return 0, Some(Panic);
      }
      FieldValue(field.value);
      size := if signature / 4 % 4 == 1 then ReadUint16(field.value, 0) else ReadUint24(field.value, 0);
    }

    static lemma FieldValue(field: seq<byte>)
      requires 1 <= |field| <= 3
      ensures Value(field) == if |field| == 1 then field[0] else if |field| == 2 then ReadUint16(field, 0) else ReadUint24(field, 0)
    {
      ReadersAgree(field, 0);
      assert field[0..|field|] == field;
    }

    /** Reads the size and says what the machine makes of signature and size. */
    method TakeSize(signature: byte) returns (size: nat, error: Option<Error>)
      requires Entered(Step(st, signature)) && HasSize(signature)
      modifies this`consumed, this`st, Readers()
      ensures sub.size == 0 && reader.buffer == old(reader.buffer)
      ensures error.None? ==> Entered(Begin(st, signature, size)) && st == old(st) && |reader.Unread()| < |old(reader.Unread())|
      ensures error.Some? ==> Stopped(error.value)
    {
      hide BufferedReader.Unread, Entered, Ready, Stopped, Begin, Step, OnlyTouched, Value;
      EnteredReaders(Step(st, signature));
      ghost var all := reader.Unread();
      size, error := GetPacketSize(signature);
      UntouchedIsOnly();
      if error.Some? {
        st := Parse(channelsCount, input);
        SizeStops(signature, error.value);
      } else {
        consumed := consumed + all[..SizeFieldWidth(signature)];
        SizeTaken(signature);
      }
    }

    lemma EnteredReaders(next: State)
      requires Entered(next)
      ensures Ready() && ReadersOk() && Whole() && this !in parts && sub.size == 0
    {
    }

    twostate lemma SizeTaken(signature: byte)
      requires old(Entered(Step(st, signature))) && HasSize(signature) && ReadersOk() && OnlyTouched(old(parts), {})
      requires unchanged(`channels) && unchanged(`currentChannel) && unchanged(`objects) && unchanged(`emitted) && unchanged(`parts)
      requires unchanged(`st)
      requires sub.size == old(sub.size) && SizeFieldWidth(signature) <= |old(reader.Unread())|
      requires consumed == old(consumed) + old(reader.Unread())[..SizeFieldWidth(signature)]
      requires reader.Unread() == old(reader.Unread())[SizeFieldWidth(signature)..] && signature / 4 % 4 != 3
      ensures Entered(Begin(st, signature, Value(old(reader.Unread())[..SizeFieldWidth(signature)])))
      ensures |reader.Unread()| < |old(reader.Unread())|
    {
      hide BufferedReader.Unread, Begin, Step, Run, ChannelsOk, LogOk, Consistent, Init, OnlyTouched, Value;
      SizeRun(old(st), signature, old(reader.Unread()));
      RunMore(channelsCount, old(consumed), old(reader.Unread())[..SizeFieldWidth(signature)]);
      StillReady();
    }

    twostate lemma SizeStops(signature: byte, new e: Error)
      requires old(Entered(Step(st, signature))) && HasSize(signature) && OnlyTouched(old(parts), {})
      requires unchanged(`objects) && unchanged(`emitted) && unchanged(`parts) && st == Parse(channelsCount, input)
      requires if |old(reader.Unread())| < SizeFieldWidth(signature) then e == EndOfInput else e == Panic && signature / 4 % 4 == 3
      ensures Stopped(e)
    {
      hide BufferedReader.Unread, Begin, Step, Run, ChannelsOk, LogOk, Consistent, Init, OnlyTouched, Value;
      SizeRun(old(st), signature, old(reader.Unread()));
      RunMore(channelsCount, old(consumed), old(reader.Unread()));
      LogKept();
    }

    /** The machine's side of it. */
    static lemma HasWidth(signature: byte)
      ensures SizeFieldWidth(signature) >= 1
    {
    }

    static lemma SizeRun(st: State, signature: byte, all: seq<byte>)
      requires st.mode.AtSignature? && HasSize(signature)
      ensures var w := SizeFieldWidth(signature);
              w >= 1 &&
              if |all| < w then !Run(Step(st, signature), all).mode.Failed? && Run(Step(st, signature), all).log == st.log
                && Run(Step(st, signature), all).handed == st.handed
              else if signature / 4 % 4 == 3 then Run(Step(st, signature), all) == Fail(st, Panic)
              else Run(Step(st, signature), all[..w]) == Begin(st, signature, Value(all[..w]))
    {
      hide Begin, Step, Run, SizeFieldWidth, Value;
      var w := SizeFieldWidth(signature);
      assert w >= 1 by { HasWidth(signature); }
      if |all| < w {
        SizeFieldShort(st, signature, all);
      } else {
        SizeField(st, signature, all[..w]);
        RunConcat(Step(st, signature), all[..w], all[w..]);
        assert all[..w] + all[w..] == all;
        if signature / 4 % 4 == 3 { RunFailed(Fail(st, Panic), all[w..]); }
      }
    }

    /** A Data or Stream packet begins. */
    twostate lemma PartEntered(signature: byte, new size: nat, new part: Part)
      requires old(Entered(Begin(st, signature, size))) && ReadersOk() && Whole() && OnlyTouched(old(parts), {})
      requires unchanged(`channels) && unchanged(`currentChannel) && unchanged(`objects) && unchanged(`emitted) && unchanged(`parts)
      requires unchanged(`consumed)
      requires subMode == part && sub.size == size
      requires signature / 16 == (if part == DataPart then C.DATA else C.STREAM) && part != HeaderPart
      requires st == if Expects(old(st), part) then old(st).(mode := Rest(part, size)) else old(st)
      ensures Entering(part, Expects(st, part), Refusal(part))
    {
      hide BufferedReader.Unread, Run, ChannelsOk, LogOk, Init, OnlyTouched;
      StillReady();
      HasChannelsBefore();
      TruthIsWellFormed();
      if !Expects(old(st), part) { Stops(consumed, reader.Unread()); }
    }

    static function Expects(st: State, part: Part): bool {
      match part case HeaderPart => !Here(st).Idle? case DataPart => ExpectsData(st) case StreamPart => ExpectsStream(st)
    }

    static function Refusal(part: Part): Error {
      match part case HeaderPart => NotProcessing case DataPart => UnexpectedData case StreamPart => UnexpectedStream
    }

    method BeginData(signature: byte) returns (error: Option<Error>)
      requires Entered(Step(st, signature)) && signature / 16 == C.DATA
      modifies this, parts, Readers()
      ensures Result(old(emitted), null, error) && fresh(parts - old(parts))
      ensures error.None? ==> |reader.Unread()| < |old(reader.Unread())|
    {
      hide BufferedReader.Unread, Ready, Stopped, Begin, Step, OnlyTouched, Valid, Entering;
      var size;
      EnteredReaders(Step(st, signature));
      size, error := TakeSize(signature);
      if error.None? {
        label L:
        EnteredReaders(Begin(st, signature, size));
        subMode, sub.size := DataPart, size;
        st := if ExpectsData(st) then st.(mode := Rest(DataPart, size)) else st;
        UntouchedIsOnly@L();
        PartEntered@L(signature, size, DataPart);
        error := PassData();
      }
    }

    method BeginStream(signature: byte) returns (error: Option<Error>)
      requires Entered(Step(st, signature)) && signature / 16 == C.STREAM
      modifies this, parts, Readers()
      ensures Result(old(emitted), null, error) && fresh(parts - old(parts))
      ensures error.None? ==> |reader.Unread()| < |old(reader.Unread())|
    {
      hide BufferedReader.Unread, Ready, Stopped, Begin, Step, OnlyTouched, Valid, Entering;
      var size;
      EnteredReaders(Step(st, signature));
      size, error := TakeSize(signature);
      if error.None? {
        label L:
        EnteredReaders(Begin(st, signature, size));
        subMode, sub.size := StreamPart, size;
        st := if ExpectsStream(st) then st.(mode := Rest(StreamPart, size)) else st;
        UntouchedIsOnly@L();
        PartEntered@L(signature, size, StreamPart);
        error := PassStream();
      }
    }

    /** The current channel is free when the machine says it is. */
    lemma FreeIsIdle()
      requires Ready()
      ensures (currentChannel.message == null) == Here(st).Idle? && currentChannel in parts
      ensures currentChannel.messageReader in parts
      ensures Here(st).Idle? ==> currentChannel.IsIdle() && currentChannel.messageReader.InPlace()
                                 && currentChannel.messageReader.Stands(0)
    {
      hide MessageReader.InPlace, StandsAt, ReadersOk, Consistent, LogOk, Fielded, Tells;
      assert ChannelOk(st.current);
    }

    /** A message has been started on the current channel, behind what its reader has. */
    twostate lemma MessageEntered(signature: byte, new size: nat, new m: Message)
      requires old(Entered(Begin(st, signature, size))) && signature / 16 == C.MESSAGE && old(Here(st)).Idle?
      requires ReadersOk() && Whole() && OnlyTouched(old(parts), {currentChannel, currentChannel.messageReader})
      requires unchanged(`channels) && unchanged(`currentChannel) && unchanged(`objects) && unchanged(`emitted)
      requires unchanged(`consumed) && unchanged(currentChannel.messageReader`got, currentChannel.messageReader`step)
      requires unchanged(currentChannel.messageReader`flags)
      requires currentChannel.message == m && currentChannel.IsReading() && currentChannel.messageReader.base == BLANK_FIELDS
      requires currentChannel.messageReader.from == currentChannel.messageReader.step.Rank()
      requires m.expectsResponse == (signature % 2 == 1) && (m.stream != null) == (signature / 2 % 2 == 1)
      requires m.index == -1 - currentChannel.id && m.data == null && (m.stream != null ==> IsNewStream(m))
      requires parts == old(parts) + {m} + (if m.stream != null then {m.stream} else {})
      requires subMode == HeaderPart && sub.size == size
      requires var residue := old(Here(st)).residue;
               st == Put(old(st), Reading(m.expectsResponse, m.stream != null, residue, residue))
      ensures AtHeader()
    {
      hide BufferedReader.Unread, Run, Init, OnlyTouched, MessageReader.InPlace, ChannelOk, MessageOk, Matches, StandsAt,
        HeaderSoFar, Consistent, HandedOk, Fielded;
      var c, residue := currentChannel, old(Here(st)).residue;
      var r, s := m.expectsResponse, m.stream != null;
      NewMessageKeeps(residue);
      Overwrite(old(st), r, s, residue, residue, residue, old(st).mode, size);
      PutKeeps(old(st), Reading(r, s, residue, residue));
      HandedStays();
      LogKeptBut(|old(objects)|, {c, c.messageReader});
      MessageChannel(m);
      OthersKept({c, c.messageReader});
    }

    twostate lemma NewMessageKeeps(new residue: seq<byte>)
      requires old(Ready()) && old(Here(st)) == Idle(residue)
      ensures Within(residue)
    {
      assert ChannelConsistent(old(st).channels, old(st).log, old(st).current);
    }

    twostate lemma MessageChannel(new m: Message)
      requires old(Ready()) && OnlyTouched(old(parts), {currentChannel, currentChannel.messageReader}) && old(Here(st)).Idle?
      requires unchanged(`channels) && unchanged(`currentChannel) && unchanged(`objects)
      requires unchanged(currentChannel.messageReader`got, currentChannel.messageReader`step)
      requires currentChannel.message == m && currentChannel.IsReading() && currentChannel.messageReader.base == BLANK_FIELDS
      requires currentChannel.messageReader.from == currentChannel.messageReader.step.Rank()
      requires m.index == -1 - currentChannel.id && m.data == null && (m.stream != null ==> IsNewStream(m))
      requires parts == old(parts) + {m} + (if m.stream != null then {m.stream} else {})
      requires st.current == old(st).current < |st.channels| && HeaderLeft(st, st.current) == 0
      requires var residue := old(Here(st)).residue;
               st.channels[st.current] == Reading(m.expectsResponse, m.stream != null, residue, residue)
      ensures ChannelOk(st.current)
    {
      hide MessageReader.InPlace, StandsAt, Tells, Fielded, Consistent, LogOk, ReadersOk, IsNewStream;
      var reader := currentChannel.messageReader;
      assert old(ChannelOk(st.current));
      assert reader.Stands(0);
      StandsTells(reader.step, reader.got, 0);
    }

    twostate lemma MessageRefused(signature: byte, new size: nat)
      requires old(Entered(Begin(st, signature, size))) && signature / 16 == C.MESSAGE && !old(Here(st)).Idle?
      requires OnlyTouched(old(parts), {}) && unchanged(`objects) && unchanged(`emitted) && unchanged(`parts)
      requires st == Parse(channelsCount, input)
      ensures Stopped(AlreadyProcessing)
    {
      hide BufferedReader.Unread, Run, LogOk, Init, OnlyTouched, Parse, ChannelsOk, Consistent;
      Stops(old(consumed), old(reader.Unread()));
      LogKept();
    }

    twostate lemma ChannelOnly()
      requires unchanged(`currentChannel)
      requires forall o: object :: o in old(parts) && o != currentChannel && o != currentChannel.messageReader ==> unchanged(o)
      ensures OnlyTouched(old(parts), {currentChannel, currentChannel.messageReader})
    {
    }

    method StartMessage(signature: byte, size: nat) returns (error: Option<Error>)
      requires Entered(Begin(st, signature, size)) && signature / 16 == C.MESSAGE
      modifies this`st, this`subMode, this`parts, parts, sub
      ensures emitted == old(emitted) && fresh(parts - old(parts))
      ensures error.Some? ==> Stopped(error.value)
      ensures error.None? ==> AtHeader()
    {
      hide BufferedReader.Unread, Ready, Stopped, Begin, OnlyTouched, Entered, Whole, Truth, AtHeader, StandsAt,
        MessageReader.InPlace, Parse, MessageStream.Valid, ParserChannel.IsIdle, SizeReader, Put, Fielded;
      EnteredReaders(Begin(st, signature, size));
      FreeIsIdle();
      ghost var here := Here(st);
      error := currentChannel.InitMessage(signature % 2 == 1, signature / 2 % 2 == 1);
      if error.Some? {
        st := Parse(channelsCount, input);
        UntouchedIsOnly();
        MessageRefused(signature, size);
        return;
      }
      subMode, sub.size := HeaderPart, size;
      BookMessage(currentChannel.message, here);
      ChannelOnly();
      MessageEntered(signature, size, currentChannel.message);
    }

    /** Keeps the books when a message is started. */
    ghost method BookMessage(m: Message, here: Channel)
      requires here.Idle?
      modifies this`st, this`parts
      ensures parts == old(parts) + {m} + if m.stream != null then {m.stream} else {}
      ensures st == Put(old(st), Reading(m.expectsResponse, m.stream != null, here.residue, here.residue))
    {
      parts := parts + {m} + if m.stream != null then {m.stream} else {};
      st := Put(st, Reading(m.expectsResponse, m.stream != null, here.residue, here.residue));
    }

    method BeginMessage(signature: byte) returns (m: Message?, error: Option<Error>)
      requires Entered(Step(st, signature)) && signature / 16 == C.MESSAGE
      modifies this, parts, Readers()
      ensures Result(old(emitted), m, error) && fresh(parts - old(parts))
      ensures error.None? ==> |reader.Unread()| < |old(reader.Unread())|
    {
      hide BufferedReader.Unread, Ready, Stopped, Begin, Step, Valid, Entering;
      var size;
      EnteredReaders(Step(st, signature));
      m := null;
      size, error := TakeSize(signature);
      if error.None? {
        EnteredReaders(Begin(st, signature, size));
        error := StartMessage(signature, size);
        if error.None? {
          m, error := ContinueHeader();
        }
      }
    }

    /** Another channel, made on its first use, becomes the current one. */
    method SwitchTo(id: nat) returns (error: Option<Error>)
      requires Entered(Switch(st, id))
      modifies this`channels, this`currentChannel, this`st, this`parts
      ensures emitted == old(emitted) && fresh(parts - old(parts)) && sub.size == 0
      ensures error.None? ==> Valid()
      ensures error.Some? ==> Stopped(error.value)
    {
      hide BufferedReader.Unread, Ready, Stopped, OnlyTouched, Entered, Whole, Truth, Valid,
        MessageReader.InPlace, StandsAt, Parse, ParserChannel.IsIdle, SizeReader, ParserChannel.Objects, Switch;
      EnteredReaders(Switch(st, id));
      ChannelsAre();
      if id >= channelsCount {
        st := Parse(channelsCount, input);
        UntouchedIsOnly();
        SwitchRefused(id);
        return Some(ChannelOutOfRange);
      }
      if id !in channels {
        var channel := new ParserChannel(id);
        channels := channels[id := channel];
        parts := parts + channel.Objects();
      }
      currentChannel := channels[id];
      st := Truth();
      UntouchedIsOnly();
      Switched(id);
      error := None;
    }

    lemma ChannelsAre()
      requires Ready()
      ensures |st.channels| == channelsCount && forall id :: id in channels ==> id < channelsCount && channels[id] in parts
    {
      hide Matches, LogOk, Consistent;
      forall id | id in channels ensures channels[id] in parts { assert ChannelOk(id); OwnsItself(channels[id]); }
    }

    twostate lemma SwitchRefused(id: nat)
      requires old(Entered(Switch(st, id))) && id >= channelsCount
      requires OnlyTouched(old(parts), {}) && unchanged(`objects) && unchanged(`emitted) && unchanged(`parts)
      requires st == Parse(channelsCount, input)
      ensures Stopped(ChannelOutOfRange)
    {
      hide BufferedReader.Unread, Run, LogOk, Init, OnlyTouched, Parse, ChannelOk;
      Stops(old(consumed), old(reader.Unread()));
      LogKept();
    }

    twostate lemma Switched(id: nat)
      requires old(Entered(Switch(st, id))) && id < channelsCount && ReadersOk() && Whole()
      requires OnlyTouched(old(parts), {}) && unchanged(`objects) && unchanged(`emitted) && unchanged(`consumed)
      requires unchanged(`subMode)
      requires unchanged(sub)
      requires id in channels && currentChannel == channels[id] && st == old(Truth()) && old(parts) <= parts
      requires if id in old(channels) then unchanged(`channels) && unchanged(`parts)
               else
                 && channels == old(channels)[id := currentChannel]
                 && currentChannel.id == id && currentChannel.messageReader.owner == id
                 && currentChannel.IsIdle() && currentChannel.messageReader.InPlace()
                 && currentChannel.messageReader.step == AtFlags && OwnsChannel(currentChannel, parts)
      ensures Valid()
    {
      hide BufferedReader.Unread, Run, LogOk, Init, OnlyTouched, ChannelOk, OwnsChannel;
      HasChannelsBefore();
      TruthIsWellFormed();
      LogKept();
      forall i | i in channels ensures ChannelOk(i) {
        if i in old(channels) {
          assert old(ChannelOk(i));
          ChannelKept(i, {});
        } else {
          NewChannel(i);
        }
      }
    }

    lemma NewChannel(id: nat)
      requires id in channels && id < |st.channels| && st.channels[id] == Idle([])
      requires var c := channels[id];
               && c.id == id && c.messageReader.owner == id && c.IsIdle() && OwnsChannel(c, parts)
               && c.messageReader.InPlace() && c.messageReader.step == AtFlags
      ensures ChannelOk(id)
    {
    }

    /** The next byte, outside payloads. next is what the machine makes of those before it. */
    method TakeByte(ghost next: State) returns (b: byte, error: Option<Error>)
      requires Entered(next) && !next.mode.Failed? && next.log == st.log && next.handed == st.handed
      modifies this`consumed, this`st, Readers()
      ensures sub.size == 0 && reader.buffer == old(reader.buffer)
      ensures error.None? ==> Entered(Step(next, b)) && st == old(st) && |reader.Unread()| < |old(reader.Unread())|
      ensures error.None? ==>
                old(reader.Valid()) && reader.Valid() && old(reader.Unread()) != [] && b == old(reader.Unread())[0]
                && reader.Unread() == old(reader.Unread())[1..]
      ensures error.Some? ==> error == Some(EndOfInput) && Stopped(EndOfInput)
    {
      hide BufferedReader.Unread, Entered, Ready, Stopped, OnlyTouched, Step;
      EnteredReaders(next);
      b, error := reader.ReadByte();
      UntouchedIsOnly();
      if error.Some? {
        st := Parse(channelsCount, input);
        InputEnds(next);
      } else {
        consumed := consumed + [b];
        ByteTaken(next, b);
      }
    }

    twostate lemma InputEnds(new next: State)
      requires old(Entered(next)) && !next.mode.Failed? && next.log == old(st).log && next.handed == old(st).handed
      requires old(reader.Unread()) == []
      requires OnlyTouched(old(parts), {}) && unchanged(`objects) && unchanged(`emitted) && unchanged(`parts)
      requires st == Parse(channelsCount, input)
      ensures Stopped(EndOfInput)
    {
      hide BufferedReader.Unread, Run, LogOk, Init, OnlyTouched, ChannelOk;
      assert old(consumed) + [] == old(consumed);
      LogKept();
    }

    twostate lemma ByteTaken(new next: State, b: byte)
      requires old(Entered(next)) && old(reader.Unread()) != [] && b == old(reader.Unread())[0]
      requires ReadersOk() && reader.Unread() == old(reader.Unread())[1..] && consumed == old(consumed) + [b]
      requires OnlyTouched(old(parts), {}) && unchanged(`channels) && unchanged(`currentChannel)
      requires unchanged(`objects) && unchanged(`emitted) && unchanged(`parts)
      requires unchanged(`st) && sub.size == old(sub.size)
      ensures Entered(Step(next, b)) && |reader.Unread()| < |old(reader.Unread())|
    {
      hide BufferedReader.Unread, Run, ChannelsOk, LogOk, Consistent, Init, OnlyTouched, Step;
      RunMore(channelsCount, old(consumed), [b]);
      RunOne(next, b);
      StillReady();
    }

    lemma EnteredIsValid()
      requires Entered(st)
      ensures Valid()
    {
      hide ChannelOk, LogOk, Run, Init, BufferedReader.Unread;
      InitWellFormed(channelsCount);
      RunKeeps(Init(channelsCount), consumed);
    }

    lemma ValidIsEntered()
      requires Valid() && sub.size == 0
      ensures Entered(st) && !st.mode.Failed?
    {
    }

    /** A packet that stops the reading. */
    method Refuse(e: Error) returns (error: Option<Error>)
      requires Entered(Fail(st, e)) && e != EndOfInput
      modifies this`st
      ensures error == Some(e) && Stopped(e)
    {
      hide BufferedReader.Unread, ChannelOk, Run, Init, Parse;
      Stops(consumed, reader.Unread());
      EnteredReaders(Fail(st, e));
      st := Parse(channelsCount, input);
      UntouchedIsOnly();
      LogKept();
      error := Some(e);
    }

    /** The low half of a wide channel number follows its signature. */
    method SwitchHigh(signature: byte) returns (error: Option<Error>)
      requires Entered(Step(st, signature)) && signature / 16 == C.CHANNEL_HIGH
      modifies this, parts, Readers()
      ensures Result(old(emitted), null, error) && fresh(parts - old(parts)) && sub.size == 0
      ensures reader.buffer == old(reader.buffer)
      ensures error.None? ==> old(reader.Unread()) != [] && reader.Unread() == old(reader.Unread())[1..]
      ensures error.None? ==> |reader.Unread()| < |old(reader.Unread())|
    {
      hide BufferedReader.Unread, Entered, Ready, Stopped, Valid;
      EnteredReaders(Step(st, signature));
      AtSignatureNow(Step(st, signature));
      var low;
      low, error := TakeByte(Step(st, signature));
      if error.None? {
        error := SwitchTo(256 * (signature % 16) + low);
      }
    }

    lemma AtSignatureNow(next: State)
      requires Entered(next)
      ensures st.mode.AtSignature?
    {
    }

    /** One signature and what belongs to it. again means that no packet has been entered. */
    method Packet() returns (again: bool, m: Message?, error: Option<Error>)
      requires Valid() && sub.size == 0
      modifies this, parts, Readers()
      ensures Result(old(emitted), m, error) && fresh(parts - old(parts))
      ensures error.None? ==> |reader.Unread()| < |old(reader.Unread())|
      ensures error.None? ==>
                if again then AfterIdle(reader.Unread()) == AfterIdle(old(reader.Unread()))
                else AfterIdle(old(reader.Unread())) == old(reader.Unread())
      ensures again ==> m == null && error.None? && sub.size == 0 && reader.buffer == old(reader.buffer)
    {
      hide BufferedReader.Unread, Entered, Ready, Stopped, Valid, Begin, Switch, Demux.EndStream;
      again, m := false, null;
      ValidIsEntered();
      EnteredReaders(st);
      AtSignatureNow(st);
      var signature;
      signature, error := TakeByte(st);
      if error.Some? {
        return;
      }
      EnteredReaders(Step(st, signature));
      var kind := signature / 16;
      if kind == C.HEARTBEAT {
        EnteredIsValid();
        again := true;
      } else if kind == C.CHANNEL_LOW {
        error := SwitchTo(signature % 16);
        again := error.None?;
      } else if kind == C.CHANNEL_HIGH {
        error := SwitchHigh(signature);
        again := error.None?;
      } else if kind == C.MESSAGE {
        m, error := BeginMessage(signature);
      } else if kind == C.DATA {
        error := BeginData(signature);
      } else if kind == C.STREAM {
        error := BeginStream(signature);
      } else if kind == C.STREAM_END {
        error := EndStream();
      } else {
        // One kind is unknown; go away, abort, response, continue, fast replies, file and file end remain.
        error := Refuse(if kind == 15 then UnknownSignature else NotImplemented);
      }
    }

    method Dispatch() returns (m: Message?, error: Option<Error>)
      requires Valid() && sub.size == 0
      modifies this, parts, Readers()
      ensures Result(old(emitted), m, error) && fresh(parts - old(parts))
      ensures error.None? ==> |reader.Unread()| < |old(reader.Unread())|
      ensures error.None? ==> |reader.Unread()| < |AfterIdle(old(reader.Unread()))|
    {
      hide BufferedReader.Unread, Ready, Stopped, Whole, Truth, WellFormed, SizeReader;
      ValidReaders();
      ghost var before := reader.Unread();
      while true
        invariant Valid() && sub.size == 0 && emitted == old(emitted) && fresh(parts - old(parts))
        invariant reader.buffer == old(reader.buffer) && reader.Valid() && |reader.Unread()| <= |before|
        invariant AfterIdle(reader.Unread()) == AfterIdle(before)
        decreases |reader.Unread()|
      {
        var again;
        again, m, error := Packet();
        if !again {
          return;
        }
        assert emitted == old(emitted) + [];
        ValidReaders();
      }
    }

    /** A payload that was cut off goes on. */
    lemma Resuming()
      requires Valid() && sub.size > 0 && reader.available > 0
      ensures if subMode == HeaderPart then AtHeader() && Resumes() else Entering(subMode, Expects(st, subMode), Refusal(subMode))
    {
      hide BufferedReader.Unread, ChannelsOk, LogOk, Run, Init, HeaderSoFar, Complete;
      AvailableIsUnread();
      if !Expects(st, subMode) {
        var all := reader.Unread();
        RunMore(channelsCount, consumed, all);
        ResumeFails(st, all, subMode);
      } else if subMode == HeaderPart && Here(st).Reading? {
        var Reading(r, s, skip, got) := Here(st);
        NotComplete();
        StillReading(st, r, s, skip, got, sub.size);
      }
    }

    /** A header that is not over is not over for its reader either. */
    lemma NotComplete()
      requires Ready() && Here(st).Reading? && st.mode == InPayload(HeaderPart, sub.size)
      ensures !Complete(Here(st).got, sub.size)
    {
      hide MessageReader.InPlace, StandsAt, Tells, Fielded, Complete, LogOk, ReadersOk, Consistent;
      assert ChannelOk(st.current);
      StandsTells(currentChannel.messageReader.step, currentChannel.messageReader.got, sub.size);
    }

    static lemma ResumeFails(st: State, all: seq<byte>, part: Part)
      requires st.mode.InPayload? && st.mode.part == part && st.mode.left > 0 && all != [] && !Expects(st, part)
      ensures Run(st, all) == Fail(st, Refusal(part))
    {
      RunFailed(Fail(st, Refusal(part)), all[1..]);
    }

    /** Makes sure that something of the payload is in the window. */
    method Load() returns (error: Option<Error>)
      requires Valid() && sub.size > 0
      modifies this`st, Readers()
      ensures emitted == old(emitted) && reader.buffer == old(reader.buffer)
      ensures error.None? ==>
                Valid() && sub.size == old(sub.size) && reader.available > 0 && reader.Unread() == old(reader.Unread()) != []
      ensures error.Some? ==> Stopped(error.value)
    {
      hide BufferedReader.Unread, Stopped, OnlyTouched, ChannelsOk, LogOk, Consistent, Run, Init, Parse, Rest;
      error := None;
      var len := sub.Len();
      if len == 0 {
        error := sub.Preload();
      }
      UntouchedIsOnly();
      if error.Some? {
        st := Parse(channelsCount, input);
        PayloadEnds();
      } else {
        StillReady();
        AvailableIsUnread();
      }
    }

    lemma AvailableIsUnread()
      requires reader.Valid() && reader.available > 0
      ensures reader.Unread() != []
    {
    }

    twostate lemma PayloadEnds()
      requires old(Valid()) && old(sub.size) > 0 && old(reader.Unread()) == []
      requires OnlyTouched(old(parts), {}) && unchanged(`objects) && unchanged(`emitted) && unchanged(`parts)
      requires st == Parse(channelsCount, input)
      ensures Stopped(EndOfInput)
    {
      hide BufferedReader.Unread, Run, LogOk, Init, OnlyTouched, ChannelOk;
      assert old(consumed) + [] == old(consumed);
      LogKept();
    }

    /** One read: takes bytes until a packet has been entered or resumed, and hands over the message
        if its header ends there. */
    method Read() returns (m: Message?, error: Option<Error>)
      requires Valid()
      modifies this, parts, Readers()
      ensures Result(old(emitted), m, error) && fresh(parts - old(parts))
      ensures error.None? ==> |reader.Unread()| < |old(reader.Unread())|
      ensures error.None? && old(sub.size) == 0 ==> |reader.Unread()| < |AfterIdle(old(reader.Unread()))|
    {
      hide BufferedReader.Unread, Stopped, Here, ExpectsData, ExpectsStream, Ready, Entering, AtHeader;
      m := null;
      ValidReaders();
      if sub.size == 0 {
        m, error := Dispatch();
        return;
      }
      error := Load();
      if error.Some? {
        return;
      }
      Resuming();
      match subMode
      case HeaderPart => m, error := ContinueHeader();
      case DataPart => error := PassData();
      case StreamPart => error := PassStream();
    }

    // A user of a delivered message, between the parser's reads.

    /** A part of message k. */
    twostate predicate IsPartOf(new o: object, k: nat)
      requires k < |old(objects)|
      reads {}
    {
      o == old(objects[k].data) || o == old(objects[k].stream)
    }

    twostate lemma UserChannels(id: nat, new k: nat, new o: object)
      requires old(Ready()) && k < |old(objects)| && IsPartOf(o, k) && OnlyTouched(old(parts), {o})
      requires unchanged(`channels) && unchanged(`st) && unchanged(`objects) && unchanged(`parts)
      requires id in channels && k < |st.log| && MessageOk(k, true)
      ensures id < |st.channels| && ChannelOk(id)
    {
      hide LogOk, ChannelOk, OnlyTouched, IsPartOf, MessageOk, ReadersOk, Consistent;
      assert old(ChannelOk(id));
      if st.channels[id].Busy? && st.channels[id].index == k {
        UserBusy(id, k, o);
      } else {
        UserApart(id, k, o);
        ChannelKept(id, {o});
      }
    }

    twostate lemma UserApart(id: nat, new k: nat, new o: object)
      requires old(Ready()) && k < |old(objects)| && IsPartOf(o, k) && id in old(channels)
      requires id < |old(st).channels| && !(old(st).channels[id].Busy? && old(st).channels[id].index == k)
      ensures var c := old(channels[id]);
              && c != o && c.messageReader != o
              && (forall j :: 0 <= j < |c.messageReader.readers| ==> c.messageReader.readers[j] != o)
              && old(c.message) != o && old(c.data) != o
              && (old(c.message) != null ==> old(c.message.data) != o && old(c.message.stream) != o)
    {
      hide MessageReader.InPlace, StandsAt, Tells, ChannelOk, Consistent, ReadersOk, HandedOk;
      PartsAreOwned(id);
      assert old(MessageOk(k, true));
    }

    twostate lemma UserBusy(id: nat, new k: nat, new o: object)
      requires old(Ready()) && k < |old(objects)| && IsPartOf(o, k) && OnlyTouched(old(parts), {o})
      requires unchanged(`channels) && unchanged(`st) && unchanged(`objects) && unchanged(`parts)
      requires id in channels && id < |st.channels| && st.channels[id].Busy? && st.channels[id].index == k
      requires k < |st.log| && MessageOk(k, true)
      ensures ChannelOk(id)
    {
      hide MessageReader.InPlace, StandsAt, Fielded, MessageData.Valid, MessageStream.Valid, ReadersOk, Consistent, HandedOk;
      assert old(ChannelOk(id)) && old(MessageOk(k, true));
      var c, m := channels[id], objects[k];
      assert unchanged(c) && unchanged(m) && unchanged(c.messageReader);
      assert forall j :: 0 <= j < |c.messageReader.readers| ==> unchanged(c.messageReader.readers[j]);
      assert c.data != null && c.data != m.data ==> unchanged(c.data);
      if c.messageReader.step.Rank() >= 5 { NewDataIs(id, k); }
      c.messageReader.KeptStays(m);
    }

    /** While the data size of a message's next header is in and the header is not over, nothing has
        been pushed into its data. */
    twostate lemma NewDataIs(id: nat, new k: nat)
      requires old(Ready()) && id in old(channels) && id < |old(st).channels| && k < |old(objects)|
      requires old(st).channels[id].Busy? && old(st).channels[id].index == k
      requires old(channels[id].messageReader.step.Rank()) >= 5
      ensures old(objects[k].data) != null && old(objects[k].data.pushed) == []
    {
      hide MessageReader.InPlace, StandsAt, MessageData.Valid, MessageStream.Valid, ReadersOk, Consistent, HandedOk;
      assert old(ChannelOk(id));
    }

    twostate lemma UserKept(k: nat, new o: object)
      requires old(Ready()) && ReadersOk() && k < |old(objects)| && IsPartOf(o, k)
      requires forall x: object :: x in old(parts) && x != o ==> unchanged(x)
      requires unchanged(`channels) && unchanged(`currentChannel) && unchanged(`st) && unchanged(`objects)
      requires unchanged(`emitted) && unchanged(`parts)
      requires k < |st.log| && MessageOk(k, true)
      ensures Ready()
    {
      hide ChannelOk, MessageOk, Consistent, HandedOk;
      assert OnlyTouched(old(parts), {o});
      HandedStays();
      forall j | 0 <= j < |objects| ensures MessageOk(j, true) {
        if j != k {
          UserAway(j, k, o);
          MessageKept(j, {o});
        }
      }
      forall id | id in channels ensures id < channelsCount && ChannelOk(id) { UserChannels(id, k, o); }
    }

    twostate lemma UserAway(j: nat, new k: nat, new o: object)
      requires old(Ready()) && k < |old(objects)| && j < |old(objects)| && j != k && IsPartOf(o, k)
      ensures AwayFrom(o, j)
    {
      hide ChannelsOk, ReadersOk, Consistent, HandedOk, MessageData.Valid, MessageStream.Valid;
      assert old(MessageOk(k, true)) && old(MessageOk(j, true));
    }

    /** Reading a message's data does not disturb the parser, and what comes out is the data's first
        bytes as the machine has them; the end is reported only when all of it has come out. */
    method UserReadsData(m: Message, ghost k: nat, target: array<byte>) returns (n: nat, outcome: Outcome)
      requires Valid() && k < |objects| && m == objects[k] && m.data != null && target !in parts && target !in Readers()
      modifies m.data, target
      ensures Valid() && m.data == old(m.data)
      ensures n <= target.Length && m.data.delivered == old(m.data.delivered) + target[..n]
      ensures m.data.delivered <= st.log[k].data
      ensures outcome.Delivered? ==>
                && old(m.data.buf) != [] && Placed(old(m.data.buf), old(m.data.bufOffset))
                && n == Taken(old(m.data.buf), old(m.data.bufOffset), target.Length)
                && MovedOn(old(m.data.buf), old(m.data.bufOffset), target.Length, m.data.buf, m.data.bufOffset)
      ensures !outcome.Delivered? ==> n == 0
      ensures outcome.Ended? ==> m.data.delivered == st.log[k].data && st.log[k].DataDone()
      ensures outcome.Waiting? ==> m.data.delivered == st.log[k].data && !st.log[k].DataDone()
      ensures !outcome.Bad?
    {
      hide ChannelsOk, BufferedReader.Unread, Run, Init, Consistent, WellFormed, SizeReader, Buffered, Placed, Matches, HandedOk;
      assert MessageOk(k, true);
      ghost var d := m.data;
      n, outcome := m.data.Read(target);
      UserKept(k, d);
    }

    /** The same for its stream, whose end is the sender's. The source cannot read on after that. */
    method UserReadsStream(m: Message, ghost k: nat, target: array<byte>) returns (n: nat, outcome: Outcome)
      requires Valid() && k < |objects| && m == objects[k] && m.stream != null && !m.stream.locked
      requires target !in parts && target !in Readers()
      modifies m.stream, target
      ensures Valid() && m.stream == old(m.stream)
      ensures n <= target.Length && m.stream.delivered == old(m.stream.delivered) + target[..n]
      ensures m.stream.delivered <= st.log[k].stream
      ensures outcome.Delivered? ==>
                && old(m.stream.buf) != [] && Placed(old(m.stream.buf), old(m.stream.bufOffset))
                && n == Taken(old(m.stream.buf), old(m.stream.bufOffset), target.Length)
                && MovedOn(old(m.stream.buf), old(m.stream.bufOffset), target.Length, m.stream.buf, m.stream.bufOffset)
      ensures !outcome.Delivered? ==> n == 0
      ensures outcome.Ended? ==> m.stream.delivered == st.log[k].stream && st.log[k].streamEnded
      ensures outcome.Waiting? ==> m.stream.delivered == st.log[k].stream && !st.log[k].streamEnded
    {
      hide ChannelsOk, BufferedReader.Unread, Run, Init, Consistent, WellFormed, SizeReader, Buffered, Placed, Matches, HandedOk;
      assert MessageOk(k, true);
      ghost var t := m.stream;
      n, outcome := m.stream.Read(target);
      UserKept(k, t);
    }

    lemma StoppedSays(e: Error)
      requires Stopped(e)
      ensures st == Parse(channelsCount, input) && |emitted| == |st.handed|
      ensures forall i :: 0 <= i < |emitted| ==>
                st.handed[i] < |st.log|
                && Keeps(emitted[i], st.log[st.handed[i]], st.handed[i], !st.mode.Failed? || st.mode.error == e)
      ensures if e == EndOfInput then !st.mode.Failed?
              else st.mode.Failed? && (st.mode.error == e || (st.mode.error == UnexpectedData && e in {MalformedSize, Panic}))
    {
      hide Parse, Keeps;
      var exact := !st.mode.Failed? || st.mode.error == e;
      forall i | 0 <= i < |emitted| ensures st.handed[i] < |st.log| && Keeps(emitted[i], st.log[st.handed[i]], st.handed[i], exact) {
        assert st.handed[i] < |objects| && emitted[i] == objects[st.handed[i]];
        assert MessageOk(st.handed[i], exact);
      }
    }

    /** What has been taken is the beginning of the input, and the state is what the machine makes of it. */
    lemma ValidSays()
      requires Valid()
      ensures st == Parse(channelsCount, consumed) && consumed <= input && |consumed| + |reader.Unread()| == |input|
      ensures |emitted| == |st.handed|
    {
      hide ChannelsOk, BufferedReader.Unread, Run, Init;
    }

    lemma ActionsToHere(was: State, taken: seq<byte>, actions: seq<seq<byte>>)
      requires Valid() && was == Parse(channelsCount, taken) && taken <= input && |taken| + |reader.Unread()| <= |input|
      requires |actions| <= |was.handed| && forall i :: 0 <= i < |actions| ==> IsAction(was, i, actions[i])
      ensures |emitted| == |st.handed| >= |actions| && forall i :: 0 <= i < |actions| ==> IsAction(st, i, actions[i])
    {
      hide ChannelsOk, BufferedReader.Unread, Run, Init, IsAction;
      ValidSays();
      assert consumed == taken + consumed[|taken|..];
      RunMore(channelsCount, taken, consumed[|taken|..]);
      ActionsStay(was, consumed[|taken|..], actions);
    }

    lemma ActionsToTheEnd(was: State, taken: seq<byte>, actions: seq<seq<byte>>)
      requires was == Parse(channelsCount, taken) && taken <= input
      requires |actions| <= |was.handed| && forall i :: 0 <= i < |actions| ==> IsAction(was, i, actions[i])
      ensures forall i :: 0 <= i < |actions| ==> IsAction(Parse(channelsCount, input), i, actions[i])
    {
      hide Run, Init, IsAction;
      assert input == taken + input[|taken|..];
      RunMore(channelsCount, taken, input[|taken|..]);
      ActionsStay(was, input[|taken|..], actions);
    }

    /** The action of the message that was handed over last is that of its entry. */
    lemma HandedAction()
      requires Valid() && emitted != []
      ensures |emitted| == |st.handed| && IsAction(st, |emitted| - 1, emitted[|emitted| - 1].action)
    {
      hide ChannelsOk, BufferedReader.Unread, Run, Init, Keeps, ReadersOk;
      var i := |emitted| - 1;
      assert st.handed[i] < |objects| && emitted[i] == objects[st.handed[i]];
      assert MessageOk(st.handed[i], true);
    }

    lemma ValidReaders()
      requires Valid()
      ensures ReadersOk() && reader.Valid() && reader.buffer == window && this !in parts
    {
    }
  }

  /** Later input leaves an action that has been handed over as it is in the log, unless the message
      is read on into. */
  lemma ActionsStay(st: State, piece: seq<byte>, actions: seq<seq<byte>>)
    requires |actions| <= |st.handed| && forall i :: 0 <= i < |actions| ==> IsAction(st, i, actions[i])
    ensures var st' := Run(st, piece); |actions| <= |st'.handed| && forall i :: 0 <= i < |actions| ==> IsAction(st', i, actions[i])
  {
    hide Run;
    if actions != [] {
      assert IsAction(st, 0, actions[0]);
      RunGrows(st, piece, st.handed[0]);
    }
    forall i | 0 <= i < |actions|
      ensures i < |Run(st, piece).handed| && IsAction(Run(st, piece), i, actions[i])
    {
      assert IsAction(st, i, actions[i]);
      RunGrows(st, piece, st.handed[i]);
    }
  }

  /** The action of the message handed over in this place, unless the message has been read on into. */
  predicate IsAction(st: State, i: nat, action: seq<byte>) {
    && i < |st.handed| && st.handed[i] < |st.log|
    && (!st.log[st.handed[i]].reread ==> action == st.log[st.handed[i]].header.action)
  }

  /** Reads until it stops. The messages are those that the machine hands over when it reads all the
      input, so they do not depend on the sizes of the source's reads nor on that of the buffer.
      actions are the messages' actions as they were when they were handed over. */
  method ReadAll(p: Parser) returns (messages: seq<Message>, actions: seq<seq<byte>>, error: Error)
    requires p.Valid() && p.emitted == []
    modifies p, p.parts, p.Readers()
    ensures var final := Parse(p.channelsCount, p.input);
            && |messages| == |actions| == |final.handed|
            && (forall i :: 0 <= i < |messages| ==>
                  final.handed[i] < |final.log|
                  && Keeps(messages[i], final.log[final.handed[i]], final.handed[i],
                           !final.mode.Failed? || final.mode.error == error))
            && (forall i :: 0 <= i < |actions| ==> IsAction(final, i, actions[i]))
            && if error == EndOfInput then !final.mode.Failed?
               else
                 && final.mode.Failed?
                 && (final.mode.error == error || (final.mode.error == UnexpectedData && error in {MalformedSize, Panic}))
  {
    hide BufferedReader.Unread, BufferedReader.Valid, Keeps, Parse, Parser.Valid, Parser.Stopped, Parser.ReadersOk, IsAction;
    messages, actions := [], [];
    p.ValidReaders();
    p.ValidSays();
    while true
      invariant p.Valid() && messages == p.emitted && fresh(p.parts - old(p.parts))
      invariant p.reader.Valid() && p.reader.buffer == p.window == old(p.reader.buffer)
      invariant |actions| == |messages| == |p.st.handed| && forall i :: 0 <= i < |actions| ==> IsAction(p.st, i, actions[i])
      decreases |p.reader.Unread()|
    {
      p.ValidSays();
      ghost var was, taken := p.st, p.consumed;
      var m, e := p.Read();
      if e.Some? {
        p.StoppedSays(e.value);
        p.ActionsToTheEnd(was, taken, actions);
        return messages, actions, e.value;
      }
      p.ActionsToHere(was, taken, actions);
      if m != null {
        messages, actions := messages + [m], actions + [m.action];
        p.HandedAction();
      }
      p.ValidReaders();
    }
  }
}
