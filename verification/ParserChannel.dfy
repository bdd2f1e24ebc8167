/** One channel of the parser: a message being read, then its data and stream (parser_channel.go). */
module ParserChannelObjects {
  import opened Bytes
  import opened Demux
  import opened Channels
  import opened ReaderObjects
  import opened PartObjects
  import opened MessageReaderObjects

  const MAX_BLOCK: nat := 65536

  class ParserChannel {
    var message: Message?
    var data: MessageData?
    var stream: MessageStream?
    const messageReader: MessageReader
    ghost const id: nat

    /** The channel and what it is made of. */
    ghost function Objects(): (all: set<object>)
      ensures this in all && messageReader in all
      ensures forall k :: 0 <= k < |messageReader.readers| ==> messageReader.readers[k] in all
      ensures forall o :: o in all ==> o is ParserChannel || o is MessageReader || o is StreamReader
    {
      {this, messageReader} + set r | r in messageReader.readers
    }

    constructor (ghost id: nat)
      ensures this.id == id && IsIdle() && fresh(Objects())
      ensures messageReader.owner == id && messageReader.InPlace() && messageReader.step == AtFlags
    {
      this.id := id;
      message, data, stream := null, null, null;
      messageReader := new MessageReader(id);
    }

    ghost predicate IsIdle()
      reads this
    {
      message == null && data == null && stream == null
    }

    /** A message has been started and its header is partly read. */
    ghost predicate IsReading()
      reads this, messageReader, messageReader.readers, message, if message != null then {message.data} else {}
    {
      message != null && data == null && stream == null && messageReader.Tracks(message)
    }

    predicate DataDone()
      reads this, data
    {
      data == null || data.Done()
    }

    predicate StreamDone()
      reads this, stream
    {
      stream == null || stream.done
    }

    /** A new message goes on where the channel's reader is. index is its place while it is being read. */
    method InitMessage(expectsResponse: bool, hasStream: bool) returns (error: Option<Error>)
      requires message == null ==> IsIdle() && messageReader.InPlace() && messageReader.Stands(0)
      modifies this`message, messageReader`base, messageReader`from
      ensures error == if old(message) != null then Some(AlreadyProcessing) else None
      ensures error.Some? ==> message == old(message) && unchanged(messageReader)
      ensures error.None? ==> IsReading() && fresh(message)
      ensures error.None? ==> messageReader.base == BLANK_FIELDS && messageReader.from == messageReader.step.Rank()
      ensures error.None? ==> message.expectsResponse == expectsResponse && message.index == -1 - id && message.data == null
      ensures error.None? ==> hasStream == (message.stream != null)
      ensures error.None? && hasStream ==> fresh(message.stream) && message.stream.Valid() && message.stream.pushed == []
                                           && !message.stream.done && message.stream.owner == message
    {
      hide MessageReader.InPlace, StandsAt, Reaches, Fielded;
      if message != null {
        return Some(AlreadyProcessing);
      }
      message := new Message(expectsResponse, hasStream, -1 - id);
      messageReader.StandsReaches(0);
      messageReader.Admit(message);
      error := None;
    }

    /** Frees the channel once nothing is outstanding. */
    method MaybeEnd()
      modifies this
      ensures if old(DataDone() && StreamDone()) then IsIdle() else unchanged(this)
    {
      if DataDone() && StreamDone() {
        message, data, stream := null, null, null;
      }
    }

    /** The call has taken n bytes of its packet; read is all of the header that has been read. */
    twostate predicate TookHeader(b: LimitedReader, n: nat, new read: seq<byte>)
      requires old(b.Valid())
      reads this, messageReader, b, b.b, b.b.buffer, b.b.source
    {
      && b.Valid() && b.b.buffer == old(b.b.buffer)
      && n <= |old(b.b.Unread())| && b.b.Unread() == old(b.b.Unread())[n..] && n <= old(b.size)
      && read == old(messageReader.got) + old(b.b.Unread())[..n]
    }

    /** The header is not over: the channel waits for the rest of it. */
    twostate predicate GoesOn(was: Message, new read: seq<byte>, left: nat)
      reads this, messageReader, messageReader.readers, was, was.data
    {
      && unchanged(this) && messageReader.got == read
      && messageReader.base == old(messageReader.base) && messageReader.from == old(messageReader.from)
      && messageReader.Kept(was) && messageReader.Stands(left)
    }

    /** The header is over, and what has come in of it since the message did is in the message. */
    twostate predicate Decoded(was: Message, new read: seq<byte>, left: nat)
      reads was, was.data
    {
      && Complete(read, left) && !FilesSizeBroken(read[0])
      && Fielded(was, old(messageReader.base), old(messageReader.from), OVER, read)
    }

    /** The header is over in a message that came in behind its data size. */
    twostate predicate HasNoData(was: Message, new read: seq<byte>, left: nat)
      reads was, was.data
    {
      Decoded(was, read, left) && was.data == null && old(messageReader.from) >= 5
    }

    /** The header ends with a files size in the 32-bit form. */
    twostate predicate IsBroken(was: Message, new read: seq<byte>, left: nat)
      reads messageReader, was, was.data
    {
      && EndsBroken(read, left) && messageReader.got == read && messageReader.step == AtFilesSize
      && messageReader.base == old(messageReader.base) && messageReader.from == old(messageReader.from)
      && messageReader.Kept(was)
    }

    static lemma DataCameBefore(m: Message, base: Fields, from: nat, got: seq<byte>)
      requires Fielded(m, base, from, OVER, got) && m.data == null
      ensures from >= 5
    {
    }

    /** The message's parts go into it from here on, unless nothing is outstanding. Data of an earlier
        header goes on if the message now has none. */
    ghost predicate Attached(m: Message, was: MessageData?, wasStream: MessageStream?)
      requires m.data != null
      reads this, m, m.data, m.stream, was, wasStream
    {
      var d: MessageData? := if m.data.size > 0 then m.data else was;
      var t := if m.stream != null then m.stream else wasStream;
      if (d == null || d.Done()) && (t == null || t.done) then IsIdle() else message == m && data == d && stream == t
    }

    /** Reads on in the header. The message is handed over by the call that reads its last byte; place
        is its place among those delivered. A message that has come in behind its own data size has
        no data, which is a nil dereference. */
    method ProcessMessage(b: LimitedReader, ghost place: nat)
      returns (m: Message?, error: Option<Error>, ghost n: nat, ghost read: seq<byte>)
      requires message != null && messageReader.Tracks(message) && messageReader.Goes(b.size) && b.Valid()
      modifies this, messageReader, messageReader.readers, b, b.b,
               message`id, message`action, message`data, message`filesCount, message`totalFilesSize, message`index, b.b.buffer, b.b.source
      ensures TookHeader(b, n, read)
      ensures error.None? || error == Some(Panic) ==> b.size == old(b.size) - n
      ensures if (m != null || messageReader.step.Rank() >= 5) && old(messageReader.step.Rank()) < 5
              then fresh(old(message).data) else old(message).data == old(message.data)
      ensures old(message).index == if m == null then old(message.index) else place
      ensures error.Some? ==> m == null && unchanged(this)
      ensures error.None? && m == null ==>
                && messageReader.InPlace() && GoesOn(old(message), read, b.size)
                && (old(b.size) > 0 && old(b.b.available) > 0 ==> n > 0)
      ensures m != null ==>
                && m == old(message) && Decoded(m, read, b.size) && m.data != null && Attached(m, old(data), old(stream))
                && messageReader.Tracks(m) && messageReader.step == AtFlags && messageReader.got == [] && messageReader.from == 0
      ensures error.Some? ==>
                match error.value
                case EndOfInput => b.b.Unread() == [] && GoesOn(old(message), read, old(b.size) - n)
                case Panic => HasNoData(old(message), read, b.size) || IsBroken(old(message), read, b.size)
                case _ => false
    {
      hide Complete, FilesSizeBroken, StandsAt, EndsBroken, Fielded, Attached, BufferedReader.Unread,
        MessageReader.InPlace;
      var f;
      m := null;
      f, n, read := messageReader.Get(message, b);
      if !f.Ready? {
        return null, if f.Broken? then Some(f.error) else None, n, read;
      } else if message.data == null {
        DataCameBefore(message, old(messageReader.base), old(messageReader.from), read);
        return null, Some(Panic), n, read;
      }
      m := message;
      m.index := place;
      Attach(m);
      error := None;
    }

    method Attach(m: Message)
      requires message == m && m.data != null
      modifies this
      ensures Attached(m, old(data), old(stream))
    {
      if m.data.size > 0 {
        data := m.data;
      }
      if m.stream != null {
        stream := m.stream;
      }
      MaybeEnd();
    }

    /** Passes on the part of a Data payload that the window holds. */
    method ProcessData(b: LimitedReader) returns (error: Option<Error>, ghost n: nat)
      requires b.Valid() && (data != null ==> data.Valid() && data.err.None?)
      modifies this, data, b, b.b, b.b.buffer, b.b.source
      ensures b.Valid() && b.b.buffer == old(b.b.buffer)
      ensures error in {None, Some(UnexpectedData), Some(MalformedSize), Some(Panic)}
      ensures n <= |old(b.b.Unread())| && b.b.Unread() == old(b.b.Unread())[n..]
      ensures n <= old(b.size) && b.size == old(b.size) - n
      ensures (error == Some(UnexpectedData)) == old(DataDone())
      ensures error == Some(UnexpectedData) ==> n == 0 && unchanged(this) && (data != null ==> unchanged(data))
      ensures error.None? ==>
                && old(data).Valid() && old(data).err.None? && old(data).pushed == old(data.pushed) + old(b.b.Unread())[..n]
                && (b.size == 0 || b.b.available == 0) && (old(b.size) > 0 && old(b.b.available) > 0 ==> n > 0)
                && if old(data).Done() && old(StreamDone()) then IsIdle() else unchanged(this)
      ensures error in {Some(MalformedSize), Some(Panic)} ==>
                && |old(data.pushed)| + n > old(data).size && n > 0
                && old(data).Valid() && old(data.pushed) <= old(data).pushed
                && old(data).pushed <= old(data.pushed) + old(b.b.Unread())[..n]
    {
      hide MessageData.Valid, BufferedReader.Unread, Passed;
      if DataDone() {
        return Some(UnexpectedData), 0;
      }
      error, n := PassBlocks(b, data);
      PassedIs(old(data.pushed), old(b.b.Unread()), n);
      if error.None? {
        MaybeEnd();
      }
    }

    /** Block after block goes to the data, until window or budget is used up or one does not fit. */
    method PassBlocks(b: LimitedReader, d: MessageData) returns (error: Option<Error>, ghost n: nat)
      requires b.Valid() && d.Valid() && d.err.None?
      modifies d, b, b.b, b.b.buffer, b.b.source
      ensures b.Valid() && b.b.buffer == old(b.b.buffer) && error in {None, Some(MalformedSize), Some(Panic)}
      ensures n <= |old(b.b.Unread())| && b.b.Unread() == old(b.b.Unread())[n..]
      ensures n <= old(b.size) && b.size == old(b.size) - n && d.Valid()
      ensures error.None? ==>
                && d.err.None? && d.pushed == Passed(old(d.pushed), old(b.b.Unread()), n)
                && (b.size == 0 || b.b.available == 0) && (old(b.size) > 0 && old(b.b.available) > 0 ==> n > 0)
      ensures error.Some? ==>
                && |old(d.pushed)| + n > d.size && n > 0
                && old(d.pushed) <= d.pushed <= Passed(old(d.pushed), old(b.b.Unread()), n)
    {
      hide MessageData.Valid, BufferedReader.Unread, Passed;
      n := 0;
      ghost var all, was := b.b.Unread(), d.pushed;
      PassedIs(was, all, 0);
      while true
        invariant b.Valid() && b.b.buffer == old(b.b.buffer)
        invariant n <= |all| && n <= old(b.size) && b.b.Unread() == all[n..] && b.size == old(b.size) - n
        invariant d.Valid() && d.err.None? && d.pushed == Passed(was, all, n)
        invariant n == 0 ==> b.b.available == old(b.b.available)
        decreases b.size
      {
        var block, e := PassBlock(b, d);
        if block == [] {
          return None, n;
        }
        BlockTaken(was, all, n, block);
        n := n + |block|;
        if e.Some? {
          return e, n;
        }
      }
    }

    /** The next block goes to the data; an empty one does not. */
    method PassBlock(b: LimitedReader, d: MessageData) returns (block: seq<byte>, error: Option<Error>)
      requires b.Valid() && d.Valid() && d.err.None?
      modifies d, b, b.b, b.b.buffer, b.b.source
      ensures b.Valid() && b.b.buffer == old(b.b.buffer)
      ensures |block| <= |old(b.b.Unread())| && |block| <= old(b.size)
      ensures block == old(b.b.Unread())[..|block|] && b.b.Unread() == old(b.b.Unread())[|block|..]
      ensures b.size == old(b.size) - |block|
      ensures block == [] ==> error.None? && b.b.available == old(b.b.available) && (b.size == 0 || b.b.available == 0)
      ensures d.Valid() && error in {None, Some(MalformedSize), Some(Panic)}
      ensures error.None? ==> d.err.None? && d.pushed == old(d.pushed) + block
      ensures error.Some? ==> d.pushed == old(d.pushed) && |old(d.pushed)| + |block| > d.size
    {
      hide MessageData.Valid, BufferedReader.Unread;
      block := NextBlock(b);
      if block == [] {
        return block, None;
      }
      error := d.Push(block);
    }

    /** What has been passed on when n of the bytes have been taken. */
    static function Passed(was: seq<byte>, all: seq<byte>, n: nat): seq<byte>
      requires n <= |all|
    {
      was + all[..n]
    }

    static lemma PassedIs(was: seq<byte>, all: seq<byte>, n: nat)
      requires n <= |all|
      ensures Passed(was, all, n) == was + all[..n] && (n == 0 ==> Passed(was, all, n) == was)
    {
    }

    static lemma BlockTaken(was: seq<byte>, all: seq<byte>, n: nat, block: seq<byte>)
      requires n <= |all| && |block| <= |all[n..]| && block == all[n..][..|block|]
      ensures n + |block| <= |all| && all[n..][|block|..] == all[n + |block|..]
      ensures Passed(was, all, n + |block|) == Passed(was, all, n) + block
      ensures was <= Passed(was, all, n) <= Passed(was, all, n + |block|) && |Passed(was, all, n)| == |was| + n
    {
      BufferedReader.Pieces(all, n, |block|);
      assert was + all[..n + |block|] == was + all[..n] + block;
    }

    /** Takes what the window holds within the budget, up to the largest block. */
    method NextBlock(b: LimitedReader) returns (block: seq<byte>)
      requires b.Valid()
      modifies b, b.b, b.b.buffer, b.b.source
      ensures b.Valid() && b.b.buffer == old(b.b.buffer)
      ensures |block| <= |old(b.b.Unread())| && |block| <= old(b.size)
      ensures block == old(b.b.Unread())[..|block|] && b.b.Unread() == old(b.b.Unread())[|block|..]
      ensures b.size == old(b.size) - |block|
      ensures block == [] ==> b.b.available == old(b.b.available) && (b.size == 0 || b.b.available == 0)
      ensures |block| <= 65536 && |block| <= old(b.b.available)
      ensures |block| == 65536 || |block| == old(b.size) || |block| == old(b.b.available)
    {
      var step := b.Len();
      if step == 0 {
        return [];
      }
      if step > MAX_BLOCK {
        step := MAX_BLOCK;
      }
      AvailableIsUnread(b);
      var buf := new byte[step](_ => 0);
      var _, _ := b.Read(buf);
      assert buf[..step] == buf[..];
      block := buf[..];
    }

    static lemma AvailableIsUnread(b: LimitedReader)
      requires b.Valid()
      ensures |b.b.Unread()| >= b.b.available
    {
    }

    /** Passes on the part of a Stream payload that the window holds. */
    method ProcessStream(b: LimitedReader) returns (error: Option<Error>, ghost n: nat)
      requires b.Valid() && (stream != null ==> stream.Valid())
      modifies stream, b, b.b, b.b.buffer, b.b.source
      ensures b.Valid() && b.b.buffer == old(b.b.buffer)
      ensures error == if old(StreamDone()) then Some(UnexpectedStream) else None
      ensures n <= |old(b.b.Unread())| && b.b.Unread() == old(b.b.Unread())[n..]
      ensures n <= old(b.size) && b.size == old(b.size) - n
      ensures error.Some? ==> n == 0 && (stream != null ==> unchanged(stream))
      ensures error.None? ==>
                && stream.Valid() && !stream.done && stream.pushed == old(stream.pushed) + old(b.b.Unread())[..n]
                && (b.size == 0 || b.b.available == 0) && (old(b.size) > 0 && old(b.b.available) > 0 ==> n > 0)
    {
      hide MessageStream.Valid, BufferedReader.Unread, Passed;
      if StreamDone() {
        return Some(UnexpectedStream), 0;
      }
      n := PassStreamBlocks(b, stream);
      PassedIs(old(stream.pushed), old(b.b.Unread()), n);
      error := None;
    }

    /** Block after block goes to the stream, until window or budget is used up. */
    method PassStreamBlocks(b: LimitedReader, t: MessageStream) returns (ghost n: nat)
      requires b.Valid() && t.Valid() && !t.done
      modifies t, b, b.b, b.b.buffer, b.b.source
      ensures b.Valid() && b.b.buffer == old(b.b.buffer) && t.Valid() && !t.done
      ensures n <= |old(b.b.Unread())| && b.b.Unread() == old(b.b.Unread())[n..]
      ensures n <= old(b.size) && b.size == old(b.size) - n
      ensures t.pushed == Passed(old(t.pushed), old(b.b.Unread()), n)
      ensures (b.size == 0 || b.b.available == 0) && (old(b.size) > 0 && old(b.b.available) > 0 ==> n > 0)
    {
      hide MessageStream.Valid, BufferedReader.Unread, Passed;
      n := 0;
      ghost var all, was := b.b.Unread(), t.pushed;
      PassedIs(was, all, 0);
      while true
        invariant b.Valid() && b.b.buffer == old(b.b.buffer)
        invariant n <= |all| && n <= old(b.size) && b.b.Unread() == all[n..] && b.size == old(b.size) - n
        invariant t.Valid() && !t.done && t.pushed == Passed(was, all, n)
        invariant n == 0 ==> b.b.available == old(b.b.available)
        decreases b.size
      {
        var block := NextBlock(b);
        if block == [] {
          return;
        }
        BlockTaken(was, all, n, block);
        OpenIsUnlocked(t);
        t.Push(block);
        n := n + |block|;
      }
    }

    static lemma OpenIsUnlocked(t: MessageStream)
      requires t.Valid() && !t.done
      ensures !t.locked
    {
    }

    /** A channel without a stream is a nil dereference in the source. */
    method EndStream() returns (error: Option<Error>)
      requires stream != null ==> stream.Valid()
      modifies this, stream
      ensures error == if old(stream) == null then Some(Panic) else None
      ensures error.Some? ==> unchanged(this)
      ensures error.None? ==> old(stream).Valid() && old(stream).done && old(stream).pushed == old(stream.pushed)
      ensures error.None? ==> if old(DataDone()) then IsIdle() else unchanged(this)
    {
      if stream == null {
        return Some(Panic);
      }
      stream.Close();
      MaybeEnd();
      error := None;
    }
  }
}
