/** What the parser hands to its user: a message with its data and stream, filled by the parser
    and drained by the user (message_data.go, message_stream.go, parser_channel.go:12-20). Each
    method is one critical section, so a sequence of calls is an interleaving of the two. */
module PartObjects {
  import opened Bytes
  import opened Demux
  import opened Channels

  function Flatten(pieces: seq<seq<byte>>): seq<byte> {
    if pieces == [] then [] else pieces[0] + Flatten(pieces[1..])
  }

  lemma {:induction false} FlattenAppend(pieces: seq<seq<byte>>, last: seq<byte>)
    ensures Flatten(pieces + [last]) == Flatten(pieces) + last
  {
    if pieces == [] {
      assert pieces + [last] == [last];
    } else {
      assert (pieces + [last])[1..] == pieces[1..] + [last];
      FlattenAppend(pieces[1..], last);
    }
  }

  /** What a read call comes to. Waiting stands for blocking until the other side acts. */
  datatype Outcome = Delivered | Waiting | Ended | Bad(error: Error)

  /** The read position is in the first block of the queue. */
  predicate Placed(buf: seq<seq<byte>>, bufOffset: nat) {
    if buf == [] then bufOffset == 0 else bufOffset <= |buf[0]|
  }

  /** Queue of byte blocks with a read position in the first one. */
  ghost function Buffered(buf: seq<seq<byte>>, bufOffset: nat): (b: seq<byte>)
    requires Placed(buf, bufOffset)
    ensures buf == [] ==> b == []
  {
    if buf == [] then [] else buf[0][bufOffset..] + Flatten(buf[1..])
  }

  lemma BufferedAppend(buf: seq<seq<byte>>, bufOffset: nat, p: seq<byte>)
    requires Placed(buf, bufOffset)
    ensures Placed(buf + [p], bufOffset) && Buffered(buf + [p], bufOffset) == Buffered(buf, bufOffset) + p
  {
    if buf == [] {
      assert Flatten((buf + [p])[1..]) == [];
    } else {
      FlattenAppend(buf[1..], p);
      assert (buf + [p])[1..] == buf[1..] + [p] && (buf + [p])[0] == buf[0];
    }
  }

  lemma BufferedAll(buf: seq<seq<byte>>)
    ensures Placed(buf, 0) && Buffered(buf, 0) == Flatten(buf)
  {
    if buf != [] { assert buf[0][0..] == buf[0]; }
  }

  lemma Regroup(x: seq<byte>, y: seq<byte>, z: seq<byte>)
    ensures x + y + z == x + (y + z)
  {
  }

  /** Taking from the first block, or the rest of it and the block with it. */
  lemma BufferedTake(buf: seq<seq<byte>>, bufOffset: nat, n: nat)
    requires buf != [] && bufOffset + n <= |buf[0]|
    ensures Buffered(buf, bufOffset) == buf[0][bufOffset..bufOffset + n] + Buffered(buf, bufOffset + n)
    ensures bufOffset + n == |buf[0]| ==>
              Placed(buf[1..], 0) && Buffered(buf, bufOffset) == buf[0][bufOffset..bufOffset + n] + Buffered(buf[1..], 0)
  {
    hide Flatten;
    var taken, left := buf[0][bufOffset..bufOffset + n], buf[0][bufOffset + n..];
    Regroup(taken, left, Flatten(buf[1..]));
    assert buf[0][bufOffset..] == taken + left;
    BufferedAll(buf[1..]);
    assert left == [] ==> left + Flatten(buf[1..]) == Flatten(buf[1..]);
  }

  /** How much one read takes: what is left of the first block, as far as the target has room. */
  function Taken(buf: seq<seq<byte>>, bufOffset: nat, room: nat): nat
    requires Placed(buf, bufOffset) && buf != []
  {
    if |buf[0]| - bufOffset <= room then |buf[0]| - bufOffset else room
  }

  /** A read moves the queue on by what it takes: past the first block if that is the rest of it, and
      otherwise within it. */
  predicate MovedOn(was: seq<seq<byte>>, wasOffset: nat, room: nat, buf: seq<seq<byte>>, bufOffset: nat)
    requires Placed(was, wasOffset) && was != []
  {
    if |was[0]| - wasOffset <= room then buf == was[1..] && bufOffset == 0
    else buf == was && bufOffset == wasOffset + room
  }

  class MessageData {
    var buf: seq<seq<byte>>
    var bufOffset: nat
    var wrote: nat
    const size: nat
    var err: Option<Error>
    /** The wake-up channel is closed, by the block that completes the data or by one too long. */
    var closed: bool
    ghost var pushed: seq<byte>
    ghost var delivered: seq<byte>
    ghost const owner: Message

    /** Conservation: what was pushed is what was delivered and then what is buffered. */
    ghost predicate Valid()
      reads this
    {
      && Placed(buf, bufOffset)
      && pushed == delivered + Buffered(buf, bufOffset)
      && wrote == |pushed| <= size
      && (err.Some? || 0 < wrote == size ==> closed) && (closed && err.None? ==> wrote == size)
    }

    constructor (size: nat, ghost owner: Message)
      ensures Valid() && this.size == size && pushed == [] && delivered == [] && err == None && this.owner == owner
    {
      buf, bufOffset, wrote, this.size, err, closed := [], 0, 0, size, None, false;
      pushed, delivered, this.owner := [], [], owner;
    }

    predicate Done()
      reads this
    {
      wrote == size
    }

    /** Accepts a block that stays within the declared size; a block that does not is dropped. Either
        way the wake-up channel is used, which panics once it has been closed. */
    method Push(p: seq<byte>) returns (error: Option<Error>)
      requires Valid()
      modifies this
      ensures Valid() && delivered == old(delivered)
      ensures error == if old(closed) then Some(Panic) else if old(wrote) + |p| > size then Some(MalformedSize) else None
      ensures old(wrote) + |p| <= size ==> pushed == old(pushed) + p && err == old(err)
      ensures old(wrote) + |p| > size ==> pushed == old(pushed) && err == Some(MalformedSize)
      ensures closed <==> old(closed) || old(wrote) + |p| >= size
      ensures buf == (if old(wrote) + |p| <= size then old(buf) + [p] else old(buf)) && bufOffset == old(bufOffset)
      ensures error.None? ==> pushed == old(pushed) + p && err == old(err)
      ensures error.Some? && old(err).None? && p != [] ==> |old(pushed)| + |p| > size && pushed == old(pushed)
    {
      hide Flatten, Buffered;
      if wrote + |p| > size {
        err := Some(MalformedSize);
        error := if closed then Some(Panic) else err;
        closed := true;
        return;
      }
      BufferedAppend(buf, bufOffset, p);
      buf := buf + [p];
      wrote := wrote + |p|;
      pushed := pushed + p;
      error := if closed then Some(Panic) else None;
      closed := closed || wrote == size;
    }

    /** Bytes come out in the order they went in, as many at once as the first block has and the
        target takes; the end is reported only once exactly the declared number has come out. */
    method Read(p: array<byte>) returns (n: nat, outcome: Outcome)
      requires Valid()
      modifies this`buf, this`bufOffset, this`delivered, p
      ensures Valid() && n <= p.Length && delivered == old(delivered) + p[..n]
      ensures outcome.Delivered? <==> err.None? && old(buf) != []
      ensures outcome.Delivered? ==>
                n == Taken(old(buf), old(bufOffset), p.Length) && MovedOn(old(buf), old(bufOffset), p.Length, buf, bufOffset)
      ensures !outcome.Delivered? ==> n == 0 && buf == old(buf) && bufOffset == old(bufOffset)
      ensures p[n..] == old(p[n..])
      ensures outcome.Waiting? ==> n == 0 && delivered == pushed && |pushed| < size
      ensures outcome.Ended? ==> n == 0 && delivered == pushed && |delivered| == size
      ensures outcome.Bad? <==> err.Some?
    {
      hide Flatten, Buffered;
      n := 0;
      if err.Some? {
        return 0, Bad(err.value);
      } else if buf == [] {
        return 0, if size == wrote then Ended else Waiting;
      }
      n := if |buf[0]| - bufOffset > p.Length then p.Length else |buf[0]| - bufOffset;
      forall k | 0 <= k < n { p[k] := buf[0][bufOffset + k]; }
      assert p[..n] == buf[0][bufOffset..bufOffset + n];
      BufferedTake(buf, bufOffset, n);
      if |buf[0]| - bufOffset > p.Length {
        bufOffset := bufOffset + n;
      } else {
        bufOffset := 0;
        buf := buf[1..];
      }
      delivered := delivered + p[..n];
      outcome := Delivered;
    }
  }

  class MessageStream {
    var buf: seq<seq<byte>>
    var bufOffset: nat
    var wrote: nat
    var done: bool
    /** The mutex is still locked after the end has been reported (message_stream.go:56-57). */
    var locked: bool
    ghost var pushed: seq<byte>
    ghost var delivered: seq<byte>
    ghost const owner: Message

    ghost predicate Valid()
      reads this
    {
      && Placed(buf, bufOffset)
      && pushed == delivered + Buffered(buf, bufOffset)
      && wrote == |pushed|
      && (locked ==> done && delivered == pushed)
    }

    constructor (ghost owner: Message)
      ensures Valid() && pushed == [] && delivered == [] && !done && !locked && this.owner == owner
    {
      buf, bufOffset, wrote, done, locked := [], 0, 0, false, false;
      pushed, delivered, this.owner := [], [], owner;
    }

    method Push(p: seq<byte>)
      requires Valid() && !locked
      modifies this
      ensures Valid() && pushed == old(pushed) + p && delivered == old(delivered) && done == old(done) && !locked
      ensures buf == old(buf) + [p] && bufOffset == old(bufOffset)
    {
      BufferedAppend(buf, bufOffset, p);
      buf := buf + [p];
      wrote := wrote + |p|;
      pushed := pushed + p;
    }

    method Close()
      requires Valid()
      modifies this`done
      ensures Valid() && done
    {
      done := true;
    }

    /** As many bytes come out at once as the first block has and the target takes; the end is reported
        only after the close, when every pushed byte has come out. */
    method Read(p: array<byte>) returns (n: nat, outcome: Outcome)
      requires Valid() && !locked
      modifies this`buf, this`bufOffset, this`delivered, this`locked, p
      ensures Valid() && n <= p.Length && delivered == old(delivered) + p[..n] && delivered <= pushed
      ensures outcome.Delivered? <==> old(buf) != []
      ensures outcome.Delivered? ==>
                n == Taken(old(buf), old(bufOffset), p.Length) && MovedOn(old(buf), old(bufOffset), p.Length, buf, bufOffset)
      ensures !outcome.Delivered? ==> n == 0 && buf == old(buf) && bufOffset == old(bufOffset)
      ensures p[n..] == old(p[n..])
      ensures outcome.Waiting? ==> n == 0 && delivered == pushed && !done
      ensures outcome.Ended? ==> n == 0 && delivered == pushed && done
      ensures locked == outcome.Ended? && !outcome.Bad?
    {
      hide Flatten, Buffered;
      n := 0;
      if buf == [] {
        locked := done;
        return 0, if done then Ended else Waiting;
      }
      n := if |buf[0]| - bufOffset > p.Length then p.Length else |buf[0]| - bufOffset;
      forall k | 0 <= k < n { p[k] := buf[0][bufOffset + k]; }
      assert p[..n] == buf[0][bufOffset..bufOffset + n];
      BufferedTake(buf, bufOffset, n);
      if |buf[0]| - bufOffset > p.Length {
        bufOffset := bufOffset + n;
      } else {
        bufOffset := 0;
        buf := buf[1..];
      }
      delivered := delivered + p[..n];
      outcome := Delivered;
    }
  }

  /** index is the message's place among those delivered, or negative while it is being read. */
  class Message {
    var id: seq<byte>
    var action: seq<byte>
    var data: MessageData?
    var stream: MessageStream?
    var filesCount: nat
    var totalFilesSize: nat
    const expectsResponse: bool
    ghost var index: int

    constructor (expectsResponse: bool, hasStream: bool, ghost index: int)
      ensures this.expectsResponse == expectsResponse && this.index == index
      ensures id == BLANK.id && action == BLANK.action && data == null && filesCount == 0 == totalFilesSize
      ensures hasStream == (stream != null)
      ensures stream != null ==>
                && fresh(stream) && stream.Valid() && stream.pushed == [] && !stream.done && !stream.locked
                && stream.owner == this
    {
      id, action, data, filesCount, totalFilesSize := BLANK.id, BLANK.action, null, 0, 0;
      this.expectsResponse, this.index := expectsResponse, index;
      stream := null;
      new;
      if hasStream {
        stream := new MessageStream(this);
      }
    }
  }

  /** A user that reads data into targets of any sizes but none gets all of what has arrived, in order,
      and then the end exactly if that is the declared number of bytes; otherwise it has to wait. */
  method DrainData(d: MessageData, sizes: nat -> nat) returns (all: seq<byte>, outcome: Outcome)
    requires d.Valid() && d.err.None? && forall k :: sizes(k) > 0
    modifies d
    ensures d.Valid() && old(d.delivered) + all == d.delivered == d.pushed == old(d.pushed)
    ensures outcome == if |d.pushed| == d.size then Ended else Waiting
  {
    hide Flatten, Buffered;
    all := [];
    var k := 0;
    assert d.delivered + all == d.delivered;
    while true
      invariant d.Valid() && d.err.None? && d.pushed == old(d.pushed) && d.delivered == old(d.delivered) + all
      decreases |d.buf|, if d.buf == [] then 0 else |d.buf[0]| - d.bufOffset
    {
      var target := new byte[sizes(k)](_ => 0);
      var n;
      n, outcome := d.Read(target);
      if !outcome.Delivered? {
        return;
      }
      all := all + target[..n];
      k := k + 1;
    }
  }

  /** The same for a stream, which ends when it has been closed. */
  method DrainStream(t: MessageStream, sizes: nat -> nat) returns (all: seq<byte>, outcome: Outcome)
    requires t.Valid() && !t.locked && forall k :: sizes(k) > 0
    modifies t
    ensures t.Valid() && old(t.delivered) + all == t.delivered == t.pushed == old(t.pushed)
    ensures outcome == if t.done then Ended else Waiting
  {
    hide Flatten, Buffered;
    all := [];
    var k := 0;
    assert t.delivered + all == t.delivered;
    while true
      invariant t.Valid() && !t.locked && t.pushed == old(t.pushed) && t.delivered == old(t.delivered) + all
      decreases |t.buf|, if t.buf == [] then 0 else |t.buf[0]| - t.bufOffset
    {
      var target := new byte[sizes(k)](_ => 0);
      var n;
      n, outcome := t.Read(target);
      if !outcome.Delivered? {
        return;
      }
      all := all + target[..n];
      k := k + 1;
    }
  }
}
