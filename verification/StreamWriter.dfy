/** The stream a sender's user writes to (message_stream_writer.go, internal/fifo_mutex,
    internal/done_signal). */
module StreamWriterObjects {
  import opened Bytes
  import opened Codec
  import opened Channels
  import opened WriterObjects

  /** A buffered channel used as a mutex: Lock puts a token in, Unlock takes one out. */
  class FifoMutex {
    const capacity: nat
    var held: nat

    constructor (concurrent: nat)
      ensures capacity == concurrent && held == 0
    {
      capacity := concurrent;
      held := 0;
    }

    /** false stands for waiting, as a caller does that finds the channel full. */
    method Lock() returns (locked: bool)
      modifies this
      ensures locked == (old(held) < capacity) && held == old(held) + if locked then 1 else 0
    {
      locked := held < capacity;
      if locked {
        held := held + 1;
      }
    }

    method Unlock()
      requires held > 0
      modifies this
      ensures held == old(held) - 1
    {
      held := held - 1;
    }
  }

  /** A flag that closes a channel the first time it is set; closing twice would be a panic. */
  class DoneSignal {
    var done: bool
    ghost var closings: nat

    ghost predicate Valid()
      reads this
    {
      closings == if done then 1 else 0
    }

    constructor ()
      ensures Valid() && !done
    {
      done, closings := false, 0;
    }

    method Close() returns (first: bool)
      requires Valid()
      modifies this
      ensures Valid() && done && first == !old(done)
      ensures closings == old(closings) + if first then 1 else 0
    {
      first := !done;
      if first {
        done, closings := true, closings + 1;
      }
    }
  }

  /** What a user's call comes to. Waits stands for blocking until the mutex is free. */
  datatype Reply = Waits | Refused | Accepted

  class MessageStreamWriter {
    const channel: nat
    const writer: Writer
    const done: DoneSignal
    const mu: FifoMutex

    ghost predicate Valid()
      reads this, writer, writer.channels, writer.channels.locks, done, mu
    {
      && writer.Valid() && done.Valid() && channel < writer.channels.channelsCount
      && mu.capacity == 1 && mu.held <= 1
    }

    /** The stream starts locked: its users wait until the sender has written the header. */
    constructor (channel: nat, writer: Writer)
      requires writer.Valid() && channel < writer.channels.channelsCount
      ensures Valid() && fresh(done) && fresh(mu) && this.channel == channel && this.writer == writer
      ensures mu.held == 1 && !done.done
    {
      this.channel, this.writer := channel, writer;
      var m := new FifoMutex(1);
      done := new DoneSignal();
      mu := m;
      new;
      var _ := mu.Lock();
    }

    /** The sender lets the stream's users in. */
    method StartAccepting()
      requires Valid() && mu.held == 1
      modifies mu
      ensures Valid() && mu.held == 0
    {
      mu.Unlock();
    }

    /** One packet if the stream is open; nothing and an error once it is closed; nothing yet while
        someone else has the mutex. */
    method Write(p: seq<byte>) returns (n: nat, reply: Reply)
      requires Valid() && |p| <= MAX_UINT32
      modifies mu, writer`target, writer.channels`current
      ensures Valid() && mu.held == old(mu.held) && n == if reply.Accepted? then |p| else 0
      ensures reply == if old(mu.held) == 1 then Waits else if done.done then Refused else Accepted
      ensures writer.View()
           == if reply.Accepted? then old(writer.View()).PutAt(channel, Encode(Stream(p))) else old(writer.View())
    {
      var locked := mu.Lock();
      if !locked {
        return 0, Waits;
      }
      if done.done {
        mu.Unlock();
        return 0, Refused;
      }
      writer.WriteExternalWithSignatureAtChannel(channel, 16 * STREAM, p);
      mu.Unlock();
      return |p|, Accepted;
    }

    /** The end marker, at most once, with the done signal set after it. A second close is fine. */
    method Close() returns (reply: Reply)
      requires Valid()
      modifies mu, done, writer`target, writer.channels`current
      ensures Valid() && mu.held == old(mu.held)
      ensures reply == if old(mu.held) == 1 then Waits else Accepted
      ensures done.done == (old(done.done) || reply.Accepted?)
      ensures writer.View()
           == if reply.Accepted? && !old(done.done) then old(writer.View()).PutAt(channel, Encode(StreamEnd))
              else old(writer.View())
    {
      var locked := mu.Lock();
      if !locked {
        return Waits;
      }
      if done.done {
        mu.Unlock();
        return Accepted;
      }
      writer.WriteRawAtChannel(channel, [16 * STREAM_END]);
      var _ := done.Close();
      mu.Unlock();
      reply := Accepted;
    }
  }
}
