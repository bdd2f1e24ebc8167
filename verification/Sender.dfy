/** Sends as the source codes them, over the writer's and stream writer's objects
    (message_draft.go:53-165, 182-229): whatever else is under way on the writer, the calls of one
    send, in program order, are a run of that sender's steps. The writes that the source leaves to
    goroutines may come in either order. */
module SenderObjects {
  import opened Bytes
  import opened Codec
  import D = Demux
  import opened Channels
  import opened Multiplex
  import opened WriterObjects
  import opened StreamWriterObjects

  lemma {:induction false} RunThen(s: Net, run: seq<Label>, l: Label)
    requires Sane(s) && IsRun(s, run) && Enabled(After(s, run), l)
    ensures IsRun(s, run + [l]) && After(s, run + [l]) == Apply(After(s, run), l)
    decreases |run|
  {
    hide Apply, Enabled;
    if run == [] {
      assert run + [l] == [l] && [l][1..] == [];
    } else {
      assert (run + [l])[1..] == run[1..] + [l];
      RunThen(Apply(s, run[0]), run[1..], l);
    }
  }

  /** The senders' steps so far have led here, and the writer shows it. */
  ghost predicate LedTo(from: Net, run: seq<Label>, s: Net, w: Writer)
    reads w, w.channels, w.channels.locks
  {
    && Sane(from) && IsRun(from, run) && After(from, run) == s && |s.senders| == |from.senders|
    && w.Valid() && w.View() == s.shared
  }

  lemma NothingYet(s: Net, w: Writer)
    requires Sane(s) && w.Valid() && w.View() == s.shared
    ensures LedTo(s, [], s, w)
  {
  }

  lemma WriterIsValid(from: Net, run: seq<Label>, s: Net, w: Writer)
    requires LedTo(from, run, s, w)
    ensures w.Valid()
  {
  }

  /** Sender i has become x, and the others are as they were; no header has gone out. */
  predicate Became(from: Net, s: Net, i: nat, x: Sender)
    requires i < |from.senders|
  {
    s.senders == from.senders[i := x] && s.order == from.order
  }

  /** The same, with the header of sender i gone out. */
  predicate Began(from: Net, s: Net, i: nat, x: Sender)
    requires i < |from.senders|
  {
    s.senders == from.senders[i := x] && s.order == from.order + [i]
  }

  /** A call that did what a step does leads on. */
  lemma Step(from: Net, run: seq<Label>, s: Net, l: Label, next: Net, w: Writer) returns (more: seq<Label>)
    requires Sane(from) && IsRun(from, run) && After(from, run) == s && |s.senders| == |from.senders|
    requires Enabled(s, l) && Apply(s, l) == next && w.Valid() && w.View() == next.shared
    ensures more == run + [l] && LedTo(from, more, next, w)
  {
    RunThen(from, run, l);
    more := run + [l];
  }

  // One lemma a step: what it makes of sender i of any net.

  lemma FastStep(s: Net, i: nat, c: nat)
    requires Sane(s) && i < |s.senders| && s.senders[i].phase == Start && s.senders[i].Fast() && IsFree(s, c)
    ensures Enabled(s, SendFast(i, c))
    ensures var next, x := Apply(s, SendFast(i, c)), s.senders[i];
            next.shared == s.shared.PutAt(c, Encode(Message(x.draft)))
            && Began(s, next, i, x.(phase := Finished, channel := c, slot := |s.order|))
  {
    hide Encode, Emit;
  }

  lemma TakeStep(s: Net, i: nat, c: nat)
    requires Sane(s) && i < |s.senders| && s.senders[i].phase == Start && !s.senders[i].Fast() && IsFree(s, c)
    ensures Enabled(s, Obtain(i, c))
    ensures var next, x := Apply(s, Obtain(i, c)), s.senders[i];
            next.shared == s.shared.Lock(c)
            && Became(s, next, i, x.(phase := Obtained, channel := c, gate := if x.HasPipe() then Held else Absent))
  {
  }

  lemma BeginStep(s: Net, i: nat)
    requires Sane(s) && i < |s.senders| && s.senders[i].phase == Obtained
    ensures Enabled(s, SendHeader(i))
    ensures var next, x := Apply(s, SendHeader(i)), s.senders[i];
            next.shared == s.shared.PutAt(x.channel, Encode(Message(x.draft)))
            && Began(s, next, i, x.(phase := HeaderSent, slot := |s.order|))
  {
    hide Encode, Emit;
  }

  lemma DataStep(s: Net, i: nat)
    requires Sane(s) && i < |s.senders| && s.senders[i].phase in {HeaderSent, Waiting}
    requires s.senders[i].draft.data != [] && !s.senders[i].dataSent
    ensures Enabled(s, SendData(i))
    ensures var next, x := Apply(s, SendData(i)), s.senders[i];
            next.shared == s.shared.PutAt(x.channel, Encode(Data(x.draft.data)))
            && Became(s, next, i, x.(dataSent := true))
  {
    hide Encode, Emit;
  }

  lemma EndAtOnceStep(s: Net, i: nat)
    requires Sane(s) && i < |s.senders| && s.senders[i].phase == HeaderSent && !s.senders[i].HasPipe()
    ensures Enabled(s, StartStream(i))
    ensures var next, x := Apply(s, StartStream(i)), s.senders[i];
            && next.shared == (if x.draft.hasStream then s.shared.PutAt(x.channel, Encode(StreamEnd)) else s.shared)
            && Became(s, next, i, x.(phase := Waiting, endSent := x.endSent || x.draft.hasStream))
  {
    hide Emit;
  }

  lemma GiveBackStep(s: Net, i: nat)
    requires Sane(s) && i < |s.senders| && s.senders[i].phase == Waiting && s.senders[i].PartsSent()
    ensures Enabled(s, Release(i))
    ensures var next, x := Apply(s, Release(i)), s.senders[i];
            next.shared == s.shared.Unlock(x.channel) && Became(s, next, i, x.(phase := Finished))
  {
  }

  lemma FoundIsFree(s: Net)
    requires s.shared.Free().Some?
    ensures IsFree(s, s.shared.Free().value)
  {
  }

  /** The net that a send finds: some sends under way, or over, and this one not begun. */
  ghost predicate Awaits(from: Net, i: nat, j: Job, w: Writer)
    reads w, w.channels, w.channels.locks
  {
    Sane(from) && i < |from.senders| && from.senders[i] == Fresh(j) && w.Valid() && w.View() == from.shared
  }

  /** The send is over, nothing but its own sender has moved, and that has put everything on the wire:
      the draft's header and data, and these bytes of its stream up to the end. */
  predicate IsSent(from: Net, s: Net, i: nat, streamed: seq<byte>) {
    && i < |from.senders| == |s.senders| && s.senders[i].phase == Finished && Began(from, s, i, s.senders[i])
    && s.senders[i].Sent() == Received(Job(from.senders[i].draft, from.senders[i].piped), s.senders[i].channel, streamed)
  }

  /** A receiver that has read everything written by then has the message with exactly those bytes as
      its stream, in the place that its header took. */
  lemma SentArrives(jobs: seq<Job>, channels: nat, accepted: nat, before: seq<Label>, run: seq<Label>, i: nat, streamed: seq<byte>)
    requires IsStart(jobs, channels, accepted) && Sane(Launch(jobs, channels)) && IsRun(Launch(jobs, channels), before)
    requires IsRun(After(Launch(jobs, channels), before), run)
    requires var from := After(Launch(jobs, channels), before); IsSent(from, After(from, run), i, streamed)
    ensures var from := After(Launch(jobs, channels), before);
            var k, st := |from.order|, D.Parse(accepted, After(from, run).shared.wire);
            i < |jobs| && k < |st.log| && st.log[k] == Received(jobs[i], st.log[k].channel, streamed)
  {
    hide IsRun, After, D.Run;
    var start := Launch(jobs, channels);
    var from := After(start, before);
    RunsJoin(start, before, run);
    AlwaysInStep(jobs, channels, accepted, before + run);
    JobsStay(start, before, i);
    var s := After(from, run);
    assert s.order[|from.order|] == i;
  }

  /** A send without a stream writer: a stream is ended at once. false stands for waiting for a
      channel. */
  method Pass(w: Writer, d: Draft, dataFirst: bool, ghost from: Net, ghost i: nat)
    returns (sent: bool, ghost run: seq<Label>, ghost s: Net)
    requires Awaits(from, i, Job(d, false), w)
    modifies w`target, w.channels`current, w.channels.locks
    ensures sent == from.shared.Free().Some?
    ensures LedTo(from, run, s, w)
    ensures if sent then IsSent(from, s, i, []) else s == from
    ensures sent && d.data == [] && !d.hasStream ==> |run| == 1 && s.shared.locks == from.shared.locks
  {
    hide Encode, Emit, FirstFree, Apply, Enabled, IsRun, After;
    run, s := [], from;
    NothingYet(from, w);
    var p := BuildMessagePacket(d);
    if d.data == [] && !d.hasStream {
      sent := w.Write(p.b[..]);
      if sent {
        ghost var c := s.shared.Free().value;
        FoundIsFree(s);
        FastStep(s, i, c);
        run := Step(from, run, s, SendFast(i, c), Apply(s, SendFast(i, c)), w);
        s := Apply(s, SendFast(i, c));
      }
      return;
    }
    var obtained := w.ObtainChannel();
    sent := obtained.Some?;
    if sent {
      ghost var c := obtained.value;
      FoundIsFree(s);
      TakeStep(s, i, c);
      run := Step(from, run, s, Obtain(i, c), Apply(s, Obtain(i, c)), w);
      s := Apply(s, Obtain(i, c));
      run, s := PassParts(w, d, dataFirst, obtained.value, p.b[..], from, run, s, i);
    }
  }

  /** The rest of it, on the channel it has obtained. */
  method PassParts(w: Writer, d: Draft, dataFirst: bool, channel: nat, header: seq<byte>,
                   ghost from: Net, ghost before: seq<Label>, ghost start: Net, ghost i: nat)
    returns (ghost run: seq<Label>, ghost s: Net)
    requires LedTo(from, before, start, w) && d.Valid() && header == Encode(Message(d)) && i < |from.senders|
    requires from.senders[i] == Fresh(Job(d, false))
    requires Became(from, start, i, Fresh(Job(d, false)).(phase := Obtained, channel := channel))
    modifies w`target, w.channels`current, w.channels.locks
    ensures LedTo(from, run, s, w) && IsSent(from, s, i, [])
  {
    hide Encode, Emit, FirstFree, Apply, Enabled, IsRun, After;
    run, s := before, start;
    run, s := Begin(w, d, channel, header, d.data != [] && dataFirst, from, run, s, i);
    EndAtOnceStep(s, i);
    if d.hasStream {
      w.WriteRawAtChannel(channel, [16 * STREAM_END]);
      EndMarker();
    }
    run := Step(from, run, s, StartStream(i), Apply(s, StartStream(i)), w);
    s := Apply(s, StartStream(i));
    run, s := Finish(w, d, channel, d.data != [] && !dataFirst, from, run, s, i);
  }

  /** The header, and the data if its goroutine is the first to write. */
  method Begin(w: Writer, d: Draft, channel: nat, header: seq<byte>, dataNow: bool,
               ghost from: Net, ghost before: seq<Label>, ghost start: Net, ghost i: nat)
    returns (ghost run: seq<Label>, ghost s: Net)
    requires LedTo(from, before, start, w) && d.Valid() && header == Encode(Message(d)) && i < |start.senders|
    requires var x := start.senders[i]; x.draft == d && x.channel == channel && x.phase == Obtained && !x.dataSent
    requires dataNow ==> d.data != []
    modifies w`target, w.channels`current
    ensures LedTo(from, run, s, w)
    ensures Began(start, s, i, start.senders[i].(phase := HeaderSent, slot := |start.order|, dataSent := dataNow))
  {
    hide Encode, Emit, FirstFree, Apply, Enabled, IsRun, After;
    run, s := before, start;
    BeginStep(s, i);
    w.WriteRawAtChannel(channel, header);
    run := Step(from, run, s, SendHeader(i), Apply(s, SendHeader(i)), w);
    s := Apply(s, SendHeader(i));
    if dataNow {
      run, s := PassData(w, d, channel, from, run, s, i);
    }
  }

  lemma EndMarker()
    ensures Encode(StreamEnd) == [16 * STREAM_END]
  {
  }

  method PassData(w: Writer, d: Draft, channel: nat, ghost from: Net, ghost before: seq<Label>, ghost start: Net, ghost i: nat)
    returns (ghost run: seq<Label>, ghost s: Net)
    requires LedTo(from, before, start, w) && d.Valid() && d.data != [] && i < |start.senders|
    requires var x := start.senders[i];
             x.draft == d && x.channel == channel && x.phase in {HeaderSent, Waiting} && !x.dataSent
    modifies w`target, w.channels`current
    ensures LedTo(from, run, s, w) && Became(start, s, i, start.senders[i].(dataSent := true))
  {
    hide Encode, Emit, FirstFree, Apply, Enabled, IsRun, After;
    DataStep(start, i);
    w.WriteExternalWithSignatureAtChannel(channel, 16 * DATA, d.data);
    run := Step(from, before, start, SendData(i), Apply(start, SendData(i)), w);
    s := Apply(start, SendData(i));
  }

  /** What is left to do when the stream is over. */
  method Finish(w: Writer, d: Draft, channel: nat, dataLeft: bool,
                ghost from: Net, ghost before: seq<Label>, ghost start: Net, ghost i: nat)
    returns (ghost run: seq<Label>, ghost s: Net)
    requires LedTo(from, before, start, w) && d.Valid() && i < |start.senders|
    requires var x := start.senders[i];
             && x.draft == d && x.channel == channel && x.phase == Waiting && dataLeft == (d.data != [] && !x.dataSent)
             && (d.hasStream ==> if x.piped then x.closed else x.endSent)
    modifies w`target, w.channels`current, w.channels.locks
    ensures LedTo(from, run, s, w)
    ensures var x := start.senders[i];
            Became(start, s, i, x.(phase := Finished, dataSent := x.dataSent || dataLeft))
  {
    hide Encode, Emit, FirstFree, Apply, Enabled, IsRun, After;
    run, s := before, start;
    if dataLeft {
      run, s := PassData(w, d, channel, from, run, s, i);
    }
    run, s := GiveBack(w, channel, from, run, s, i);
  }

  method GiveBack(w: Writer, channel: nat, ghost from: Net, ghost before: seq<Label>, ghost start: Net, ghost i: nat)
    returns (ghost run: seq<Label>, ghost s: Net)
    requires LedTo(from, before, start, w) && i < |start.senders|
    requires var x := start.senders[i]; x.channel == channel && x.phase == Waiting && x.PartsSent()
    modifies w.channels.locks
    ensures LedTo(from, run, s, w) && Became(start, s, i, start.senders[i].(phase := Finished))
  {
    hide FirstFree, Apply, Enabled, IsRun, After, Sender.PartsSent;
    GiveBackStep(start, i);
    w.ReleaseChannel(channel);
    run := Step(from, before, start, Release(i), Apply(start, Release(i)), w);
    s := Apply(start, Release(i));
  }

  // A send whose stream has users.

  lemma AcceptStep(s: Net, i: nat)
    requires Sane(s) && i < |s.senders| && s.senders[i].phase == HeaderSent && s.senders[i].HasPipe()
    ensures Enabled(s, StartStream(i))
    ensures Apply(s, StartStream(i)).shared == s.shared
    ensures Became(s, Apply(s, StartStream(i)), i, s.senders[i].(phase := Waiting, gate := Free))
  {
  }

  /** One call of a user: it gets the mutex, acts, and gives the mutex back. */
  lemma UserSteps(from: Net, run: seq<Label>, s: Net, i: nat, op: Op) returns (more: seq<Label>, next: Net)
    requires Sane(from) && IsRun(from, run) && After(from, run) == s && i < |s.senders| == |from.senders|
    requires s.senders[i].gate == Free && (op.Write? ==> |op.bytes| <= MAX_UINT24)
    ensures IsRun(from, more) && After(from, more) == next && |next.senders| == |s.senders|
    ensures var x := s.senders[i];
            && next.shared == (if x.closed then s.shared
                               else s.shared.PutAt(x.channel, Encode(if op.Write? then Stream(op.bytes) else StreamEnd)))
            && Became(s, next, i, if x.closed then x
                                  else if op.Write? then x.(streamed := x.streamed + op.bytes)
                                  else x.(endSent := true, closed := true))
  {
    hide Encode, Emit, IsRun, After;
    var x := s.senders[i];
    RunThen(from, run, StreamLock(i, op));
    var locked := Apply(s, StreamLock(i, op));
    RunThen(from, run + [StreamLock(i, op)], StreamAct(i));
    var acted := Apply(locked, StreamAct(i));
    more, next := run + [StreamLock(i, op)] + [StreamAct(i)], acted;
    if !x.closed {
      RunThen(from, more, StreamUnlock(i));
      more, next := more + [StreamUnlock(i)], Apply(acted, StreamUnlock(i));
    }
  }

  /** What a stream's users write before the first of them closes it. */
  function Said(ops: seq<Op>): seq<byte>
    decreases |ops|
  {
    if ops == [] || ops[0].Close? then [] else ops[0].bytes + Said(ops[1..])
  }

  /** A write adds its bytes if nobody has closed the stream; nothing else does. */
  lemma {:induction false} SaidMore(ops: seq<Op>, op: Op)
    ensures Said(ops + [op]) == if op.Write? && Close !in ops then Said(ops) + op.bytes else Said(ops)
    decreases |ops|
  {
    if ops == [] {
      assert Said([op]) == if op.Write? then op.bytes + Said([]) else [];
    } else if ops[0].Write? {
      assert (ops + [op])[1..] == ops[1..] + [op];
      SaidMore(ops[1..], op);
    }
  }

  lemma SaidBehind(before: seq<byte>, ops: seq<Op>, op: Op)
    ensures before + Said(ops + [op]) == before + Said(ops) + if op.Write? && Close !in ops then op.bytes else []
  {
    SaidMore(ops, op);
    assert before + (Said(ops) + if op.Write? && Close !in ops then op.bytes else [])
        == before + Said(ops) + if op.Write? && Close !in ops then op.bytes else [];
  }

  /** One call of a user on the stream writer. */
  method UserActs(stream: MessageStreamWriter, op: Op, ghost from: Net, ghost before: seq<Label>, ghost start: Net, ghost i: nat)
    returns (ghost run: seq<Label>, ghost s: Net)
    requires LedTo(from, before, start, stream.writer) && stream.Valid() && stream.mu.held == 0 && i < |start.senders|
    requires start.senders[i].gate == Free && start.senders[i].channel == stream.channel
    requires start.senders[i].closed == stream.done.done && (op.Write? ==> |op.bytes| <= MAX_UINT24)
    modifies stream.mu, stream.done, stream.writer`target, stream.writer.channels`current
    ensures LedTo(from, run, s, stream.writer) && stream.Valid() && stream.mu.held == 0
    ensures var x := start.senders[i];
            Became(start, s, i, if x.closed then x
                                else if op.Write? then x.(streamed := x.streamed + op.bytes)
                                else x.(endSent := true, closed := true))
    ensures stream.done.done == (start.senders[i].closed || op.Close?)
  {
    hide Encode, Emit, Apply, Enabled, IsRun, After;
    run, s := UserSteps(from, before, start, i, op);
    match op
    case Write(p) => var _, _ := stream.Write(p);
    case Close => var _ := stream.Close();
  }

  /** What the stream's users do while the send waits for the close: the bytes of their writes go out
      in order, up to the first close. */
  method UsersAct(stream: MessageStreamWriter, ops: seq<Op>, ghost from: Net, ghost before: seq<Label>, ghost start: Net, ghost i: nat)
    returns (ghost run: seq<Label>, ghost s: Net)
    requires LedTo(from, before, start, stream.writer) && stream.Valid() && stream.mu.held == 0 && i < |start.senders|
    requires start.senders[i].gate == Free && start.senders[i].channel == stream.channel
    requires start.senders[i].closed == stream.done.done
    requires forall k :: 0 <= k < |ops| && ops[k].Write? ==> |ops[k].bytes| <= MAX_UINT24
    modifies stream.mu, stream.done, stream.writer`target, stream.writer.channels`current
    ensures LedTo(from, run, s, stream.writer) && stream.Valid()
    ensures var x := start.senders[i];
            Became(start, s, i, if x.closed then x
                                else x.(streamed := x.streamed + Said(ops), closed := Close in ops,
                                        endSent := x.endSent || Close in ops))
    ensures stream.done.done == (start.senders[i].closed || Close in ops)
  {
    hide Encode, Emit, Apply, Enabled, IsRun, After, LedTo, Said;
    run, s := before, start;
    ghost var x := start.senders[i];
    SaidNothing(x.streamed);
    for k := 0 to |ops|
      invariant LedTo(from, run, s, stream.writer) && stream.Valid() && stream.mu.held == 0
      invariant i < |s.senders| && Became(start, s, i, s.senders[i])
      invariant s.senders[i] == if x.closed then x
                                else x.(streamed := x.streamed + Said(ops[..k]), closed := Close in ops[..k],
                                        endSent := x.endSent || Close in ops[..k])
      invariant s.senders[i].closed == stream.done.done
    {
      run, s := UserActs(stream, ops[k], from, run, s, i);
      assert ops[..k + 1] == ops[..k] + [ops[k]];
      SaidBehind(x.streamed, ops[..k], ops[k]);
    }
    assert ops[..|ops|] == ops;
  }

  lemma SaidNothing(before: seq<byte>)
    ensures before + Said([]) == before
  {
  }

  /** The stream's users are let in. */
  method Accept(stream: MessageStreamWriter, ghost from: Net, ghost before: seq<Label>, ghost start: Net, ghost i: nat)
    returns (ghost run: seq<Label>, ghost s: Net)
    requires LedTo(from, before, start, stream.writer) && stream.Valid() && stream.mu.held == 1 && i < |start.senders|
    requires start.senders[i].phase == HeaderSent && start.senders[i].HasPipe()
    modifies stream.mu
    ensures LedTo(from, run, s, stream.writer) && stream.Valid() && stream.mu.held == 0
    ensures Became(start, s, i, start.senders[i].(phase := Waiting, gate := Free))
  {
    hide Apply, Enabled, IsRun, After;
    AcceptStep(start, i);
    stream.StartAccepting();
    run := Step(from, before, start, StartStream(i), Apply(start, StartStream(i)), stream.writer);
    s := Apply(start, StartStream(i));
  }

  /** A send with a stream writer, on the channel that was obtained for it: its users wait until the
      header is out, and close it sooner or later. */
  method SendPiped(w: Writer, d: Draft, stream: MessageStreamWriter, ops: seq<Op>, dataFirst: bool,
                   ghost from: Net, ghost before: seq<Label>, ghost start: Net, ghost i: nat)
    returns (ghost run: seq<Label>, ghost s: Net)
    requires LedTo(from, before, start, w) && d.Valid() && d.hasStream && i < |from.senders|
    requires from.senders[i] == Fresh(Job(d, true))
    requires Became(from, start, i, Fresh(Job(d, true)).(phase := Obtained, channel := stream.channel, gate := Held))
    requires stream.writer == w && stream.Valid() && stream.mu.held == 1 && !stream.done.done
    requires (forall k :: 0 <= k < |ops| && ops[k].Write? ==> |ops[k].bytes| <= MAX_UINT24) && Close in ops
    modifies stream.mu, stream.done, w`target, w.channels`current, w.channels.locks
    ensures LedTo(from, run, s, w) && IsSent(from, s, i, Said(ops)) && stream.done.done
    ensures s.senders[i].channel == stream.channel
  {
    hide Encode, Emit, FirstFree, Apply, Enabled, IsRun, After, LedTo;
    run, s := before, start;
    var p := BuildMessagePacket(d);
    run, s := Begin(w, d, stream.channel, p.b[..], d.data != [] && dataFirst, from, run, s, i);
    WriterIsValid(from, run, s, w);
    run, s := Accept(stream, from, run, s, i);
    run, s := UsersAct(stream, ops, from, run, s, i);
    run, s := Finish(w, d, stream.channel, d.data != [] && !dataFirst, from, run, s, i);
  }

  /** What a request's Send comes to. NoChannel stands for waiting for
      a channel. */
  datatype Answer = AlreadySent | NoChannel | Sent

  /** A message that may be sent once (message_draft.go:194-229). */
  class MessageRequest {
    const w: Writer
    const m: Draft
    /** The mutex, which Send never unlocks. */
    var taken: bool
    const initiated: DoneSignal
    const done: DoneSignal
    var stream: MessageStreamWriter?

    ghost predicate Valid()
      reads this, initiated, done
    {
      && initiated.Valid() && done.Valid() && initiated != done && m.expectsResponse
      && (!taken ==> !initiated.done && !done.done && stream == null)
    }

    constructor (w: Writer, m: Draft)
      requires m.expectsResponse
      ensures Valid() && !taken && this.w == w && this.m == m && fresh(initiated) && fresh(done)
    {
      this.w, this.m, taken, stream := w, m, false, null;
      initiated := new DoneSignal();
      done := new DoneSignal();
    }

    /** The first call sends; any other only fails. */
    method Send(ops: seq<Op>, dataFirst: bool, ghost from: Net, ghost i: nat)
      returns (answer: Answer, ghost run: seq<Label>, ghost s: Net)
      requires Valid() && w.Valid() && w.View() == from.shared
      requires !taken ==> Awaits(from, i, Job(m, m.hasStream), w)
      requires (forall k :: 0 <= k < |ops| && ops[k].Write? ==> |ops[k].bytes| <= MAX_UINT24) && (m.hasStream ==> Close in ops)
      modifies this`taken, this`stream, initiated, done, w`target, w.channels`current, w.channels.locks
      ensures Valid() && taken
      ensures answer == if old(taken) then AlreadySent else if from.shared.Free().None? then NoChannel else Sent
      ensures answer.AlreadySent? ==> w.View() == from.shared && unchanged(this, initiated, done)
      ensures !old(taken) ==> LedTo(from, run, s, w)
      ensures !old(taken) ==> if answer.Sent? then IsSent(from, s, i, if m.hasStream then Said(ops) else []) else s == from
      ensures answer.Sent? && m.hasStream ==>
                stream != null && stream.writer == w && stream.channel == s.senders[i].channel && stream.done.done
      ensures answer.Sent? && !m.hasStream && m.data == [] ==> |run| == 1 && s.shared.locks == from.shared.locks
      ensures !old(taken) ==> done.done == answer.Sent? && initiated.done == (answer.Sent? && m.hasStream)
    {
      hide Encode, Emit, FirstFree, Apply, Enabled, IsRun, After;
      run, s := [], from;
      if taken {
        return AlreadySent, run, s;
      }
      taken := true;
      NothingYet(from, w);
      var sent;
      if m.hasStream {
        sent, run, s := SendStream(ops, dataFirst, from, i);
      } else {
        sent, run, s := Pass(w, m, dataFirst, from, i);
      }
      if !sent {
        return NoChannel, run, s;
      }
      var _ := done.Close();
      answer := Sent;
    }

    /** The stream writer's channel is obtained before the header is written. */
    method SendStream(ops: seq<Op>, dataFirst: bool, ghost from: Net, ghost i: nat)
      returns (sent: bool, ghost run: seq<Label>, ghost s: Net)
      requires m.hasStream && initiated.Valid() && Awaits(from, i, Job(m, true), w)
      requires (forall k :: 0 <= k < |ops| && ops[k].Write? ==> |ops[k].bytes| <= MAX_UINT24) && Close in ops
      modifies this`stream, initiated, w`target, w.channels`current, w.channels.locks
      ensures initiated.Valid() && initiated.done == (old(initiated.done) || sent)
      ensures sent == from.shared.Free().Some? && (!sent ==> stream == old(stream))
      ensures LedTo(from, run, s, w) && if sent then IsSent(from, s, i, Said(ops)) else s == from
      ensures sent ==> stream != null && stream.writer == w && stream.channel == s.senders[i].channel && stream.done.done
    {
      hide Encode, Emit, FirstFree, Apply, Enabled, IsRun, After;
      run, s := [], from;
      NothingYet(from, w);
      var obtained := w.ObtainChannel();
      sent := obtained.Some?;
      if sent {
        FoundIsFree(s);
        TakeStep(s, i, obtained.value);
        run := Step(from, run, s, Obtain(i, obtained.value), Apply(s, Obtain(i, obtained.value)), w);
        s := Apply(s, Obtain(i, obtained.value));
        var pipe := new MessageStreamWriter(obtained.value, w);
        stream := pipe;
        var _ := initiated.Close();
        run, s := SendPiped(w, m, pipe, ops, dataFirst, from, run, s, i);
      }
    }
  }

  // Several sends over one writer.

  lemma {:induction false} RunsJoin(s: Net, a: seq<Label>, b: seq<Label>)
    requires Sane(s) && IsRun(s, a) && IsRun(After(s, a), b)
    ensures IsRun(s, a + b) && After(s, a + b) == After(After(s, a), b)
    decreases |a|
  {
    hide Apply, Enabled;
    if a == [] {
      assert a + b == b;
    } else {
      assert (a + b)[1..] == a[1..] + b;
      RunsJoin(Apply(s, a[0]), a[1..], b);
    }
  }

  /** While no send is under way, every channel is free. */
  lemma NoneHeldIsFree(jobs: seq<Job>, channels: nat, run: seq<Label>)
    requires IsStart(jobs, channels, channels) && Sane(Launch(jobs, channels)) && IsRun(Launch(jobs, channels), run)
    requires forall i :: 0 <= i < |jobs| ==> !After(Launch(jobs, channels), run).senders[i].Holds()
    ensures After(Launch(jobs, channels), run).shared.Free().Some?
  {
    var s := After(Launch(jobs, channels), run);
    AlwaysInStep(jobs, channels, channels, run);
    ScanIsComplete(s.shared.locks, s.shared.current);
    assert !s.shared.locks[0] by { assert s.shared.locks[0] ==> IsHeld(s.senders, 0); }
  }

  /** Messages passed one after the other over a new writer: a receiver that reads what has been
      written has them all, whole and in that order. */
  method PassAll(w: Writer, drafts: seq<Draft>, dataFirst: seq<bool>)
    requires w.Valid() && w.View() == Shared([], 0, seq(w.channels.channelsCount, _ => false))
    requires |dataFirst| == |drafts| && forall k :: 0 <= k < |drafts| ==> drafts[k].Readable()
    modifies w`target, w.channels`current, w.channels.locks
    ensures var st := D.Parse(w.channels.channelsCount, w.target);
            && st.mode == D.AtSignature && |st.log| == |drafts|
            && forall k :: 0 <= k < |drafts| ==>
                 st.log[k] == Received(Job(drafts[k], false), st.log[k].channel, [])
  {
    hide Encode, Emit, FirstFree, Apply, Enabled, IsRun, After, D.Parse;
    var n := w.channels.channelsCount;
    ghost var jobs := seq(|drafts|, k requires 0 <= k < |drafts| => Job(drafts[k], false));
    ghost var from := Launch(jobs, n);
    ghost var run, s := [], from;
    StartIsSane(jobs, n, n);
    NothingYet(from, w);
    for k := 0 to |drafts|
      invariant LedTo(from, run, s, w)
      invariant forall j :: 0 <= j < k ==> s.senders[j].phase == Finished
      invariant forall j :: k <= j < |drafts| ==> s.senders[j] == Fresh(jobs[j])
      invariant |s.order| == k && forall j :: 0 <= j < k ==> s.order[j] == j
    {
      NoneHeldIsFree(jobs, n, run);
      ghost var more, next;
      var sent;
      sent, more, next := Pass(w, drafts[k], dataFirst[k], s, k);
      RunsJoin(from, run, more);
      run, s := run + more, next;
    }
    PassedInOrder(jobs, n, run);
  }

  lemma PassedInOrder(jobs: seq<Job>, channels: nat, run: seq<Label>)
    requires IsStart(jobs, channels, channels) && Sane(Launch(jobs, channels)) && IsRun(Launch(jobs, channels), run)
    requires forall k :: 0 <= k < |jobs| ==> !jobs[k].piped
    requires var s := After(Launch(jobs, channels), run);
             && |s.order| == |jobs| && forall k :: 0 <= k < |jobs| ==> s.order[k] == k && s.senders[k].phase == Finished
    ensures var st := D.Parse(channels, After(Launch(jobs, channels), run).shared.wire);
            && st.mode == D.AtSignature && |st.log| == |jobs|
            && forall k :: 0 <= k < |jobs| ==> st.log[k] == Received(jobs[k], st.log[k].channel, [])
  {
    hide IsRun, After, D.Run;
    AlwaysInStep(jobs, channels, channels, run);
    var s := After(Launch(jobs, channels), run);
    var st := D.Parse(channels, s.shared.wire);
    forall k | 0 <= k < |jobs| ensures st.log[k] == Received(jobs[k], st.log[k].channel, []) {
      assert SenderOk(s.senders[k]) && st.log[k] == s.senders[s.order[k]].Sent();
      JobsStay(Launch(jobs, channels), run, k);
    }
  }
}
