/** Concurrent senders on one connection (message_draft.go, message_stream_writer.go over
    writer.go). Each label is one atomic step of one sender: a critical section of the writer, a
    change of a channel lock, or an operation on a stream's mutex. A run is any sequence of enabled
    steps, so every interleaving is a run. */
module Multiplex {
  import opened Bytes
  import opened Codec
  import opened Demux
  import opened Runs
  import opened RoundTrip
  import opened Channels

  /** What a user asks of a stream: write these bytes, or close it. */
  datatype Op = Write(bytes: seq<byte>) | Close

  /** The mutex of a sender's stream writer: locked by the sender itself, free, or taken by a user
      who is about to act or has acted. */
  datatype Gate = Absent | Held | Free | Entered(op: Op) | Leaving(op: Op)

  datatype Phase = Start | Obtained | HeaderSent | Waiting | Finished

  /** One send. A piped one has a stream writer for its user (Send); otherwise a stream is ended at
      once (pass). closed is the stream writer's done signal. dataSent, streamed, endSent and slot
      record what has been put on the wire. */
  datatype Sender = Sender(draft: Draft, piped: bool, phase: Phase, channel: nat, gate: Gate, closed: bool,
                           dataSent: bool, streamed: seq<byte>, endSent: bool, slot: nat)
  {
    predicate Fast() { draft.data == [] && !draft.hasStream }
    predicate HasPipe() { draft.hasStream && piped }
    predicate Holds() { phase in {Obtained, HeaderSent, Waiting} }
    predicate Begun() { phase in {HeaderSent, Waiting, Finished} }
    predicate PartsSent() {
      (draft.data == [] || dataSent) && (draft.hasStream ==> if piped then closed else endSent)
    }

    /** What a receiver should have of this send by now. */
    function Sent(): Entry {
      Entry(channel, draft.expectsResponse, draft.hasStream, HeaderOf(draft),
            if dataSent then draft.data else [], streamed, endSent, false)
    }
  }

  /** order lists the senders by when their headers were written. */
  datatype Net = Net(shared: Shared, senders: seq<Sender>, order: seq<nat>)

  datatype Label =
    | SendFast(i: nat, c: nat)
    | Obtain(i: nat, c: nat)
    | SendHeader(i: nat)
    | SendData(i: nat)
    | StartStream(i: nat)
    | StreamLock(i: nat, op: Op)
    | StreamAct(i: nat)
    | StreamUnlock(i: nat)
    | Release(i: nat)

  predicate Sane(s: Net) {
    && s.shared.Valid()
    && forall i :: 0 <= i < |s.senders| ==> s.senders[i].draft.Readable() && s.senders[i].channel < |s.shared.locks|
  }

  /** The channel is free. Which free channel a scan comes up with depends on what is released while
      it is under way, so a step may take any. */
  predicate IsFree(s: Net, c: nat) { c < |s.shared.locks| && !s.shared.locks[c] }

  /** When the source can take a step: program order, a free channel to be had, a mutex to be had. */
  predicate Enabled(s: Net, l: Label) {
    l.i < |s.senders| &&
    var x := s.senders[l.i];
    match l
    case SendFast(_, c) => x.phase == Start && x.Fast() && IsFree(s, c)
    case Obtain(_, c) => x.phase == Start && !x.Fast() && IsFree(s, c)
    case SendHeader(_) => x.phase == Obtained
    case SendData(_) => x.phase in {HeaderSent, Waiting} && x.draft.data != [] && !x.dataSent
    case StartStream(_) => x.phase == HeaderSent
    case StreamLock(_, op) => x.gate == Free && (op.Write? ==> |op.bytes| <= MAX_UINT24)
    case StreamAct(_) => x.gate.Entered? && (x.gate.op.Write? ==> |x.gate.op.bytes| <= MAX_UINT24)
    case StreamUnlock(_) => x.gate.Leaving?
    case Release(_) => x.phase == Waiting && x.PartsSent()
  }

  function Set(s: Net, i: nat, x: Sender): Net
    requires i < |s.senders|
  {
    s.(senders := s.senders[i := x])
  }

  /** Sender i puts a packet on its channel and becomes x. */
  function SetAndPut(s: Net, i: nat, x: Sender, p: Packet): Net
    requires i < |s.senders| && x.channel < MAX_CHANNELS && p.Valid()
  {
    Set(s, i, x).(shared := s.shared.PutAt(x.channel, Encode(p)))
  }

  /** The same for a header, which takes the next place in the order. */
  function SetAndBegin(s: Net, i: nat, x: Sender): Net
    requires i < |s.senders| && x.channel < MAX_CHANNELS && x.draft.Valid()
  {
    SetAndPut(s, i, x.(slot := |s.order|), Message(x.draft)).(order := s.order + [i])
  }

  function Apply(s: Net, l: Label): (r: Net)
    requires Sane(s) && Enabled(s, l)
    ensures Sane(r) && |r.senders| == |s.senders| && |r.shared.locks| == |s.shared.locks|
  {
    var x := s.senders[l.i];
    match l
    case SendFast(i, c) => SetAndBegin(s, i, x.(phase := Finished, channel := c))
    case Obtain(i, c) =>
      Set(s, i, x.(phase := Obtained, channel := c, gate := if x.HasPipe() then Held else Absent))
        .(shared := s.shared.Lock(c))
    case SendHeader(i) => SetAndBegin(s, i, x.(phase := HeaderSent))
    case SendData(i) => SetAndPut(s, i, x.(dataSent := true), Data(x.draft.data))
    case StartStream(i) =>
      if x.HasPipe() then Set(s, i, x.(phase := Waiting, gate := Free))
      else if x.draft.hasStream then SetAndPut(s, i, x.(phase := Waiting, endSent := true), StreamEnd)
      else Set(s, i, x.(phase := Waiting))
    case StreamLock(i, op) => Set(s, i, x.(gate := Entered(op)))
    case StreamAct(i) =>
      if x.closed then Set(s, i, x.(gate := Free))
      else (match x.gate.op
        case Write(b) => SetAndPut(s, i, x.(gate := Leaving(x.gate.op), streamed := x.streamed + b), Stream(b))
        case Close => SetAndPut(s, i, x.(gate := Leaving(Close), endSent := true), StreamEnd))
    case StreamUnlock(i) => Set(s, i, x.(gate := Free, closed := x.closed || x.gate.op.Close?))
    case Release(i) => Set(s, i, x.(phase := Finished)).(shared := s.shared.Unlock(x.channel))
  }

  predicate IsRun(s: Net, run: seq<Label>)
    requires Sane(s)
    decreases |run|
  {
    run == [] || (Enabled(s, run[0]) && IsRun(Apply(s, run[0]), run[1..]))
  }

  function After(s: Net, run: seq<Label>): (r: Net)
    requires Sane(s) && IsRun(s, run)
    ensures Sane(r) && |r.senders| == |s.senders| && |r.shared.locks| == |s.shared.locks|
    decreases |run|
  {
    if run == [] then s else After(Apply(s, run[0]), run[1..])
  }

  datatype Job = Job(draft: Draft, piped: bool)

  function Fresh(j: Job): Sender {
    Sender(j.draft, j.piped, Start, 0, Absent, false, false, [], false, 0)
  }

  function Launch(jobs: seq<Job>, channels: nat): Net {
    Net(Shared([], 0, seq(channels, _ => false)), seq(|jobs|, i requires 0 <= i < |jobs| => Fresh(jobs[i])), [])
  }

  // What every step keeps.

  ghost predicate SenderOk(x: Sender) {
    && (x.phase == Start ==> x.gate == Absent)
    && (!x.Begun() ==> !x.dataSent)
    && (x.phase in {Start, Obtained, HeaderSent} ==> x.streamed == [] && !x.endSent && !x.closed)
    && (x.phase in {Obtained, HeaderSent} ==> x.gate == if x.HasPipe() then Held else Absent)
    && (x.phase in {Waiting, Finished} ==>
          if x.HasPipe() then x.gate.Free? || x.gate.Entered? || x.gate.Leaving?
          else x.gate == Absent && x.streamed == [] && x.endSent == x.draft.hasStream)
    && (x.gate.Free? || x.gate.Entered? ==> x.endSent == x.closed)
    && (x.gate.Leaving? ==> x.endSent == x.gate.op.Close? && !x.closed)
    && (!x.draft.hasStream ==> x.streamed == [] && !x.endSent)
    && (x.dataSent ==> x.draft.data != [])
    && (x.phase == Finished ==> x.PartsSent())
    && (x.Holds() ==> !x.Fast())
  }

  /** The senders that have begun are exactly those in the order, each in its own place, and the
      receiver's log holds what they have sent. */
  ghost predicate OrderOk(senders: seq<Sender>, order: seq<nat>, log: seq<Entry>) {
    && |log| == |order|
    && (forall i :: 0 <= i < |senders| && senders[i].Begun() ==> senders[i].slot < |order|)
    && (forall i, k :: 0 <= i < |senders| && 0 <= k < |order| && senders[i].Begun() && senders[i].slot == k ==> order[k] == i)
    && (forall k :: 0 <= k < |order| ==>
          && order[k] < |senders|
          && senders[order[k]].Begun() && senders[order[k]].slot == k
          && log[k] == senders[order[k]].Sent())
  }

  /** No two senders hold the same channel, and a channel is locked exactly if a sender holds it. */
  ghost predicate HoldersOk(senders: seq<Sender>, locks: seq<bool>) {
    && (forall i :: 0 <= i < |senders| && senders[i].Holds() ==> senders[i].channel < |locks| && locks[senders[i].channel])
    && (forall i, j :: 0 <= i < |senders| && 0 <= j < |senders| && i != j && senders[i].Holds() && senders[j].Holds() ==>
          senders[i].channel != senders[j].channel)
    && (forall c :: 0 <= c < |locks| && locks[c] ==> IsHeld(senders, c))
  }

  ghost predicate IsHeld(senders: seq<Sender>, c: nat) {
    exists i :: 0 <= i < |senders| && senders[i].Holds() && senders[i].channel == c
  }

  /** A channel the receiver expects parts on is held by the sender of those parts; nothing is left
      in its header reader. */
  ghost predicate BusyOk(senders: seq<Sender>, order: seq<nat>, channels: seq<Channel>) {
    forall c :: 0 <= c < |channels| ==>
      channels[c] == Idle([]) ||
      (channels[c].Busy? && channels[c].index < |order| && order[channels[c].index] < |senders|
       && senders[order[channels[c].index]].Holds() && senders[order[channels[c].index]].channel == c)
  }

  /** The receiver that has read everything written so far holds exactly what was sent: it is at
      the writer's current channel and has delivered the messages whose headers are out, in their
      order, with the parts that are out. */
  ghost predicate InStep(s: Net, st: State) {
    && Sane(s)
    && WellFormed(st) && st.mode.AtSignature?
    && st.current == s.shared.current && |s.shared.locks| <= |st.channels|
    && (forall i :: 0 <= i < |s.senders| ==> SenderOk(s.senders[i]))
    && OrderOk(s.senders, s.order, st.log)
    && HoldersOk(s.senders, s.shared.locks)
    && BusyOk(s.senders, s.order, st.channels) && Once(st)
  }

  /** A channel nobody holds is idle at the receiver. */
  lemma FreeIsIdle(s: Net, st: State, c: nat)
    requires InStep(s, st) && c < |s.shared.locks| && !s.shared.locks[c]
    ensures st.channels[c] == Idle([])
  {
  }

  /** A busy channel's message is that of the channel's holder. */
  lemma BusyIsHolders(s: Net, st: State, i: nat)
    requires InStep(s, st) && i < |s.senders| && s.senders[i].Holds()
    requires st.channels[s.senders[i].channel].Busy?
    ensures s.senders[i].Begun() && st.channels[s.senders[i].channel].index == s.senders[i].slot
  {
  }

  /** A channel whose holder has not begun is idle too. */
  lemma ObtainedIsIdle(s: Net, st: State, i: nat)
    requires InStep(s, st) && i < |s.senders| && s.senders[i].phase == Obtained
    ensures st.channels[s.senders[i].channel] == Idle([])
  {
    if st.channels[s.senders[i].channel].Busy? {
      BusyIsHolders(s, st, i);
    }
  }

  /** A sender with a part to send finds the receiver waiting for it. */
  lemma SenderIsAwaited(s: Net, st: State, i: nat)
    requires InStep(s, st) && i < |s.senders| && s.senders[i].Holds() && s.senders[i].Begun()
    requires !s.senders[i].Sent().Done()
    ensures var k := s.senders[i].slot;
            k < |st.log| && st.channels[s.senders[i].channel] == Busy(k, [], UsualFeed(st.log[k].header.dataSize))
            && st.log[k] == s.senders[i].Sent()
  {
    var k, c := s.senders[i].slot, s.senders[i].channel;
    assert s.order[k] == i && EntryConsistent(st.channels, st.log, k);
    assert ChannelConsistent(st.channels, st.log, c);
  }

  // Steps that write nothing.

  lemma OrderKept(senders: seq<Sender>, order: seq<nat>, log: seq<Entry>, i: nat, x: Sender)
    requires OrderOk(senders, order, log) && i < |senders|
    requires x.Begun() == senders[i].Begun()
    requires (x.Begun() ==> x.slot == senders[i].slot && x.Sent() == senders[i].Sent())
    ensures OrderOk(senders[i := x], order, log)
  {
  }

  /** A sender that keeps its channel, or its lack of one. */
  lemma StayStep(s: Net, st: State, i: nat, x: Sender)
    requires InStep(s, st) && i < |s.senders| && SenderOk(x)
    requires x.draft == s.senders[i].draft && x.channel == s.senders[i].channel && x.slot == s.senders[i].slot
    requires x.Begun() == s.senders[i].Begun() && x.Holds() == s.senders[i].Holds() && x.Sent() == s.senders[i].Sent()
    ensures InStep(Set(s, i, x), st)
  {
    OrderKept(s.senders, s.order, st.log, i, x);
    HoldersMove(s.senders, s.shared.locks, i, x);
  }

  lemma ObtainStep(s: Net, st: State, i: nat, c: nat)
    requires InStep(s, st) && Enabled(s, Obtain(i, c))
    ensures InStep(Apply(s, Obtain(i, c)), st)
  {
    var x := Apply(s, Obtain(i, c)).senders[i];
    OrderKept(s.senders, s.order, st.log, i, x);
    FreeIsIdle(s, st, x.channel);
    HoldersJoin(s.senders, s.shared.locks, i, x);
  }

  /** By the time a sender gives its channel back, the receiver is done with the channel. */
  lemma ReleasedIsIdle(s: Net, st: State, i: nat)
    requires InStep(s, st) && Enabled(s, Release(i))
    ensures st.channels[s.senders[i].channel] == Idle([])
  {
    var x := s.senders[i];
    assert s.order[x.slot] == i && st.log[x.slot] == x.Sent() && x.Sent().Done();
    if st.channels[x.channel].Busy? {
      BusyIsHolders(s, st, i);
      assert ChannelConsistent(st.channels, st.log, x.channel);
    }
  }

  lemma HoldersKept(senders: seq<Sender>, locks: seq<bool>, i: nat, x: Sender)
    requires HoldersOk(senders, locks) && i < |senders| && senders[i].Holds() && !x.Holds()
    ensures HoldersOk(senders[i := x], locks[senders[i].channel := false])
  {
    forall c | 0 <= c < |locks| && locks[c] && c != senders[i].channel ensures IsHeld(senders[i := x], c) {
      StillHeld(senders, i, x, c);
    }
  }

  lemma HoldersJoin(senders: seq<Sender>, locks: seq<bool>, i: nat, x: Sender)
    requires HoldersOk(senders, locks) && i < |senders| && !senders[i].Holds() && x.Holds()
    requires x.channel < |locks| && !locks[x.channel]
    ensures HoldersOk(senders[i := x], locks[x.channel := true])
  {
    assert senders[i := x][i].Holds() && IsHeld(senders[i := x], x.channel);
    forall c | 0 <= c < |locks| && locks[c] ensures IsHeld(senders[i := x], c) {
      StillHeld(senders, i, x, c);
    }
  }

  lemma ReleaseStep(s: Net, st: State, i: nat)
    requires InStep(s, st) && Enabled(s, Release(i))
    ensures InStep(Apply(s, Release(i)), st)
  {
    hide WellFormed;
    var x := s.senders[i];
    var y := x.(phase := Finished);
    ReleasedIsIdle(s, st, i);
    OrderKept(s.senders, s.order, st.log, i, y);
    HoldersKept(s.senders, s.shared.locks, i, y);
    assert BusyOk(s.senders[i := y], s.order, st.channels);
  }

  // Steps that write.

  lemma OrderGrows(senders: seq<Sender>, order: seq<nat>, log: seq<Entry>, i: nat, x: Sender)
    requires OrderOk(senders, order, log) && i < |senders|
    requires !senders[i].Begun() && x.Begun() && x.slot == |order|
    ensures OrderOk(senders[i := x], order + [i], log + [x.Sent()])
  {
  }

  lemma OrderMoves(senders: seq<Sender>, order: seq<nat>, log: seq<Entry>, i: nat, x: Sender)
    requires OrderOk(senders, order, log) && i < |senders|
    requires senders[i].Begun() && x.Begun() && x.slot == senders[i].slot
    ensures x.slot < |log| && OrderOk(senders[i := x], order, log[x.slot := x.Sent()])
  {
  }

  lemma HoldersMove(senders: seq<Sender>, locks: seq<bool>, i: nat, x: Sender)
    requires HoldersOk(senders, locks) && i < |senders|
    requires x.Holds() == senders[i].Holds() && (x.Holds() ==> x.channel == senders[i].channel)
    ensures HoldersOk(senders[i := x], locks)
  {
    forall c | 0 <= c < |locks| && locks[c] ensures IsHeld(senders[i := x], c) {
      StillHeld(senders, i, x, c);
    }
  }

  /** Another sender's channel stays held, and so does one's own if it is kept. */
  lemma StillHeld(senders: seq<Sender>, i: nat, x: Sender, c: nat)
    requires i < |senders| && IsHeld(senders, c)
    requires senders[i].Holds() && senders[i].channel == c ==> x.Holds() && x.channel == c
    ensures IsHeld(senders[i := x], c)
  {
    var j :| 0 <= j < |senders| && senders[j].Holds() && senders[j].channel == c;
    assert senders[i := x][j].Holds() && senders[i := x][j].channel == c;
  }

  lemma BusyGrows(senders: seq<Sender>, order: seq<nat>, channels: seq<Channel>, i: nat, x: Sender)
    requires BusyOk(senders, order, channels) && i < |senders| && !senders[i].Begun() && x.channel < |channels|
    requires forall k :: 0 <= k < |order| ==> order[k] != i
    ensures !x.Holds() ==> BusyOk(senders[i := x], order + [i], channels[x.channel := Idle([])])
    ensures forall feed :: x.Holds() ==> BusyOk(senders[i := x], order + [i], channels[x.channel := Busy(|order|, [], feed)])
  {
  }

  /** The facts that put a net and a receiver in step after a write. */
  lemma InStepAfterPut(s: Net, i: nat, x: Sender, order: seq<nat>, packet: seq<byte>, st: State)
    requires Sane(s) && i < |s.senders| && x.draft.Readable() && x.channel < |s.shared.locks| <= |st.channels|
    requires (forall j :: 0 <= j < |s.senders| ==> SenderOk(s.senders[j])) && SenderOk(x)
    requires WellFormed(st) && st.mode.AtSignature? && st.current == x.channel && Once(st)
    requires OrderOk(s.senders[i := x], order, st.log)
    requires HoldersOk(s.senders[i := x], s.shared.locks)
    requires BusyOk(s.senders[i := x], order, st.channels)
    ensures InStep(Net(s.shared.PutAt(x.channel, packet), s.senders[i := x], order), st)
  {
  }

  lemma HeaderArrives(st: State, d: Draft, e: Entry)
    requires WellFormed(st) && st.mode.AtSignature? && d.Valid() && e.channel < |st.channels|
    requires e.channel < MAX_CHANNELS
    requires st.channels[e.channel] == Idle([])
    requires e == Entry(e.channel, d.expectsResponse, d.hasStream, HeaderOf(d), [], [], false, false)
    ensures var c := if d.data == [] && !d.hasStream then Idle([]) else Busy(|st.log|, [], UsualFeed(|d.data|));
            var st' := State(e.channel, st.channels[e.channel := c], st.log + [e], st.handed + [|st.log|], AtSignature);
            Run(st, Emit(st.current, e.channel, Encode(Message(d)))) == st' && WellFormed(st')
  {
    hide Run, Encode, Emit;
    EmitArrives(st, e.channel, Message(d));
    assert Arrive(st, e.channel, Message(d)) == Deliver(st.(current := e.channel), d.expectsResponse, d.hasStream, HeaderOf(d));
  }

  /** A header goes out on a channel that is idle at the receiver. */
  lemma HeaderStep(s: Net, st: State, i: nat, x: Sender)
    requires InStep(s, st) && i < |s.senders| && !s.senders[i].Begun()
    requires x.draft == s.senders[i].draft && x.channel < |s.shared.locks| && SenderOk(x) && x.Begun()
    requires !x.dataSent && x.streamed == [] && !x.endSent
    requires if x.Holds() then s.senders[i].Holds() && x.channel == s.senders[i].channel else x.Fast()
    requires st.channels[x.channel] == Idle([])
    ensures var s' := SetAndBegin(s, i, x);
            s'.shared.wire == s.shared.wire + Emit(st.current, x.channel, Encode(Message(x.draft)))
            && InStep(s', Run(st, Emit(st.current, x.channel, Encode(Message(x.draft)))))
  {
    var y := x.(slot := |s.order|);
    HeaderArrives(st, x.draft, y.Sent());
    OrderGrows(s.senders, s.order, st.log, i, y);
    HoldersMove(s.senders, s.shared.locks, i, y);
    BusyGrows(s.senders, s.order, st.channels, i, y);
    InStepAfterPut(s, i, y, s.order + [i], Encode(Message(x.draft)), Run(st, Emit(st.current, x.channel, Encode(Message(x.draft)))));
  }

  lemma BusyMoves(senders: seq<Sender>, order: seq<nat>, channels: seq<Channel>, i: nat, x: Sender, c: Channel)
    requires BusyOk(senders, order, channels) && i < |senders| && senders[i].Holds() && x.Holds()
    requires x.channel == senders[i].channel < |channels| && (c == Idle([]) || c == channels[x.channel])
    ensures BusyOk(senders[i := x], order, channels[x.channel := c])
  {
  }

  /** What the next part of a send is, given what has been sent. */
  predicate IsNextPart(e: Entry, e': Entry, p: Packet) {
    match p
    case Message(_) => false
    case Data(b) => !e.DataDone() && |b| == e.header.dataSize && e.data == [] && e' == e.(data := b)
    case Stream(b) => !e.StreamDone() && e' == e.(stream := e.stream + b)
    case StreamEnd => !e.StreamDone() && e' == e.(streamEnded := true)
  }

  lemma PartArrives(st: State, channel: nat, k: nat, p: Packet, e': Entry)
    requires WellFormed(st) && st.mode.AtSignature? && p.Readable() && channel < |st.channels| && channel < MAX_CHANNELS
    requires k < |st.log| && st.channels[channel] == Busy(k, [], UsualFeed(st.log[k].header.dataSize))
    requires IsNextPart(st.log[k], e', p)
    ensures var c := if e'.Done() then Idle([]) else st.channels[channel];
            var st' := State(channel, st.channels[channel := c], st.log[k := e'], st.handed, AtSignature);
            Run(st, Emit(st.current, channel, Encode(p))) == st' && WellFormed(st')
  {
    hide Run, Encode, Emit;
    assert p.Data? ==> [] + p.bytes == p.bytes;
    EmitArrives(st, channel, p);
    var there := st.(current := channel);
    assert Arrive(st, channel, p) == Record(there, e', UsualFeed(e'.header.dataSize));
  }

  /** A part goes out from a sender that is awaited. */
  lemma PartStep(s: Net, st: State, i: nat, x: Sender, p: Packet)
    requires InStep(s, st) && i < |s.senders| && s.senders[i].Holds() && s.senders[i].Begun() && p.Readable()
    requires x.draft == s.senders[i].draft && x.channel == s.senders[i].channel && x.slot == s.senders[i].slot
    requires SenderOk(x) && x.Holds() && x.Begun() && IsNextPart(s.senders[i].Sent(), x.Sent(), p)
    ensures var s' := SetAndPut(s, i, x, p);
            s'.shared.wire == s.shared.wire + Emit(st.current, x.channel, Encode(p))
            && InStep(s', Run(st, Emit(st.current, x.channel, Encode(p))))
  {
    SenderIsAwaited(s, st, i);
    PartArrives(st, x.channel, x.slot, p, x.Sent());
    OrderMoves(s.senders, s.order, st.log, i, x);
    HoldersMove(s.senders, s.shared.locks, i, x);
    BusyMoves(s.senders, s.order, st.channels, i, x,
              if x.Sent().Done() then Idle([]) else st.channels[x.channel]);
    InStepAfterPut(s, i, x, s.order, Encode(p), Run(st, Emit(st.current, x.channel, Encode(p))));
  }

  function Written(s: Net, l: Label): seq<byte>
    requires Sane(s) && Enabled(s, l)
  {
    Apply(s, l).shared.wire[|s.shared.wire|..]
  }

  lemma SendStep(s: Net, st: State, l: Label)
    requires InStep(s, st) && Enabled(s, l) && (l.SendFast? || l.SendHeader? || l.SendData?)
    ensures Apply(s, l).shared.wire == s.shared.wire + Written(s, l)
    ensures InStep(Apply(s, l), Run(st, Written(s, l)))
  {
    var i, x := l.i, s.senders[l.i];
    match l
    case SendFast(_, c) =>
      FreeIsIdle(s, st, c);
      HeaderStep(s, st, i, x.(phase := Finished, channel := c));
    case SendHeader(_) =>
      ObtainedIsIdle(s, st, i);
      HeaderStep(s, st, i, x.(phase := HeaderSent));
    case SendData(_) => PartStep(s, st, i, x.(dataSent := true), Data(x.draft.data));
  }

  lemma StreamStep(s: Net, st: State, l: Label)
    requires InStep(s, st) && Enabled(s, l) && (l.StartStream? || l.StreamAct?)
    ensures Apply(s, l).shared.wire == s.shared.wire + Written(s, l)
    ensures InStep(Apply(s, l), Run(st, Written(s, l)))
  {
    var i, x := l.i, s.senders[l.i];
    if l.StartStream? {
      if x.HasPipe() { StayStep(s, st, i, x.(phase := Waiting, gate := Free)); }
      else if x.draft.hasStream { PartStep(s, st, i, x.(phase := Waiting, endSent := true), StreamEnd); }
      else { StayStep(s, st, i, x.(phase := Waiting)); }
    } else if x.closed {
      StayStep(s, st, i, x.(gate := Free));
    } else {
      match x.gate.op
      case Write(b) => PartStep(s, st, i, x.(gate := Leaving(x.gate.op), streamed := x.streamed + b), Stream(b));
      case Close => PartStep(s, st, i, x.(gate := Leaving(Close), endSent := true), StreamEnd);
    }
  }

  /** One step: whatever it writes, the receiver that reads it stays in step. */
  lemma StepInStep(s: Net, st: State, l: Label)
    requires InStep(s, st) && Enabled(s, l)
    ensures Apply(s, l).shared.wire == s.shared.wire + Written(s, l)
    ensures InStep(Apply(s, l), Run(st, Written(s, l)))
  {
    var i, x := l.i, s.senders[l.i];
    match l
    case Obtain(_, c) => ObtainStep(s, st, i, c);
    case StreamLock(_, op) => StayStep(s, st, i, x.(gate := Entered(op)));
    case StreamUnlock(_) => StayStep(s, st, i, x.(gate := Free, closed := x.closed || x.gate.op.Close?));
    case Release(_) => ReleaseStep(s, st, i);
    case SendFast(_, _) => SendStep(s, st, l);
    case SendHeader(_) => SendStep(s, st, l);
    case SendData(_) => SendStep(s, st, l);
    case StartStream(_) => StreamStep(s, st, l);
    case StreamAct(_) => StreamStep(s, st, l);
  }

  // What every run keeps.

  lemma {:induction false} RunInStep(s: Net, st: State, run: seq<Label>) returns (written: seq<byte>)
    requires Sane(s) && InStep(s, st) && IsRun(s, run)
    ensures After(s, run).shared.wire == s.shared.wire + written
    ensures InStep(After(s, run), Run(st, written))
    decreases |run|
  {
    hide Apply, InStep, Enabled, Sane;
    if run == [] {
      written := [];
    } else {
      var first := Written(s, run[0]);
      StepInStep(s, st, run[0]);
      var rest := RunInStep(Apply(s, run[0]), Run(st, first), run[1..]);
      RunConcat(st, first, rest);
      written := first + rest;
    }
  }

  ghost predicate IsStart(jobs: seq<Job>, channels: nat, accepted: nat) {
    1 <= channels <= MAX_CHANNELS && channels <= accepted && forall i :: 0 <= i < |jobs| ==> jobs[i].draft.Readable()
  }

  lemma StartIsSane(jobs: seq<Job>, channels: nat, accepted: nat)
    requires IsStart(jobs, channels, accepted)
    ensures Sane(Launch(jobs, channels))
  {
  }

  lemma StartInStep(jobs: seq<Job>, channels: nat, accepted: nat)
    requires IsStart(jobs, channels, accepted)
    ensures InStep(Launch(jobs, channels), Init(accepted))
  {
    InitWellFormed(accepted);
  }

  /** At every point of every run, a receiver that accepts at least the writer's channels and has
      read everything written so far is in step with the senders. */
  lemma AlwaysInStep(jobs: seq<Job>, channels: nat, accepted: nat, run: seq<Label>)
    requires IsStart(jobs, channels, accepted) && Sane(Launch(jobs, channels)) && IsRun(Launch(jobs, channels), run)
    ensures var s := After(Launch(jobs, channels), run); InStep(s, Parse(accepted, s.shared.wire))
  {
    StartInStep(jobs, channels, accepted);
    var written := RunInStep(Launch(jobs, channels), Init(accepted), run);
    assert [] + written == written;
  }

  /** Omitted switch packets never misroute, and no packet comes to a channel that cannot take it:
      the receiver is at the writer's current channel and has not failed, now or at any earlier
      point of the wire. */
  lemma ReceiverNeverFails(jobs: seq<Job>, channels: nat, accepted: nat, run: seq<Label>, cut: nat)
    requires IsStart(jobs, channels, accepted) && Sane(Launch(jobs, channels)) && IsRun(Launch(jobs, channels), run)
    requires cut <= |After(Launch(jobs, channels), run).shared.wire|
    ensures var s := After(Launch(jobs, channels), run);
            && Parse(accepted, s.shared.wire).current == s.shared.current
            && !Parse(accepted, s.shared.wire[..cut]).mode.Failed?
  {
    var wire := After(Launch(jobs, channels), run).shared.wire;
    AlwaysInStep(jobs, channels, accepted, run);
    assert wire == wire[..cut] + wire[cut..];
    RunConcat(Init(accepted), wire[..cut], wire[cut..]);
    if Parse(accepted, wire[..cut]).mode.Failed? {
      RunFailed(Parse(accepted, wire[..cut]), wire[cut..]);
    }
  }

  /** Whenever a channel's lock is free, the receiver has that channel idle. */
  lemma FreeChannelsAreIdle(jobs: seq<Job>, channels: nat, accepted: nat, run: seq<Label>, c: nat)
    requires IsStart(jobs, channels, accepted) && Sane(Launch(jobs, channels)) && IsRun(Launch(jobs, channels), run)
    requires c < channels && !After(Launch(jobs, channels), run).shared.locks[c]
    ensures var st := Parse(accepted, After(Launch(jobs, channels), run).shared.wire);
            c < |st.channels| && st.channels[c] == Idle([])
  {
    AlwaysInStep(jobs, channels, accepted, run);
    var s := After(Launch(jobs, channels), run);
    FreeIsIdle(s, Parse(accepted, s.shared.wire), c);
  }

  /** No two senders hold the same channel at the same time, and what is held is locked. */
  lemma ChannelsAreExclusive(jobs: seq<Job>, channels: nat, run: seq<Label>, i: nat, j: nat)
    requires IsStart(jobs, channels, channels) && Sane(Launch(jobs, channels)) && IsRun(Launch(jobs, channels), run)
    requires i < |jobs| && j < |jobs| && i != j
    ensures var s := After(Launch(jobs, channels), run);
            s.senders[i].Holds() ==>
              && s.senders[i].channel < channels && s.shared.locks[s.senders[i].channel]
              && (s.senders[j].Holds() ==> s.senders[i].channel != s.senders[j].channel)
  {
    AlwaysInStep(jobs, channels, channels, run);
  }

  lemma JobStays(s: Net, l: Label, i: nat)
    requires Sane(s) && Enabled(s, l) && i < |s.senders|
    ensures Apply(s, l).senders[i].draft == s.senders[i].draft && Apply(s, l).senders[i].piped == s.senders[i].piped
  {
    hide Encode, Emit;
  }

  /** Steps leave what was asked for as it was. */
  lemma {:induction false} JobsStay(s: Net, run: seq<Label>, i: nat)
    requires Sane(s) && IsRun(s, run) && i < |s.senders|
    ensures After(s, run).senders[i].draft == s.senders[i].draft && After(s, run).senders[i].piped == s.senders[i].piped
    decreases |run|
  {
    hide Apply;
    if run != [] {
      JobStays(s, run[0], i);
      JobsStay(Apply(s, run[0]), run[1..], i);
    }
  }

  lemma {:induction false} DistinctCount(order: seq<nat>)
    requires forall j, k :: 0 <= j < k < |order| ==> order[j] != order[k]
    ensures |set k | 0 <= k < |order| :: order[k]| == |order|
    decreases |order|
  {
    if order != [] {
      var n := |order| - 1;
      var front := order[..n];
      DistinctCount(front);
      assert (set k | 0 <= k < |order| :: order[k]) == (set k | 0 <= k < |front| :: front[k]) + {order[n]};
    }
  }

  function Below(n: nat): (r: set<nat>)
    ensures |r| == n && forall k: nat :: k in r <==> k < n
  {
    if n == 0 then {} else Below(n - 1) + {n - 1}
  }

  /** The order in which the headers of the senders were written. */
  ghost predicate IsArrangement(order: seq<nat>, n: nat) {
    && |order| == n
    && (forall k :: 0 <= k < n ==> order[k] < n)
    && (forall j, k :: 0 <= j < k < n ==> order[j] != order[k])
  }

  /** What a stream's users have asked for so far: the bytes of their writes in the order in which
      they got the mutex, up to the first close. */
  datatype Asked = Asked(bytes: seq<byte>, closed: bool)

  function Ask(a: Asked, l: Label, i: nat): Asked {
    if a.closed then a
    else match l
      case StreamLock(j, Write(b)) => if j == i then Asked(a.bytes + b, false) else a
      case StreamLock(j, Close) => if j == i then Asked(a.bytes, true) else a
      case _ => a
  }

  function AskedAfter(a: Asked, run: seq<Label>, i: nat): Asked
    decreases |run|
  {
    if run == [] then a else AskedAfter(Ask(a, run[0], i), run[1..], i)
  }

  /** The bytes that the run's user of sender i writes before closing. */
  function AskedOf(run: seq<Label>, i: nat): seq<byte> { AskedAfter(Asked([], false), run, i).bytes }

  /** What has been put on the wire lags behind what was asked by at most the user at the mutex. */
  ghost predicate Accounted(x: Sender, a: Asked) {
    match x.gate
    case Entered(Write(b)) => if x.closed then a == Asked(x.streamed, true) else a == Asked(x.streamed + b, false)
    case Entered(Close) => a == Asked(x.streamed, true)
    case Leaving(op) => a == Asked(x.streamed, op.Close?)
    case _ => a == Asked(x.streamed, x.closed)
  }

  lemma StepAccounted(s: Net, l: Label, i: nat, a: Asked)
    requires Sane(s) && Enabled(s, l) && i < |s.senders| && Accounted(s.senders[i], a) && SenderOk(s.senders[i])
    ensures Accounted(Apply(s, l).senders[i], Ask(a, l, i))
  {
    hide Encode, Emit, FirstFree, HeaderOf;
    var x, y := s.senders[i], Apply(s, l).senders[i];
    if l.i != i {
      assert y == x && Ask(a, l, i) == a;
    } else if !l.StreamLock? {
      assert Ask(a, l, i) == a;
    }
  }

  lemma {:induction false} RunAccounted(s: Net, st: State, run: seq<Label>, i: nat, a: Asked)
    requires Sane(s) && InStep(s, st) && IsRun(s, run) && i < |s.senders| && Accounted(s.senders[i], a)
    ensures Accounted(After(s, run).senders[i], AskedAfter(a, run, i))
    decreases |run|
  {
    hide Apply, Accounted, Enabled;
    if run != [] {
      assert SenderOk(s.senders[i]);
      StepAccounted(s, run[0], i, a);
      StepInStep(s, st, run[0]);
      RunAccounted(Apply(s, run[0]), Run(st, Written(s, run[0])), run[1..], i, Ask(a, run[0], i));
    }
  }

  /** A finished send has put exactly what its stream's users asked for on the wire. */
  lemma FinishedIsAccounted(jobs: seq<Job>, channels: nat, accepted: nat, run: seq<Label>, i: nat)
    requires IsStart(jobs, channels, accepted) && Sane(Launch(jobs, channels)) && IsRun(Launch(jobs, channels), run)
    requires i < |jobs| && After(Launch(jobs, channels), run).senders[i].phase == Finished
    ensures After(Launch(jobs, channels), run).senders[i].streamed == AskedOf(run, i)
  {
    var s := After(Launch(jobs, channels), run);
    StartInStep(jobs, channels, accepted);
    RunAccounted(Launch(jobs, channels), Init(accepted), run, i, Asked([], false));
    AlwaysInStep(jobs, channels, accepted, run);
    assert SenderOk(s.senders[i]);
  }

  /** What the receiver has of a send at any point of a run: the header and the data that were asked
      for, or no data yet, and the first of the bytes that the stream's users have asked for; all of
      them if the stream has ended. */
  lemma SentSoFar(jobs: seq<Job>, channels: nat, accepted: nat, run: seq<Label>, i: nat)
    requires IsStart(jobs, channels, accepted) && Sane(Launch(jobs, channels)) && IsRun(Launch(jobs, channels), run)
    requires i < |jobs|
    ensures var d, e := jobs[i].draft, After(Launch(jobs, channels), run).senders[i].Sent();
            && e.expectsResponse == d.expectsResponse && e.hasStream == d.hasStream && e.header == HeaderOf(d)
            && (e.data == [] || e.data == d.data) && !e.reread
            && e.stream <= AskedOf(run, i) && (e.streamEnded ==> e.stream == AskedOf(run, i))
  {
    hide Apply, Enabled;
    StartInStep(jobs, channels, accepted);
    RunAccounted(Launch(jobs, channels), Init(accepted), run, i, Asked([], false));
    JobsStay(Launch(jobs, channels), run, i);
    AlwaysInStep(jobs, channels, accepted, run);
    assert SenderOk(After(Launch(jobs, channels), run).senders[i]);
  }

  /** The message a receiver should end up with: all of the draft's data, and everything the
      stream's users wrote, up to its end. */
  function Received(j: Job, channel: nat, streamed: seq<byte>): Entry {
    Entry(channel, j.draft.expectsResponse, j.draft.hasStream, HeaderOf(j.draft), j.draft.data, streamed, j.draft.hasStream,
          false)
  }

  /** The multiplexing round trip: whatever is sent and however the senders' steps interleave,
      once they are done the receiver has exactly the sent messages, each handed over once, in the
      order their headers were written, with all their parts; all its channels are idle, and all the
      writer's locks are free. */
  lemma MultiplexRoundTrip(jobs: seq<Job>, channels: nat, accepted: nat, run: seq<Label>)
    requires IsStart(jobs, channels, accepted) && Sane(Launch(jobs, channels)) && IsRun(Launch(jobs, channels), run)
    requires forall i :: 0 <= i < |jobs| ==> After(Launch(jobs, channels), run).senders[i].phase == Finished
    ensures var s := After(Launch(jobs, channels), run);
            var st := Parse(accepted, s.shared.wire);
            && st.mode == AtSignature && Once(st)
            && (forall c :: 0 <= c < |st.channels| ==> st.channels[c] == Idle([]))
            && (forall c :: 0 <= c < channels ==> !s.shared.locks[c])
            && IsArrangement(s.order, |jobs|) && |st.log| == |jobs|
            && (forall k :: 0 <= k < |jobs| ==>
                  st.log[k] == Received(jobs[s.order[k]], s.senders[s.order[k]].channel, AskedOf(run, s.order[k])))
  {
    var s := After(Launch(jobs, channels), run);
    AlwaysInStep(jobs, channels, accepted, run);
    EveryoneInOrder(s, Parse(accepted, s.shared.wire));
    forall k | 0 <= k < |jobs|
      ensures s.senders[s.order[k]].Sent() == Received(jobs[s.order[k]], s.senders[s.order[k]].channel, AskedOf(run, s.order[k]))
    {
      JobsStay(Launch(jobs, channels), run, s.order[k]);
      FinishedIsAccounted(jobs, channels, accepted, run, s.order[k]);
      assert SenderOk(s.senders[s.order[k]]);
    }
  }

  /** With no more senders than channels, one that has not begun never has to wait for a channel. */
  lemma FreeChannelExists(jobs: seq<Job>, channels: nat, run: seq<Label>, i: nat) returns (c: nat)
    requires IsStart(jobs, channels, channels) && Sane(Launch(jobs, channels)) && IsRun(Launch(jobs, channels), run)
    requires |jobs| <= channels && i < |jobs| && !After(Launch(jobs, channels), run).senders[i].Holds()
    ensures IsFree(After(Launch(jobs, channels), run), c)
  {
    var s := After(Launch(jobs, channels), run);
    AlwaysInStep(jobs, channels, channels, run);
    if forall c :: 0 <= c < channels ==> s.shared.locks[c] {
      var holders := AllHeld(s.senders, s.shared.locks, channels);
      HoldersDiffer(s.senders, holders, i);
      assert false;
    }
    c :| 0 <= c < channels && !s.shared.locks[c];
  }

  /** Picks the holder of each of the first n channels. */
  lemma {:induction false} AllHeld(senders: seq<Sender>, locks: seq<bool>, n: nat) returns (holders: seq<nat>)
    requires HoldersOk(senders, locks) && n <= |locks| && forall c :: 0 <= c < n ==> locks[c]
    ensures |holders| == n
    ensures forall c :: 0 <= c < n ==>
              holders[c] < |senders| && senders[holders[c]].Holds() && senders[holders[c]].channel == c
    decreases n
  {
    if n == 0 {
      holders := [];
    } else {
      var front := AllHeld(senders, locks, n - 1);
      assert IsHeld(senders, n - 1);
      var j: nat :| j < |senders| && senders[j].Holds() && senders[j].channel == n - 1;
      holders := front + [j];
    }
  }

  /** Different channels have different holders, so they are fewer than the senders if one holds none. */
  lemma HoldersDiffer(senders: seq<Sender>, holders: seq<nat>, i: nat)
    requires i < |senders| && !senders[i].Holds()
    requires forall c :: 0 <= c < |holders| ==>
               holders[c] < |senders| && senders[holders[c]].Holds() && senders[holders[c]].channel == c
    ensures |holders| < |senders|
  {
    forall j, k | 0 <= j < k < |holders| ensures holders[j] != holders[k] {
      assert senders[holders[j]].channel == j && senders[holders[k]].channel == k;
    }
    DistinctCount(holders);
    var used := set k | 0 <= k < |holders| :: holders[k];
    assert used < Below(|senders|) by { assert i in Below(|senders|) && i !in used; }
    SmallerCount(used, Below(|senders|));
  }

  lemma {:induction false} SmallerCount(a: set<nat>, b: set<nat>)
    requires a < b
    ensures |a| < |b|
    decreases a
  {
    if a != {} {
      var x :| x in a;
      SmallerCount(a - {x}, b - {x});
    }
  }

  /** As many values as places, all different and all below that number. */
  lemma Arrangement(order: seq<nat>, n: nat)
    requires forall k :: 0 <= k < |order| ==> order[k] < n
    requires forall j, k :: 0 <= j < k < |order| ==> order[j] != order[k]
    requires forall i :: 0 <= i < n ==> i in order
    ensures IsArrangement(order, n)
  {
    var used := set k | 0 <= k < |order| :: order[k];
    forall i | i in Below(n) ensures i in used {
      assert i in order;
    }
    assert used == Below(n);
    DistinctCount(order);
  }

  lemma EveryoneInOrder(s: Net, st: State)
    requires InStep(s, st) && forall i :: 0 <= i < |s.senders| ==> s.senders[i].phase == Finished
    ensures IsArrangement(s.order, |s.senders|)
    ensures forall c :: 0 <= c < |st.channels| ==> st.channels[c] == Idle([])
    ensures forall c :: 0 <= c < |s.shared.locks| ==> !s.shared.locks[c]
  {
    forall i | 0 <= i < |s.senders| ensures i in s.order {
      assert s.order[s.senders[i].slot] == i;
    }
    Arrangement(s.order, |s.senders|);
  }
}
