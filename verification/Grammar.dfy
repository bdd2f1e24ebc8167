/** The order of packets on one channel, said without a receiver: messages one after another, each
    followed by its parts and nothing else, data and stream in any mix. */
module Grammar {
  import opened Bytes
  import opened Codec
  import opened Demux
  import opened RoundTrip
  import opened Channels
  import opened Multiplex

  /** Between messages, or inside one that still owes so many bytes of data or the end of its stream. */
  datatype Place = Between | Inside(due: nat, open: bool)

  function At(due: nat, open: bool): Place { if due == 0 && !open then Between else Inside(due, open) }

  /** The packets that may come next, and what they lead to: one Data packet of exactly the declared
      size, any number of Stream packets, one end of the stream. */
  function Next(p: Place, packet: Packet): Option<Place> {
    match packet
    case Message(d) => if p.Between? then Some(At(|d.data|, d.hasStream)) else None
    case Data(b) => if p.Inside? && p.due > 0 && |b| == p.due then Some(At(0, p.open)) else None
    case Stream(b) => if p.Inside? && p.open then Some(p) else None
    case StreamEnd => if p.Inside? && p.open then Some(At(p.due, false)) else None
  }

  function Walk(p: Place, packets: seq<Packet>): Option<Place>
    decreases |packets|
  {
    if packets == [] then Some(p)
    else match Next(p, packets[0])
      case None => None
      case Some(q) => Walk(q, packets[1..])
  }

  datatype Put = Put(channel: nat, packet: Packet)

  /** What a step puts on which channel. */
  function PutsOf(s: Net, l: Label): seq<Put>
    requires Sane(s) && Enabled(s, l)
  {
    var x := s.senders[l.i];
    match l
    case SendFast(_, c) => [Put(c, Message(x.draft))]
    case SendHeader(_) => [Put(x.channel, Message(x.draft))]
    case SendData(_) => [Put(x.channel, Data(x.draft.data))]
    case StartStream(_) => if x.draft.hasStream && !x.piped then [Put(x.channel, StreamEnd)] else []
    case StreamAct(_) =>
      if x.closed then []
      else (match x.gate.op
        case Write(b) => [Put(x.channel, Stream(b))]
        case Close => [Put(x.channel, StreamEnd)])
    case _ => []
  }

  /** It is what the step writes. */
  lemma PutsAreWritten(s: Net, l: Label)
    requires Sane(s) && Enabled(s, l)
    ensures |PutsOf(s, l)| <= 1
    ensures forall p :: p in PutsOf(s, l) ==> p.channel < MAX_CHANNELS && p.packet.Readable()
    ensures Apply(s, l).shared.wire
         == s.shared.wire + if PutsOf(s, l) == [] then []
                            else Emit(s.shared.current, PutsOf(s, l)[0].channel, Encode(PutsOf(s, l)[0].packet))
  {
    hide Encode, Emit;
    assert s.shared.wire + [] == s.shared.wire;
  }

  function History(s: Net, run: seq<Label>): seq<Put>
    requires Sane(s) && IsRun(s, run)
    decreases |run|
  {
    if run == [] then [] else PutsOf(s, run[0]) + History(Apply(s, run[0]), run[1..])
  }

  // The wire as a whole: packets, and switches between them.

  datatype Unit = Switch(channel: nat) | Whole(packet: Packet)

  /** A switch goes before a packet exactly where the channel changes. */
  function Units(current: nat, puts: seq<Put>): seq<Unit>
    decreases |puts|
  {
    if puts == [] then []
    else
      var Put(channel, packet) := puts[0];
      (if channel == current then [] else [Switch(channel)]) + [Whole(packet)] + Units(channel, puts[1..])
  }

  predicate CanPut(puts: seq<Put>) { forall k :: 0 <= k < |puts| ==> puts[k].channel < MAX_CHANNELS && puts[k].packet.Valid() }

  predicate CanSpell(units: seq<Unit>) {
    forall k :: 0 <= k < |units| ==> if units[k].Switch? then units[k].channel < MAX_CHANNELS else units[k].packet.Valid()
  }

  function Spelled(units: seq<Unit>): seq<byte>
    requires CanSpell(units)
    decreases |units|
  {
    if units == [] then []
    else (if units[0].Switch? then SwitchPacket(units[0].channel) else Encode(units[0].packet)) + Spelled(units[1..])
  }

  lemma {:induction false} UnitsCanBeSpelled(current: nat, puts: seq<Put>)
    requires CanPut(puts)
    ensures CanSpell(Units(current, puts))
    decreases |puts|
  {
    if puts != [] { UnitsCanBeSpelled(puts[0].channel, puts[1..]); }
  }

  /** The channel that packets go to behind these units. */
  function InForce(current: nat, units: seq<Unit>): nat
    decreases |units|
  {
    if units == [] then current else InForce(if units[0].Switch? then units[0].channel else current, units[1..])
  }

  function Packets(units: seq<Unit>): seq<Packet>
    decreases |units|
  {
    if units == [] then [] else (if units[0].Whole? then [units[0].packet] else []) + Packets(units[1..])
  }

  /** A switch is to a channel that is not in force, for the packet right behind it; a packet, the next
      of those that were put, finds its own channel in force. */
  predicate IsNeeded(current: nat, puts: seq<Put>, units: seq<Unit>, k: nat)
    requires k < |units|
  {
    var now, j := InForce(current, units[..k]), |Packets(units[..k])|;
    if units[k].Switch? then k + 1 < |units| && units[k + 1].Whole? && units[k].channel != now
    else j < |puts| && now == puts[j].channel && units[k].packet == puts[j].packet
  }

  predicate IsChange(current: nat, puts: seq<Put>, j: nat)
    requires j < |puts|
  {
    puts[j].channel != if j == 0 then current else puts[j - 1].channel
  }

  /** The places where the channel changes. */
  function Changes(current: nat, puts: seq<Put>): set<nat> {
    set j: nat | j < |puts| && IsChange(current, puts, j)
  }

  /** The units are the packets in order, each while its own channel is in force, and the only switches
      are those that the packet right behind needs: none to the channel in force, none doubled and none
      at the end. So there are as many as there are changes of channel. */
  lemma {:induction false} SwitchesAreNeeded(current: nat, puts: seq<Put>)
    ensures var units := Units(current, puts);
            && |Packets(units)| == |puts| && |units| == |puts| + |Changes(current, puts)|
            && forall k :: 0 <= k < |units| ==> IsNeeded(current, puts, units, k)
    decreases |puts|
  {
    if puts != [] {
      var put, rest := puts[0], puts[1..];
      var v := Units(put.channel, rest);
      var lead := if put.channel == current then [Whole(put.packet)] else [Switch(put.channel), Whole(put.packet)];
      SwitchesAreNeeded(put.channel, rest);
      assert Units(current, puts) == lead + v;
      LeadIs(current, put, lead, v);
      ChangesSplit(current, puts);
      forall k | 0 <= k < |lead + v| ensures IsNeeded(current, puts, lead + v, k) {
        if k < |lead| {
          FirstUnits(current, puts, lead, v, k);
        } else {
          LaterUnits(current, puts, lead, v, k);
        }
      }
    }
  }

  lemma ChangesSplit(current: nat, puts: seq<Put>)
    requires puts != []
    ensures |Changes(current, puts)|
         == (if puts[0].channel == current then 0 else 1) + |Changes(puts[0].channel, puts[1..])|
  {
    var c, rest := puts[0].channel, puts[1..];
    var moved := set j | j in Changes(c, rest) :: j + 1;
    Shifted(Changes(c, rest), moved);
    var first: set<nat> := if c == current then {} else {0};
    forall j ensures j in Changes(current, puts) <==> j in first + moved {
      if 0 < j < |puts| { assert IsChange(current, puts, j) == IsChange(c, rest, j - 1); }
      if j in Changes(current, puts) && j > 0 { assert j - 1 in Changes(c, rest); }
    }
    assert Changes(current, puts) == first + moved;
  }

  lemma {:induction false} Shifted(a: set<nat>, b: set<nat>)
    requires forall j :: j in b <==> j > 0 && j - 1 in a
    ensures |b| == |a|
    decreases |a|
  {
    if a == {} {
      assert b == {};
    } else {
      var x :| x in a;
      assert x + 1 in b;
      Shifted(a - {x}, b - {x + 1});
    }
  }

  predicate IsLead(current: nat, put: Put, lead: seq<Unit>) {
    lead == if put.channel == current then [Whole(put.packet)] else [Switch(put.channel), Whole(put.packet)]
  }

  lemma LeadIs(current: nat, put: Put, lead: seq<Unit>, v: seq<Unit>)
    requires IsLead(current, put, lead)
    ensures InForce(current, lead + v) == InForce(put.channel, v) && Packets(lead + v) == [put.packet] + Packets(v)
  {
    if |lead| == 1 {
      assert (lead + v)[1..] == v;
    } else {
      assert (lead + v)[1..] == [lead[1]] + v && ([lead[1]] + v)[1..] == v;
    }
  }

  lemma FirstUnits(current: nat, puts: seq<Put>, lead: seq<Unit>, v: seq<Unit>, k: nat)
    requires puts != [] && IsLead(current, puts[0], lead) && k < |lead|
    ensures IsNeeded(current, puts, lead + v, k)
  {
    var u := lead + v;
    if k == 0 {
      assert u[..0] == [];
    } else {
      assert u[..1] == [lead[0]] && u[..1][1..] == [];
    }
  }

  lemma LaterUnits(current: nat, puts: seq<Put>, lead: seq<Unit>, v: seq<Unit>, k: nat)
    requires puts != [] && IsLead(current, puts[0], lead) && |lead| <= k < |lead + v|
    requires IsNeeded(puts[0].channel, puts[1..], v, k - |lead|)
    ensures IsNeeded(current, puts, lead + v, k)
  {
    hide InForce, Packets;
    var u := lead + v;
    assert u[..k] == lead + v[..k - |lead|] && u[k] == v[k - |lead|];
    LeadIs(current, puts[0], lead, v[..k - |lead|]);
    assert k + 1 < |u| ==> u[k + 1] == v[k - |lead| + 1];
  }

  /** What is on the wire is exactly those units: whatever the senders do, a switch is written for each
      change of channel and no other. */
  lemma {:induction false} WireIsUnits(s: Net, run: seq<Label>)
    requires Sane(s) && IsRun(s, run)
    ensures CanPut(History(s, run)) && CanSpell(Units(s.shared.current, History(s, run)))
    ensures After(s, run).shared.wire == s.shared.wire + Spelled(Units(s.shared.current, History(s, run)))
    decreases |run|
  {
    hide Apply, PutsOf, Enabled, Encode, SwitchPacket;
    if run == [] {
      assert s.shared.wire + [] == s.shared.wire;
    } else {
      var next, first := Apply(s, run[0]), PutsOf(s, run[0]);
      var rest := History(next, run[1..]);
      WireIsUnits(next, run[1..]);
      PutsAreWritten(s, run[0]);
      PutsMoveOn(s, run[0]);
      if first == [] {
        assert History(s, run) == rest;
      } else {
        var put := first[0];
        assert first == [put] && History(s, run) == [put] + rest && ([put] + rest)[1..] == rest;
        UnitsCanBeSpelled(s.shared.current, [put] + rest);
        SpellFirst(s.shared.current, put, rest);
        Joined(s.shared.wire, Emit(s.shared.current, put.channel, Encode(put.packet)), Spelled(Units(put.channel, rest)));
      }
    }
  }

  lemma Joined(a: seq<byte>, b: seq<byte>, c: seq<byte>)
    ensures a + b + c == a + (b + c)
  {
  }

  lemma SpellFirst(current: nat, put: Put, rest: seq<Put>)
    requires CanPut([put] + rest) && CanSpell(Units(current, [put] + rest)) && CanSpell(Units(put.channel, rest))
    ensures Spelled(Units(current, [put] + rest))
         == Emit(current, put.channel, Encode(put.packet)) + Spelled(Units(put.channel, rest))
  {
    hide Encode, SwitchPacket;
    var v := Units(put.channel, rest);
    var u := Units(current, [put] + rest);
    assert ([put] + rest)[1..] == rest;
    if put.channel == current {
      assert u == [Whole(put.packet)] + v && u[1..] == v;
    } else {
      assert u == [Switch(put.channel)] + ([Whole(put.packet)] + v);
      assert u[1..] == [Whole(put.packet)] + v && u[1..][1..] == v;
      Joined(SwitchPacket(put.channel), Encode(put.packet), Spelled(v));
    }
  }

  /** The writer's channel is that of the last packet. */
  lemma PutsMoveOn(s: Net, l: Label)
    requires Sane(s) && Enabled(s, l)
    ensures Apply(s, l).shared.current == if PutsOf(s, l) == [] then s.shared.current else PutsOf(s, l)[0].channel
  {
    hide Encode, Emit;
  }

  /** The packets of one channel. */
  function On(puts: seq<Put>, c: nat): seq<Packet> {
    if puts == [] then []
    else (if puts[0].channel == c then [puts[0].packet] else []) + On(puts[1..], c)
  }

  /** Where the receiver is on a channel. */
  function PlaceAt(st: State, c: nat): Place
    requires c < |st.channels|
  {
    match st.channels[c]
    case Busy(k, _, _) => if k < |st.log| then At(st.log[k].Due(), !st.log[k].StreamDone()) else Between
    case _ => Between
  }

  lemma OnOne(p: Put, c: nat)
    ensures On([p], c) == if p.channel == c then [p.packet] else []
  {
    assert On([p], c) == (if p.channel == c then [p.packet] else []) + On([], c);
  }

  lemma {:induction false} OnConcat(a: seq<Put>, b: seq<Put>, c: nat)
    ensures On(a + b, c) == On(a, c) + On(b, c)
    decreases |a|
  {
    if a == [] {
      assert a + b == b;
    } else {
      OnConcat(a[1..], b, c);
      assert (a + b)[1..] == a[1..] + b;
    }
  }

  lemma {:induction false} WalkConcat(p: Place, a: seq<Packet>, b: seq<Packet>)
    ensures Walk(p, a + b) == match Walk(p, a) case None => None case Some(q) => Walk(q, b)
    decreases |a|
  {
    if a == [] {
      assert a + b == b;
    } else {
      assert (a + b)[1..] == a[1..] + b;
      if Next(p, a[0]).Some? { WalkConcat(Next(p, a[0]).value, a[1..], b); }
    }
  }

  lemma WalkOne(p: Place, packet: Packet)
    ensures Walk(p, [packet]) == Next(p, packet)
  {
    if Next(p, packet).Some? { assert Walk(Next(p, packet).value, [packet][1..]) == Next(p, packet); }
  }

  /** A packet moves the receiver on its own channel as the grammar says, and nowhere else. */
  predicate Moves(st: State, st': State, channel: nat, packet: Packet, c: nat)
    requires c < |st.channels| == |st'.channels|
  {
    if c == channel then Next(PlaceAt(st, c), packet) == Some(PlaceAt(st', c)) else PlaceAt(st', c) == PlaceAt(st, c)
  }

  lemma HeaderMoves(st: State, d: Draft, e: Entry, c: nat)
    requires WellFormed(st) && st.mode.AtSignature? && d.Valid() && e.channel < |st.channels|
    requires e.channel < MAX_CHANNELS
    requires st.channels[e.channel] == Idle([]) && c < |st.channels|
    requires e == Entry(e.channel, d.expectsResponse, d.hasStream, HeaderOf(d), [], [], false, false)
    ensures var st' := Run(st, Emit(st.current, e.channel, Encode(Message(d))));
            |st'.channels| == |st.channels| && Moves(st, st', e.channel, Message(d), c)
  {
    hide Encode, Emit, Run;
    assert ChannelConsistent(st.channels, st.log, c);
    HeaderArrives(st, d, e);
  }

  lemma PartMoves(st: State, channel: nat, k: nat, p: Packet, e': Entry, c: nat)
    requires WellFormed(st) && st.mode.AtSignature? && p.Readable() && channel < |st.channels| && channel < MAX_CHANNELS
    requires k < |st.log| && st.channels[channel] == Busy(k, [], UsualFeed(st.log[k].header.dataSize))
    requires IsNextPart(st.log[k], e', p) && c < |st.channels|
    ensures var st' := Run(st, Emit(st.current, channel, Encode(p)));
            |st'.channels| == |st.channels| && Moves(st, st', channel, p, c)
  {
    hide Encode, Emit, Run;
    assert ChannelConsistent(st.channels, st.log, c) && ChannelConsistent(st.channels, st.log, channel);
    PartArrives(st, channel, k, p, e');
  }

  lemma SendMoves(s: Net, st: State, l: Label, c: nat)
    requires InStep(s, st) && Enabled(s, l) && (l.SendFast? || l.SendHeader?) && c < |st.channels|
    ensures var put := PutsOf(s, l)[0];
            var st' := Run(st, Emit(st.current, put.channel, Encode(put.packet)));
            |st'.channels| == |st.channels| && Moves(st, st', put.channel, put.packet, c)
  {
    var x, put := s.senders[l.i], PutsOf(s, l)[0];
    if l.SendFast? {
      FreeIsIdle(s, st, put.channel);
    } else {
      ObtainedIsIdle(s, st, l.i);
    }
    HeaderMoves(st, x.draft, Entry(put.channel, x.draft.expectsResponse, x.draft.hasStream, HeaderOf(x.draft), [], [], false, false), c);
  }

  lemma PartOfSenderMoves(s: Net, st: State, l: Label, c: nat)
    requires InStep(s, st) && Enabled(s, l) && (l.SendData? || l.StartStream? || l.StreamAct?) && c < |st.channels|
    requires PutsOf(s, l) != []
    ensures var put := PutsOf(s, l)[0];
            put.packet.Readable() && put.channel < MAX_CHANNELS &&
            var st' := Run(st, Emit(st.current, put.channel, Encode(put.packet)));
            |st'.channels| == |st.channels| && Moves(st, st', put.channel, put.packet, c)
  {
    hide Encode, Emit, Run, Moves;
    var x, p := s.senders[l.i], PutsOf(s, l)[0].packet;
    var e := x.Sent();
    SenderIsAwaited(s, st, l.i);
    var e' := match p
      case Data(b) => e.(data := b)
      case Stream(b) => e.(stream := e.stream + b)
      case _ => e.(streamEnded := true);
    PartMoves(st, x.channel, x.slot, p, e', c);
  }

  /** One step on one channel. */
  lemma StepWalks(s: Net, st: State, l: Label, c: nat)
    requires InStep(s, st) && Enabled(s, l) && c < |st.channels|
    ensures var st' := Run(st, Written(s, l));
            |st'.channels| == |st.channels| && Walk(PlaceAt(st, c), On(PutsOf(s, l), c)) == Some(PlaceAt(st', c))
  {
    hide Encode, Emit, Run, PutsOf, InStep, Apply, Enabled;
    CurrentAgrees(s, st);
    PutsAreWritten(s, l);
    if PutsOf(s, l) == [] {
      assert Written(s, l) == [];
      RunNothing(st);
    } else {
      var put := PutsOf(s, l)[0];
      assert PutsOf(s, l) == [put];
      OnOne(put, c);
      WalkOne(PlaceAt(st, c), put.packet);
      StepMoves(s, st, l, c);
    }
  }

  lemma RunNothing(st: State)
    ensures Run(st, []) == st
  {
  }

  lemma CurrentAgrees(s: Net, st: State)
    requires InStep(s, st)
    ensures st.current == s.shared.current && Sane(s)
  {
  }

  lemma StepMoves(s: Net, st: State, l: Label, c: nat)
    requires InStep(s, st) && Enabled(s, l) && c < |st.channels| && PutsOf(s, l) != []
    ensures var put := PutsOf(s, l)[0];
            put.packet.Readable() && put.channel < MAX_CHANNELS &&
            var st' := Run(st, Emit(st.current, put.channel, Encode(put.packet)));
            |st'.channels| == |st.channels| && Moves(st, st', put.channel, put.packet, c)
  {
    hide Encode, Emit, Run, InStep, Moves;
    CurrentAgrees(s, st);
    if l.SendFast? || l.SendHeader? {
      PutsAreWritten(s, l);
      SendMoves(s, st, l, c);
    } else {
      PartOfSenderMoves(s, st, l, c);
    }
  }

  lemma {:induction false} RunWalks(s: Net, st: State, run: seq<Label>, c: nat) returns (written: seq<byte>)
    requires Sane(s) && InStep(s, st) && IsRun(s, run) && c < |st.channels|
    ensures After(s, run).shared.wire == s.shared.wire + written && InStep(After(s, run), Run(st, written))
    ensures |Run(st, written).channels| == |st.channels|
    ensures Walk(PlaceAt(st, c), On(History(s, run), c)) == Some(PlaceAt(Run(st, written), c))
    decreases |run|
  {
    hide Apply, InStep, PutsOf, Enabled, PlaceAt;
    if run == [] {
      written := [];
    } else {
      var first := Written(s, run[0]);
      StepInStep(s, st, run[0]);
      StepWalks(s, st, run[0], c);
      var rest := RunWalks(Apply(s, run[0]), Run(st, first), run[1..], c);
      RunConcat(st, first, rest);
      OnConcat(PutsOf(s, run[0]), History(Apply(s, run[0]), run[1..]), c);
      WalkConcat(PlaceAt(st, c), On(PutsOf(s, run[0]), c), On(History(Apply(s, run[0]), run[1..]), c));
      written := first + rest;
    }
  }

  /** At every point of every run, the packets put on a channel follow the grammar, and a channel
      whose lock is free is between messages: a sender gives it back only when all its parts are
      on the wire. */
  lemma PacketsFollowGrammar(jobs: seq<Job>, channels: nat, run: seq<Label>, c: nat)
    requires IsStart(jobs, channels, channels) && Sane(Launch(jobs, channels)) && IsRun(Launch(jobs, channels), run)
    requires c < channels
    ensures var place := Walk(Between, On(History(Launch(jobs, channels), run), c));
            place.Some? && (!After(Launch(jobs, channels), run).shared.locks[c] ==> place == Some(Between))
  {
    hide Walk, On, History, Run;
    StartInStep(jobs, channels, channels);
    assert PlaceAt(Init(channels), c) == Between;
    var written := RunWalks(Launch(jobs, channels), Init(channels), run, c);
    var s := After(Launch(jobs, channels), run);
    if !s.shared.locks[c] {
      FreeIsIdle(s, Run(Init(channels), written), c);
    }
  }
}
