/** A Message packet may go on behind its message's header. While a part of the message is
    outstanding, the parser takes what follows for the same message's header and reads it over the
    fields that have been delivered (parser.go:151-160, parser_channel.go:159-161). This is exactly
    when a delivered header can still change. */
module ReadingOn {
  import opened Bytes
  import opened Codec
  import opened Demux
  import opened Runs

  /** The packet that the current channel is in has room for another id over that of message k. */
  predicate MayChange(st: State, k: nat) {
    && Attached(st) && Here(st).index == k
    && st.mode.InPayload? && st.mode.part == HeaderPart && |Here(st).got| + st.mode.left >= 17
  }

  lemma NothingReadYet(got: seq<byte>, left: nat)
    requires |got| < 17
    ensures !IdIn(got) && !ActionIn(got, left) && !DataIn(got, left) && !CountIn(got, left) && !SizeIn(got, left)
    ensures !Complete(got, left)
  {
  }

  /** Too little to overwrite anything leaves the message as it is. */
  lemma ShortRereadStays(st: State, got: seq<byte>, left: nat)
    requires Attached(st) && |got| < 17
    ensures var k, st' := Here(st).index, RereadSoFar(st, got, left);
            && st'.log == st.log[k := Active(st).(reread := true)]
            && Here(st') == Busy(k, got, Here(st).feed) && st'.mode == Rest(HeaderPart, left)
  {
    hide IdIn, ActionIn, DataIn, CountIn, SizeIn, Complete;
    NothingReadYet(got, left);
  }

  lemma StepStays(st: State, b: byte, k: nat)
    requires WellFormed(st) && k < |st.log| && !MayChange(st, k)
    ensures k < |Step(st, b).log| && Grew(st.log[k], Step(st, b).log[k]) && !MayChange(Step(st, b), k)
  {
    hide Overlay, Complete, DataIn, FilesSizeBroken, UsualFeed, FeedInto, SizeFieldWidth, Value, HeaderByte, Begin,
      Consistent, Unfinished;
    match st.mode {
      case AtSignature =>
      case AtChannelLow(high) =>
      case AtSize(signature, got) => BeginStays(st, signature, Value(got + [b]), k);
      case InPayload(part, left) => if part == HeaderPart { HeaderByteStays(st, left - 1, b, k); }
      case Failed(_) =>
    }
  }

  lemma BeginStays(st: State, signature: byte, size: nat, k: nat)
    requires WellFormed(st) && k < |st.log| && st.mode.AtSize?
    ensures var st' := Begin(st, signature, size);
            k < |st'.log| && Grew(st.log[k], st'.log[k]) && !MayChange(st', k)
  {
    hide Overlay, Complete, DataIn, FilesSizeBroken, UsualFeed, Consistent;
  }

  lemma HeaderByteStays(st: State, left: nat, b: byte, k: nat)
    requires WellFormed(st) && k < |st.log| && !MayChange(st, k) && st.mode == InPayload(HeaderPart, left + 1)
    ensures var st' := HeaderByte(st, left, b);
            k < |st'.log| && Grew(st.log[k], st'.log[k]) && !MayChange(st', k)
  {
    hide Overlay, Complete, DataIn, FilesSizeBroken, RereadSoFar, Consistent, Unfinished;
    if Attached(st) {
      if Here(st).index == k {
        ShortRereadStays(st, Here(st).got + [b], left);
      } else {
        OthersStay(st, Here(st).got + [b], left, k);
      }
    }
  }

  lemma OthersStay(st: State, got: seq<byte>, left: nat, k: nat)
    requires Attached(st) && k < |st.log| && k != Here(st).index
    ensures var st' := RereadSoFar(st, got, left);
            |st'.log| == |st.log| && st'.log[k] == st.log[k] && !(Here(st').Busy? && Here(st').index == k)
  {
    hide Reread, FeedKept, Complete, FilesSizeBroken;
  }

  lemma {:induction false} RunStays(st: State, s: seq<byte>, k: nat)
    requires WellFormed(st) && k < |st.log| && !MayChange(st, k)
    ensures k < |Run(st, s).log| && Grew(st.log[k], Run(st, s).log[k])
    decreases |s|
  {
    if s != [] {
      StepStays(st, s[0], k);
      StepKeeps(st, s[0]);
      RunStays(Step(st, s[0]), s[1..], k);
    }
  }

  /** The rest of an id that is not the one the message has. */
  lemma Overwritten(st: State, k: nat) returns (s: seq<byte>)
    requires WellFormed(st) && MayChange(st, k) && |Here(st).got| < 17
    ensures k < |Run(st, s).log| && !Grew(st.log[k], Run(st, s).log[k])
  {
    hide ActionIn, DataIn, CountIn, SizeIn, FeedKept, FilesSizeBroken, Complete, HeaderLength, Consistent, Value, Run;
    var e, got := st.log[k], Here(st).got;
    var last: byte := if |e.header.id| == 16 && e.header.id[15] == 0 then 1 else 0;
    s := seq(16 - |got|, _ => 0) + [last];
    var more := got + s;
    assert |more| == 17 && more[16] == last && more[1..17][15] == last;
    assert !LengthKnown(more);
    RunReread(st, s, st.mode.left - |s|);
    assert Reread(e, more, st.mode.left - |s|).header.id == more[1..17];
  }

  /** What has been delivered of a message's header is never changed by later input, whatever that is,
      if and only if the Message packet being read has less than another 17 bytes behind the header of
      that message, or no part of the message is outstanding. */
  lemma DeliveredStays(st: State, k: nat)
    requires WellFormed(st) && k < |st.log| && (Here(st).Busy? && Here(st).index == k ==> |Here(st).got| < 17)
    ensures (forall s :: k < |Run(st, s).log| && Grew(st.log[k], Run(st, s).log[k])) <==> !MayChange(st, k)
  {
    if MayChange(st, k) {
      var s := Overwritten(st, k);
    } else {
      forall s ensures k < |Run(st, s).log| && Grew(st.log[k], Run(st, s).log[k]) { RunStays(st, s, k); }
    }
  }

  /** The same in terms of the packet: a Message packet of a declared size, whose payload begins with
      a whole header. */
  lemma PacketStays(st: State, signature: byte, size: nat, h: seq<byte>)
    requires WellFormed(st) && st.mode.AtSignature? && signature / 16 == MESSAGE && Here(st) == Idle([])
    requires h != [] && |h| <= size && Complete(h, size - |h|) && !FilesSizeBroken(h[0])
    ensures var st', k := Run(Begin(st, signature, size), h), |st.log|;
            var partOutstanding := DecodeHeader(h).dataSize > 0 || signature / 2 % 2 == 1;
            && |st'.log| == k + 1 && st'.log[k].header == DecodeHeader(h)
            && ((forall s :: k < |Run(st', s).log| && Grew(st'.log[k], Run(st', s).log[k]))
                <==> !(partOutstanding && size - |h| >= 17))
  {
    hide Overlay, FilesSizeBroken, DecodeHeader, Run, Grew, Value;
    var r, t := signature % 2 == 1, signature / 2 % 2 == 1;
    var begun := Put(st, Reading(r, t, [], [])).(mode := InPayload(HeaderPart, size));
    assert Begin(st, signature, size) == begun && Here(begun) == Reading(r, t, [], []) && [] + h == h;
    BeginKeeps(st, signature, size);
    RunHeader(begun, h, size - |h|);
    OverlayIsDecode(h, size - |h|);
    RunKeeps(begun, h);
    DeliveredStays(Run(begun, h), |st.log|);
  }

  /** The shortest such input: a message with a stream, id and action "a", and behind its header one
      flag byte and another id. The message is delivered with the first id and then has the second. */
  lemma ReadingOnOverwrites(id: seq<byte>, other: seq<byte>)
    requires |id| == |other| == 16
    ensures var delivered := [0x22, 0x24, 0x00] + id + [0x01, 0x61];
            var st, st' := Parse(1, delivered), Parse(1, delivered + [0x00] + other);
            && |st.log| == 1 == |st'.log| && st.handed == [0] == st'.handed
            && st.log[0].header == Header(id, [0x61], 0, 0, 0)
            && st'.log[0].header == Header(other, [0x61], 0, 0, 0)
            && !st'.mode.Failed?
  {
    hide Overlay, Run, DecodeHeader, HeaderLength, FilesSizeBroken;
    var st0, h, again := Init(1), [0x00] + id + [0x01, 0x61], [0x00] + other;
    RunOne(st0, 0x22);
    RunOne(Step(st0, 0x22), 0x24);
    RunConcat(st0, [0x22], [0x24]);
    var begun := Put(st0, Reading(false, true, [], [])).(mode := InPayload(HeaderPart, 36));
    assert [0x22] + [0x24] == [0x22, 0x24] && Value([0x24]) == 36;
    assert Run(st0, [0x22, 0x24]) == begun;
    RunConcat(st0, [0x22, 0x24], h);
    assert [0x22, 0x24] + h == [0x22, 0x24, 0x00] + id + [0x01, 0x61];
    ShortHeader(id);
    OverlayIsDecode(h, 17);
    assert [] + h == h;
    RunHeader(begun, h, 17);
    var st := Run(begun, h);
    assert Here(st) == Busy(0, [], NoFeed);
    RunConcat(st0, [0x22, 0x24] + h, again);
    assert [0x22, 0x24, 0x00] + id + [0x01, 0x61] + [0x00] + other == [0x22, 0x24] + h + again;
    assert [] + again == again && again[1..17] == other;
    RunReread(st, again, 0);
    AnotherId(st.log[0].header, again);
  }

  lemma ShortHeader(id: seq<byte>)
    requires |id| == 16
    ensures var h: seq<byte> := [0x00] + id + [0x01, 0x61];
            LengthKnown(h) && |h| == HeaderLength(h) == 19 && DecodeHeader(h) == Header(id, [0x61], 0, 0, 0)
            && !FilesSizeBroken(h[0])
  {
    var h: seq<byte> := [0x00] + id + [0x01, 0x61];
    assert h[1..17] == id && h[17..18] == [0x01] && h[18..19] == [0x61] && h[19..19] == [];
    assert Value([0x01]) == 1 && Value([]) == 0;
  }

  lemma AnotherId(h: Header, again: seq<byte>)
    requires |again| == 17 && again[0] == 0
    ensures Overlay(h, [], again, 0) == h.(id := again[1..17]) && !LengthKnown(again)
  {
  }

  // What a whole header does behind another, or behind the beginning of one.

  lemma CompleteIsIn(h: seq<byte>, left: nat)
    requires Complete(h, left) && !FilesSizeBroken(h[0])
    ensures IdIn(h) && ActionIn(h, left) && DataIn(h, left) && CountIn(h, left) && SizeIn(h, left) && Within(h)
  {
  }

  /** A whole header behind that of a message with a part outstanding: the message is handed over again
      with the second header's fields and empty data, its stream goes on, and its channel waits for
      that much data; or, if the second header has none, for what was due of the first one's, which no
      longer goes to the message. */
  lemma SecondHeader(st: State, h: seq<byte>, left: nat)
    requires WellFormed(st) && st.mode == InPayload(HeaderPart, |h| + left) && Attached(st) && Here(st).got == []
    requires h != [] && Complete(h, left) && !FilesSizeBroken(h[0])
    ensures var k, e, st' := Here(st).index, Active(st), Run(st, h);
            var due := e.header.dataSize - |e.data|;
            && st'.log == st.log[k := e.(header := DecodeHeader(h), data := [], reread := true)]
            && st'.handed == st.handed + [k] && st'.current == st.current && st'.mode == Rest(HeaderPart, left)
            && (DecodeHeader(h).dataSize > 0 ==> Here(st') == Busy(k, [], Fed))
            && (DecodeHeader(h).dataSize == 0 && Here(st).feed.Fed? ==>
                  Here(st') == if due == 0 && e.StreamDone() then Idle([]) else Busy(k, [], Former(e.header.dataSize, e.data)))
            && (DecodeHeader(h).dataSize == 0 && !Here(st).feed.Fed? ==> Here(st') == Here(st))
  {
    hide Run, DecodeHeader, HeaderLength, FilesSizeBroken, Consistent, Value;
    var k, e := Here(st).index, Active(st);
    assert ChannelConsistent(st.channels, st.log, st.current) && EntryConsistent(st.channels, st.log, k) by { Both(st, k); }
    assert [] + h == h;
    CompleteIsIn(h, left);
    RunReread(st, h, left);
    OverlayAll(e.header, h, left);
  }

  lemma Both(st: State, k: nat)
    requires WellFormed(st) && Attached(st) && k == Here(st).index
    ensures ChannelConsistent(st.channels, st.log, st.current) && EntryConsistent(st.channels, st.log, k)
  {
  }

  lemma OverlayAll(was: Header, h: seq<byte>, left: nat)
    requires Complete(h, left) && !FilesSizeBroken(h[0])
    ensures Overlay(was, [], h, left) == DecodeHeader(h)
  {
  }

  /** A message on a channel whose reader was left with the first bytes of a header: what those bytes
      say is lost to it. It has a blank id, or a blank id and action, if they reached so far; if they
      reached behind the data size the parser panics. */
  lemma BehindResidue(st: State, signature: byte, h: seq<byte>, j: nat)
    requires WellFormed(st) && st.mode.AtSignature? && signature / 16 == MESSAGE
    requires LengthKnown(h) && |h| == HeaderLength(h) > ActionAt(h[0]) && !FilesSizeBroken(h[0])
    requires j < |h| && Here(st) == Idle(h[..j])
    ensures var st' := Run(Begin(st, signature, |h| - j), h[j..]);
            var e, k := DecodeHeader(h), |st.log|;
            if j > ActionAt(h[0]) && j >= FilesCountAt(h) then st'.mode == Failed(Panic) && st'.log == st.log
            else
              && !st'.mode.Failed? && |st'.log| == k + 1 && st'.handed == st.handed + [k]
              && st'.log[k].header
                 == e.(id := if j >= 17 then seq(16, _ => 0) else e.id,
                       action := if j > ActionAt(h[0]) && j >= DataSizeAt(h) then [] else e.action)
              && st'.log[k].expectsResponse == (signature % 2 == 1) && st'.log[k].hasStream == (signature / 2 % 2 == 1)
  {
    hide Run, DecodeHeader, HeaderLength, FilesSizeBroken, Consistent, Value, DataIn, Overlay;
    var skip, r, s := h[..j], signature % 2 == 1, signature / 2 % 2 == 1;
    var begun := Put(st, Reading(r, s, skip, skip)).(mode := InPayload(HeaderPart, |h| - j));
    SkipIs(h, j);
    assert st.current < |st.channels| by { assert Here(st).Idle?; CurrentIs(st); }
    assert Begin(st, signature, |h| - j) == begun;
    assert Here(begun) == Reading(r, s, skip, skip) && skip + h[j..] == h;
    RunHeader(begun, h[j..], 0);
    if !(j > ActionAt(h[0]) && j >= FilesCountAt(h)) { OverlaySkips(h, j); }
  }

  lemma CurrentIs(st: State)
    requires WellFormed(st)
    ensures st.current < |st.channels|
  {
  }

  /** So much of a header is not a whole one, and has its data size exactly if it goes behind that. */
  lemma SkipIs(h: seq<byte>, j: nat)
    requires LengthKnown(h) && |h| == HeaderLength(h) > ActionAt(h[0]) && j < |h|
    ensures !Complete(h[..j], |h| - j) && Within(h) && Complete(h, 0)
    ensures DataIn(h[..j], 0) <==> j > ActionAt(h[0]) && j >= FilesCountAt(h)
  {
    if j > 0 && j >= ActionAt(h[0]) { LengthStable(h[..j], h); }
  }

  lemma OverlaySkips(h: seq<byte>, j: nat)
    requires LengthKnown(h) && |h| == HeaderLength(h) > ActionAt(h[0]) && !FilesSizeBroken(h[0]) && j < |h|
    requires !(j > ActionAt(h[0]) && j >= FilesCountAt(h))
    ensures Overlay(BLANK, h[..j], h, 0)
         == DecodeHeader(h).(id := if j >= 17 then seq(16, _ => 0) else DecodeHeader(h).id,
                             action := if j > ActionAt(h[0]) && j >= DataSizeAt(h) then [] else DecodeHeader(h).action)
  {
    hide Value;
    if j > 0 && j >= ActionAt(h[0]) { LengthStable(h[..j], h); }
    assert BLANK.id == seq(16, _ => 0);
  }
}
