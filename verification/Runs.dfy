/** How the byte machine gets through a run of bytes that belong together: a size field, a piece of
    a header, a piece of a Data or Stream payload. A read call of the parser takes such a run at
    once, and so does a whole packet of the writer. */
module Runs {
  import opened Bytes
  import opened Codec
  import opened Demux

  /** A packet's start looks only at its kind and two low bits, and not at the mode. */
  lemma BeginLooksAt(st: State, m: Mode, a: byte, b: byte, size: nat)
    requires a / 16 == b / 16 && a % 2 == b % 2 && a / 2 % 2 == b / 2 % 2
    ensures Begin(st.(mode := m), b, size) == Begin(st, a, size)
  {
    hide Complete, Overlay, FilesSizeBroken, DataIn, Settled;
  }

  lemma {:induction false} RunSize(st: State, signature: byte, got: seq<byte>, rest: seq<byte>)
    requires st.mode == AtSize(signature, got) && rest != []
    requires |got| + |rest| == SizeFieldWidth(signature)
    ensures Run(st, rest) == if signature / 4 % 4 == 3 then Fail(st, Panic).(mode := Failed(Panic))
                             else Begin(st, signature, Value(got + rest))
    decreases |rest|
  {
    hide Begin;
    var st' := Step(st, rest[0]);
    BeginLooksAt(st, st'.mode, signature, signature, Value(got + rest));
    if |rest| == 1 {
      assert rest == [rest[0]] && Run(st', rest[1..]) == st';
    } else {
      RunSize(st', signature, got + [rest[0]], rest[1..]);
      assert got + [rest[0]] + rest[1..] == got + rest;
    }
  }

  /** A size field cut short. */
  lemma {:induction false} RunSizeShort(st: State, signature: byte, got: seq<byte>, rest: seq<byte>)
    requires st.mode == AtSize(signature, got) && |got| + |rest| < SizeFieldWidth(signature)
    ensures Run(st, rest) == st.(mode := AtSize(signature, got + rest))
    decreases |rest|
  {
    if rest == [] {
      assert got + rest == got;
    } else {
      RunSizeShort(Step(st, rest[0]), signature, got + [rest[0]], rest[1..]);
      assert got + [rest[0]] + rest[1..] == got + rest;
    }
  }

  /** A piece of a header that does not go past its end. */
  lemma {:induction false} RunHeader(st: State, piece: seq<byte>, left: nat)
    requires st.mode == InPayload(HeaderPart, |piece| + left) && piece != [] && Here(st).Reading?
    requires Within(Here(st).got + piece)
    ensures Run(st, piece)
         == HeaderSoFar(st, Here(st).expectsResponse, Here(st).hasStream, Here(st).skip, Here(st).got + piece, left)
    decreases |piece|
  {
    hide FilesSizeBroken, Overlay, DataIn;
    var Reading(r, s, skip, got) := Here(st);
    var more := got + [piece[0]];
    assert got + piece == more + piece[1..];
    assert Step(st, piece[0]) == HeaderSoFar(st, r, s, skip, more, |piece| - 1 + left);
    if |piece| == 1 {
      assert more == got + piece && Run(Step(st, piece[0]), piece[1..]) == Step(st, piece[0]);
    } else {
      LengthStable(more, got + piece);
      assert !Complete(more, |piece| - 1 + left);
      var st' := Put(st, Reading(r, s, skip, more)).(mode := InPayload(HeaderPart, |piece| - 1 + left));
      RunHeader(st', piece[1..], left);
      Overwrite(st, r, s, skip, more, got + piece, InPayload(HeaderPart, |piece| - 1 + left), left);
    }
  }

  lemma UpdateTwice<T>(s: seq<T>, i: nat, x: T, y: T)
    requires i < |s|
    ensures s[i := x][i := y] == s[i := y]
  {
  }

  /** Recording a header twice keeps the last recording. */
  lemma Overwrite(st: State, r: bool, s: bool, skip: seq<byte>, early: seq<byte>, late: seq<byte>, m: Mode, left: nat)
    requires st.current < |st.channels|
    ensures HeaderSoFar(Put(st, Reading(r, s, skip, early)).(mode := m), r, s, skip, late, left)
         == HeaderSoFar(st, r, s, skip, late, left)
  {
    var h := Overlay(BLANK, skip, late, left);
    var e := Entry(st.current, r, s, h, [], [], false, false);
    UpdateTwice(st.channels, st.current, Reading(r, s, skip, early), Reading(r, s, skip, late));
    UpdateTwice(st.channels, st.current, Reading(r, s, skip, early), Settled(|st.log|, e, [], UsualFeed(h.dataSize)));
  }

  /** Fields that have come in stay in as the header goes on. */
  lemma FieldsComeIn(early: seq<byte>, late: seq<byte>, l: nat, left: nat)
    requires early < late
    ensures IdIn(early) ==> IdIn(late)
    ensures ActionIn(early, l) ==> ActionIn(late, left)
    ensures DataIn(early, l) ==> DataIn(late, left)
    ensures CountIn(early, l) ==> CountIn(late, left)
    ensures SizeIn(early, l) ==> SizeIn(late, left)
  {
    LengthStable(early, late);
  }

  /** Reading on in two goes overwrites what reading on at once does. */
  lemma RereadTwice(e: Entry, feed: Feed, early: seq<byte>, late: seq<byte>, l: nat, left: nat)
    requires early < late
    ensures Reread(Reread(e, early, l), late, left) == Reread(e, late, left)
    ensures FeedKept(Reread(e, early, l), FeedKept(e, feed, early, l), late, left) == FeedKept(e, feed, late, left)
  {
    hide IdIn, ActionIn, DataIn, CountIn, SizeIn;
    FieldsComeIn(early, late, l, left);
  }

  /** So the second go finds what the first would have. */
  lemma RereadOver(st: State, more: seq<byte>, l: nat, late: seq<byte>, left: nat)
    requires Attached(st) && more < late
    ensures var k := Here(st).index;
            var st' := Put(st.(log := st.log[k := Reread(Active(st), more, l)]),
                           Busy(k, more, FeedKept(Active(st), Here(st).feed, more, l))).(mode := InPayload(HeaderPart, l));
            Attached(st') && RereadSoFar(st', late, left) == RereadSoFar(st, late, left)
  {
    hide Reread, FeedKept, Complete, FilesSizeBroken;
    var k, e, feed := Here(st).index, Active(st), Here(st).feed;
    var kept, e' := FeedKept(e, feed, more, l), Reread(e, late, left);
    RereadTwice(e, feed, more, late, l, left);
    UpdateTwice(st.log, k, Reread(e, more, l), e');
    UpdateTwice(st.channels, st.current, Busy(k, more, kept), Busy(k, late, FeedKept(e, feed, late, left)));
    UpdateTwice(st.channels, st.current, Busy(k, more, kept),
                Settled(k, e', [], if e'.header.dataSize > 0 then Fed else FeedKept(e, feed, late, left)));
  }

  /** A piece of a header behind that of a message whose parts are outstanding. */
  lemma {:induction false} RunReread(st: State, piece: seq<byte>, left: nat)
    requires st.mode == InPayload(HeaderPart, |piece| + left) && piece != [] && Attached(st)
    requires Within(Here(st).got + piece)
    ensures Run(st, piece) == RereadSoFar(st, Here(st).got + piece, left)
    decreases |piece|
  {
    hide Reread, FeedKept;
    var k, got := Here(st).index, Here(st).got;
    var more, l := got + [piece[0]], |piece| - 1 + left;
    assert got + piece == more + piece[1..];
    assert Step(st, piece[0]) == RereadSoFar(st, more, l);
    if |piece| == 1 {
      assert more == got + piece && Run(Step(st, piece[0]), piece[1..]) == Step(st, piece[0]);
    } else {
      LengthStable(more, got + piece);
      assert !Complete(more, l);
      RereadOver(st, more, l, got + piece, left);
      RunReread(Step(st, piece[0]), piece[1..], left);
    }
  }

  lemma RecordTwice(st: State, e: Entry, feed: Feed, e': Entry, feed': Feed, m: Mode)
    requires Attached(st) && !(feed.Done(e) && e.StreamDone())
    ensures Attached(Record(st, e, feed).(mode := m))
    ensures Record(Record(st, e, feed).(mode := m), e', feed').(mode := m) == Record(st, e', feed').(mode := m)
  {
    var k, got := Here(st).index, Here(st).got;
    UpdateTwice(st.log, k, e, e');
    UpdateTwice(st.channels, st.current, Busy(k, got, feed), Settled(k, e', got, feed'));
  }

  /** A piece of a Data payload within the declared size. */
  lemma {:induction false} RunData(st: State, piece: seq<byte>, left: nat)
    requires st.mode == InPayload(DataPart, |piece| + left) && piece != [] && ExpectsData(st)
    requires |piece| <= Here(st).feed.Room(Active(st))
    ensures Run(st, piece) == DataPassed(st, piece, left)
    decreases |piece|
  {
    var e, feed := Active(st), Here(st).feed;
    var e', feed' := DataInto(e, feed, [piece[0]]), FeedInto(feed, [piece[0]]);
    var st' := Step(st, piece[0]);
    assert e.data + piece == e.data + [piece[0]] + piece[1..];
    assert feed.Former? ==> feed.received + piece == feed.received + [piece[0]] + piece[1..];
    if |piece| == 1 {
      assert piece == [piece[0]] && Run(st', piece[1..]) == st';
    } else {
      RecordTwice(st, e', feed', DataInto(e, feed, piece), FeedInto(feed, piece), st'.mode);
      RunData(st', piece[1..], left);
    }
  }

  /** A Data payload that goes past the declared size leaves what fits in the message, or nothing if
      it goes to the data the message has had before. */
  function Overrun(st: State, piece: seq<byte>): seq<Entry>
    requires ExpectsData(st) ==> |piece| > Here(st).feed.Room(Active(st))
  {
    if !ExpectsData(st) || !Here(st).feed.Fed? then st.log
    else st.log[Here(st).index := Active(st).(data := (Active(st).data + piece)[..Active(st).header.dataSize])]
  }

  /** It fails, however far it goes. */
  lemma {:induction false} RunDataTooLong(st: State, piece: seq<byte>, left: nat)
    requires st.mode == InPayload(DataPart, |piece| + left) && WellFormed(st)
    requires piece != [] && (ExpectsData(st) ==> |piece| > Here(st).feed.Room(Active(st)))
    ensures Run(st, piece).mode == Failed(UnexpectedData) && Run(st, piece).log == Overrun(st, piece)
    ensures Run(st, piece).handed == st.handed
    decreases |piece|
  {
    var st' := Step(st, piece[0]);
    if ExpectsData(st) {
      var k, e := Here(st).index, Active(st);
      assert ChannelConsistent(st.channels, st.log, st.current) && EntryConsistent(st.channels, st.log, k);
      StepKeeps(st, piece[0]);
      RunDataTooLong(st', piece[1..], left);
      assert e.data + piece == e.data + [piece[0]] + piece[1..];
      if Here(st).feed.Fed? {
        if !ExpectsData(st') {
          assert st'.log[k].data == (e.data + piece)[..e.header.dataSize];
        }
        UpdateTwice(st.log, k, st'.log[k], e.(data := (e.data + piece)[..e.header.dataSize]));
      } else {
        assert st.log[k := e] == st.log;
      }
    } else {
      RunFailed(st', piece[1..]);
    }
  }

  /** A piece of a Stream payload. */
  lemma {:induction false} RunStream(st: State, piece: seq<byte>, left: nat)
    requires st.mode == InPayload(StreamPart, |piece| + left) && piece != [] && ExpectsStream(st)
    ensures Run(st, piece) == StreamPassed(st, piece, left)
    decreases |piece|
  {
    var e, feed := Active(st), Here(st).feed;
    var e' := e.(stream := e.stream + [piece[0]]);
    var st' := Step(st, piece[0]);
    assert e.stream + piece == e.stream + [piece[0]] + piece[1..];
    if |piece| == 1 {
      assert piece == [piece[0]] && Run(st', piece[1..]) == st';
    } else {
      RecordTwice(st, e', feed, e.(stream := e.stream + piece), feed, st'.mode);
      RunStream(st', piece[1..], left);
    }
  }

  // What later input does to what has been delivered.

  /** e has become f by receiving more of its parts. */
  predicate Grew(e: Entry, f: Entry) {
    && f == e.(data := f.data, stream := f.stream, streamEnded := f.streamEnded, reread := f.reread)
    && e.data <= f.data && e.stream <= f.stream && (e.streamEnded ==> f.streamEnded)
  }

  lemma StepGrows(st: State, b: byte, k: nat)
    requires k < |st.log|
    ensures k < |Step(st, b).log| && (st.log[k].reread ==> Step(st, b).log[k].reread)
    ensures !Step(st, b).log[k].reread ==> Grew(st.log[k], Step(st, b).log[k])
    ensures st.handed <= Step(st, b).handed
  {
    hide Overlay, Complete, DataIn, FeedKept, FilesSizeBroken, Settled, UsualFeed, FeedInto, SizeFieldWidth, Value,
      HeaderByte, Begin;
    match st.mode {
      case AtSignature =>
      case AtChannelLow(high) =>
      case AtSize(signature, got) => BeginGrows(st, signature, Value(got + [b]), k);
      case InPayload(part, left) => if part == HeaderPart { HeaderByteGrows(st, if left == 0 then 0 else left - 1, b, k); }
      case Failed(_) =>
    }
  }

  lemma BeginGrows(st: State, signature: byte, size: nat, k: nat)
    requires k < |st.log|
    ensures var st' := Begin(st, signature, size); st.log <= st'.log && st.handed <= st'.handed
  {
    hide Overlay, Complete, DataIn, FilesSizeBroken, Settled, UsualFeed;
  }

  lemma HeaderByteGrows(st: State, left: nat, b: byte, k: nat)
    requires k < |st.log|
    ensures var st' := HeaderByte(st, left, b);
            && k < |st'.log| && (st.log[k].reread ==> st'.log[k].reread)
            && (!st'.log[k].reread ==> Grew(st.log[k], st'.log[k])) && st.handed <= st'.handed
  {
    hide Overlay, Complete, DataIn, FeedKept, FilesSizeBroken, Settled, UsualFeed;
  }

  /** Later input only adds to the data and stream of a message that it is not read on into, and
      only adds to the messages handed over. */
  lemma {:induction false} RunGrows(st: State, s: seq<byte>, k: nat)
    requires k < |st.log|
    ensures k < |Run(st, s).log| && (st.log[k].reread ==> Run(st, s).log[k].reread)
    ensures !Run(st, s).log[k].reread ==> Grew(st.log[k], Run(st, s).log[k])
    ensures st.handed <= Run(st, s).handed
    decreases |s|
  {
    if s != [] {
      StepGrows(st, s[0], k);
      RunGrows(Step(st, s[0]), s[1..], k);
    }
  }

  /** Every message delivered so far has been handed over once, in the order of the log. */
  predicate Once(st: State) {
    |st.handed| == |st.log| && forall i :: 0 <= i < |st.handed| ==> st.handed[i] == i
  }

  lemma StepOnce(st: State, b: byte)
    ensures |st.log| <= |Step(st, b).log| && |st.handed| - |st.log| <= |Step(st, b).handed| - |Step(st, b).log|
    ensures Once(st) && |Step(st, b).handed| == |Step(st, b).log| ==> Once(Step(st, b))
  {
    hide Overlay, Complete, DataIn, FeedKept, FilesSizeBroken, Settled, UsualFeed, FeedInto, SizeFieldWidth, Value;
    match st.mode {
      case AtSignature =>
      case AtChannelLow(high) =>
      case AtSize(signature, got) =>
      case InPayload(part, left) =>
      case Failed(_) =>
    }
  }

  /** Messages are handed over more often than once only by reading on, and that stays visible. */
  lemma {:induction false} RunOnce(st: State, s: seq<byte>)
    ensures |st.log| <= |Run(st, s).log| && |st.handed| - |st.log| <= |Run(st, s).handed| - |Run(st, s).log|
    ensures Once(st) && |Run(st, s).handed| == |Run(st, s).log| ==> Once(Run(st, s))
    decreases |s|
  {
    if s != [] {
      StepOnce(st, s[0]);
      RunOnce(Step(st, s[0]), s[1..]);
    }
  }
}
