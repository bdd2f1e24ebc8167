/** Every way in which a byte can stop the parser, and what exactly it takes. Between them these say
    that nothing else does, and that what must stop it does. */
module Failures {
  import opened Bytes
  import opened Codec
  import opened Demux

  /** How much data the current channel still takes. */
  function DataDue(st: State): int { if Attached(st) then Here(st).feed.Room(Active(st)) else 0 }

  /** The current channel has a stream that has not ended. */
  predicate StreamOpen(st: State) { Attached(st) && Active(st).hasStream && !Active(st).streamEnded }

  /** A signature stops the parser if it names a channel that there is not, ends a stream that the
      channel's message does not have, or is of a kind that the source does not read: nine of sixteen
      kinds do not stop it by themselves. */
  lemma SignatureFails(st: State, b: byte, e: Error)
    requires WellFormed(st) && st.mode.AtSignature?
    ensures Step(st, b).mode == Failed(e) <==>
              || (e == ChannelOutOfRange && b <= 0x0F && b >= |st.channels|)
              || (e == Panic && 0x80 <= b <= 0x8F && !(Attached(st) && Active(st).hasStream))
              || (e == UnknownSignature && b >= 0xF0)
              || (e == NotImplemented && b / 16 in {0x3, 0x4, 0x5, 0x6, 0x9, 0xB, 0xC, 0xD})
  {
  }

  /** So does the second byte of a wide channel number, if there is no such channel. */
  lemma ChannelFails(st: State, high: nat, b: byte, e: Error)
    requires st.mode == AtChannelLow(high)
    ensures Step(st, b).mode == Failed(e) <==> e == ChannelOutOfRange && 256 * high + b >= |st.channels|
  {
  }

  /** The last byte of a packet's size: a 32-bit size panics; a message may not start on a channel that
      has one; data and stream may not come if none is outstanding; a message that starts behind a
      header that was cut off may be over at once, and panic for the header's own reasons. */
  lemma SizeFails(st: State, signature: byte, got: seq<byte>, b: byte, e: Error)
    requires WellFormed(st) && st.mode == AtSize(signature, got)
    ensures Step(st, b).mode == Failed(e) <==>
              && |got| + 1 == (match signature / 4 % 4 case 0 => 1 case 1 => 2 case _ => 3)
              && if signature / 4 % 4 == 3 then e == Panic
                 else if signature / 16 == 0x2 then
                   if !Here(st).Idle? then e == AlreadyProcessing
                   else e == Panic && HeaderPanics(Here(st).residue, Here(st).residue, Value(got + [b]))
                 else if signature / 16 == 0xE then e == UnexpectedData && DataDue(st) <= 0
                 else e == UnexpectedStream && !StreamOpen(st)
  {
    hide HeaderSoFar, Value, ExpectsData, ExpectsStream, DataDue, StreamOpen, Complete, WellFormed;
    DataDueIs(st);
    ModeIs(st, signature, got);
    if Here(st).Idle? {
      var residue := Here(st).residue;
      HeaderFails(st, signature % 2 == 1, signature / 2 % 2 == 1, residue, residue, Value(got + [b]), e);
    }
  }

  /** A header that is complete panics if its files size is in the 32-bit form, or if its message came
      in behind its data size. */
  predicate HeaderPanics(skip: seq<byte>, got: seq<byte>, left: nat) {
    Complete(got, left) && (FilesSizeBroken(got[0]) || DataIn(skip, 0))
  }

  lemma HeaderFails(st: State, r: bool, s: bool, skip: seq<byte>, got: seq<byte>, left: nat, e: Error)
    ensures HeaderSoFar(st, r, s, skip, got, left).mode == Failed(e) <==> e == Panic && HeaderPanics(skip, got, left)
  {
    hide Overlay, Complete, DataIn, FilesSizeBroken, UsualFeed, Settled;
  }

  lemma ModeIs(st: State, signature: byte, got: seq<byte>)
    requires WellFormed(st) && st.mode == AtSize(signature, got)
    ensures signature / 16 in {MESSAGE, DATA, STREAM} && |got| < SizeFieldWidth(signature)
  {
  }

  lemma DataDueIs(st: State)
    requires WellFormed(st)
    ensures ExpectsData(st) <==> DataDue(st) > 0
    ensures ExpectsStream(st) <==> StreamOpen(st)
  {
    assert ChannelConsistent(st.channels, st.log, st.current);
  }

  /** A byte of a payload: one more than is due, one for a channel that reads nothing, or the last one
      of a header that panics. */
  lemma PayloadFails(st: State, part: Part, left: nat, b: byte, e: Error)
    requires WellFormed(st) && st.mode == InPayload(part, left + 1)
    ensures Step(st, b).mode == Failed(e) <==>
              match part
              case DataPart => e == UnexpectedData && DataDue(st) <= 0
              case StreamPart => e == UnexpectedStream && !StreamOpen(st)
              case HeaderPart =>
                (match Here(st)
                 case Idle(_) => e == NotProcessing
                 case Reading(_, _, skip, got) => e == Panic && HeaderPanics(skip, got + [b], left)
                 case Busy(_, got, _) => e == Panic && HeaderPanics([], got + [b], left))
  {
    hide Overlay, Complete, FilesSizeBroken, UsualFeed, FeedKept, Settled;
    DataDueIs(st);
    assert ChannelConsistent(st.channels, st.log, st.current);
    if part == HeaderPart && Here(st).Busy? { NothingSkipped(); }
  }

  lemma NothingSkipped()
    ensures !DataIn([], 0)
  {
  }
}
