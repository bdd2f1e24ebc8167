/** The resumable header reader (message_reader.go): seven steps, each with the readers its fields
    may need, proved to do on any division of the input what decoding the whole header at once does. */
module MessageReaderObjects {
  import opened Bytes
  import opened Demux
  import opened Channels
  import opened ReaderObjects
  import opened PartObjects

  datatype HeaderStep = AtFlags | AtUuid | AtActionSize | AtAction | AtDataSize | AtFilesCount | AtFilesSize
  {
    function Rank(): nat {
      match this
      case AtFlags => 0 case AtUuid => 1 case AtActionSize => 2 case AtAction => 3
      case AtDataSize => 4 case AtFilesCount => 5 case AtFilesSize => 6
    }
  }

  /** The values of a message's fields. */
  datatype Fields = Fields(id: seq<byte>, action: seq<byte>, data: MessageData?, filesCount: nat, totalFilesSize: nat)

  ghost function FieldsOf(m: Message): Fields
    reads m`id, m`action, m`data, m`filesCount, m`totalFilesSize
  {
    Fields(m.id, m.action, m.data, m.filesCount, m.totalFilesSize)
  }

  const BLANK_FIELDS: Fields := Fields(BLANK.id, BLANK.action, null, 0, 0)

  ghost predicate IsNewData(m: Message)
    requires m.data != null
    reads m`data, m.data
  {
    m.data.Valid() && m.data.owner == m && m.data.pushed == [] && m.data.err.None?
  }

  /** The end of a header, as a step behind the last one. */
  const OVER: nat := 7

  /** What has been read reaches this step. */
  predicate Reaches(got: seq<byte>, to: nat) {
    && (to >= 2 ==> |got| >= 17)
    && (to >= 4 ==> LengthKnown(got) && |got| >= DataSizeAt(got))
    && (to >= 5 ==> |got| >= FilesCountAt(got))
    && (to >= 6 ==> |got| >= FilesSizeAt(got))
    && (to >= OVER ==> |got| >= HeaderLength(got))
  }

  /** A message that came in at one step with the fields base, and is now at another: the fields of
      the steps between are those read, the others are what they were. */
  ghost predicate Fielded(m: Message, base: Fields, from: nat, to: nat, got: seq<byte>)
    reads m`id, m`action, m`data, m`filesCount, m`totalFilesSize, m.data
  {
    && from <= to && Reaches(got, to) && (m.data != null ==> m.data.owner == m)
    && m.id == (if from < 2 <= to then got[1..17] else base.id)
    && m.action == (if from < 4 <= to then got[ActionAt(got[0])..DataSizeAt(got)] else base.action)
    && (if from < 5 <= to
        then m.data != null && IsNewData(m) && m.data.size == Value(got[DataSizeAt(got)..FilesCountAt(got)])
        else m.data == base.data)
    && m.filesCount == (if from < 6 <= to then Value(got[FilesCountAt(got)..FilesSizeAt(got)]) else base.filesCount)
    && m.totalFilesSize
       == (if from < OVER <= to then Value(got[FilesSizeAt(got)..HeaderLength(got)]) else base.totalFilesSize)
  }

  lemma Grown(got: seq<byte>, piece: seq<byte>, base: nat)
    requires base <= |got|
    ensures (got + piece)[base..] == got[base..] + piece
    ensures (got + piece)[..base] == got[..base]
    ensures got <= got + piece
  {
  }

  /** Fields that lie within what was read stay what they were. */
  lemma FieldsStay(got: seq<byte>, more: seq<byte>)
    requires got <= more
    ensures |got| >= 17 ==> more[1..17] == got[1..17]
    ensures LengthKnown(got) ==>
              LengthKnown(more) && ActionSize(more) == ActionSize(got) && HeaderLength(more) == HeaderLength(got)
    ensures LengthKnown(got) && |got| >= DataSizeAt(got) ==>
              more[ActionAt(got[0])..DataSizeAt(got)] == got[ActionAt(got[0])..DataSizeAt(got)]
    ensures LengthKnown(got) && |got| >= FilesCountAt(got) ==>
              more[DataSizeAt(got)..FilesCountAt(got)] == got[DataSizeAt(got)..FilesCountAt(got)]
    ensures LengthKnown(got) && |got| >= FilesSizeAt(got) ==>
              more[FilesCountAt(got)..FilesSizeAt(got)] == got[FilesCountAt(got)..FilesSizeAt(got)]
    ensures LengthKnown(got) && |got| >= HeaderLength(got) ==>
              more[FilesSizeAt(got)..HeaderLength(got)] == got[FilesSizeAt(got)..HeaderLength(got)]
  {
    LengthStable(got, more);
  }

  lemma FieldsGrow(m: Message, base: Fields, from: nat, to: nat, got: seq<byte>, more: seq<byte>)
    requires Fielded(m, base, from, to, got) && got <= more
    ensures Fielded(m, base, from, to, more)
  {
    hide Value, ActionSize;
    FieldsStay(got, more);
  }

  /** A reader at this step has read so much and no more: up to its field, and not all of that. An
      empty action is passed over as soon as its packet has a byte left. */
  predicate StandsAt(step: HeaderStep, got: seq<byte>, left: nat) {
    match step
    case AtFlags => got == []
    case AtUuid => 1 <= |got| < 17
    case AtActionSize => 17 <= |got| && !LengthKnown(got)
    case AtAction => LengthKnown(got) && (|got| < DataSizeAt(got) || (left == 0 && |got| == ActionAt(got[0])))
    case AtDataSize => LengthKnown(got) && ActionIn(got, left) && |got| < FilesCountAt(got)
    case AtFilesCount => LengthKnown(got) && ActionIn(got, left) && FilesCountAt(got) <= |got| < FilesSizeAt(got)
    case AtFilesSize =>
      LengthKnown(got) && ActionIn(got, left) && FilesSizeAt(got) <= |got| < HeaderLength(got) && FilesCountWidth(got[0]) > 0
  }

  /** The fields before this step are in, and no others. */
  predicate Tells(to: nat, got: seq<byte>, left: nat) {
    && (IdIn(got) <==> to >= 2) && (ActionIn(got, left) <==> to >= 4) && (DataIn(got, left) <==> to >= 5)
    && (CountIn(got, left) <==> to >= 6) && (SizeIn(got, left) <==> to >= OVER)
  }

  lemma StandsTells(step: HeaderStep, got: seq<byte>, left: nat)
    requires StandsAt(step, got, left)
    ensures Tells(step.Rank(), got, left) && !Complete(got, left) && Within(got)
  {
  }

  lemma CompleteTells(got: seq<byte>, left: nat)
    requires Complete(got, left)
    ensures Tells(if FilesSizeBroken(got[0]) then 6 else OVER, got, left) && Within(got)
  {
  }

  /** The fields are those that the machine finds in the header read so far. */
  lemma FieldsAre(m: Message, base: Fields, from: nat, to: nat, got: seq<byte>, left: nat, h: Header, skip: seq<byte>)
    requires Fielded(m, base, from, to, got) && Tells(to, got, left) && Tells(from, skip, 0) && from < OVER
    requires !(from < 2 <= to) ==> base.id == h.id
    requires !(from < 4 <= to) ==> base.action == h.action
    requires !(from < 6 <= to) ==> base.filesCount == h.filesCount
    requires to < OVER ==> base.totalFilesSize == h.totalFilesSize
    ensures var o := Overlay(h, skip, got, left);
            && m.id == o.id && m.action == o.action && m.filesCount == o.filesCount && m.totalFilesSize == o.totalFilesSize
            && if from < 5 <= to then m.data != null && IsNewData(m) && m.data.size == o.dataSize
               else m.data == base.data && o.dataSize == h.dataSize
  {
    hide IdIn, ActionIn, DataIn, CountIn, SizeIn, IsNewData, Value;
  }

  /** The header is complete, with its files size in the 32-bit form. */
  predicate EndsBroken(got: seq<byte>, left: nat) { Complete(got, left) && FilesSizeBroken(got[0]) }

  // The readers of the source's fields, in the order it declares them.
  const UUID: nat := 0
  const ACTION_SIZE_16: nat := 1
  const ACTION: nat := 2
  const DATA_SIZE_16: nat := 3
  const DATA_SIZE_48: nat := 4
  const FILES_COUNT_16: nat := 5
  const FILES_COUNT_24: nat := 6
  const FILES_SIZE_16: nat := 7
  const FILES_SIZE_24: nat := 8
  const FILES_SIZE_32: nat := 9
  const FILES_SIZE_48: nat := 10

  /** The size each reader is made with. The 32-bit one is one byte short. */
  function InitialSize(slot: nat): nat {
    match slot
    case UUID => 16 case ACTION_SIZE_16 => 2 case ACTION => 16 case DATA_SIZE_16 => 2 case DATA_SIZE_48 => 6
    case FILES_COUNT_16 => 2 case FILES_COUNT_24 => 3
    case FILES_SIZE_16 => 2 case FILES_SIZE_24 => 3 case FILES_SIZE_32 => 3 case FILES_SIZE_48 => 6 case _ => 0
  }

  /** The reader a step uses, if it does not use the one-byte reader or none. */
  function ActiveSlot(step: HeaderStep, flags: byte): Option<nat> {
    match step
    case AtFlags => None
    case AtUuid => Some(UUID)
    case AtActionSize => if ActionSizeWidth(flags) == 2 then Some(ACTION_SIZE_16) else None
    case AtAction => Some(ACTION)
    case AtDataSize => (match DataSizeWidth(flags) case 2 => Some(DATA_SIZE_16) case 6 => Some(DATA_SIZE_48) case _ => None)
    case AtFilesCount => (match FilesCountWidth(flags) case 2 => Some(FILES_COUNT_16) case 3 => Some(FILES_COUNT_24) case _ => None)
    case AtFilesSize => Some(FILES_SIZE_16 + flags / 4 % 4)
  }

  function DataSizeSlot(flags: byte): nat { if DataSizeWidth(flags) == 2 then DATA_SIZE_16 else DATA_SIZE_48 }
  function FilesCountSlot(flags: byte): nat { if FilesCountWidth(flags) == 2 then FILES_COUNT_16 else FILES_COUNT_24 }
  function FilesSizeSlot(flags: byte): nat { FILES_SIZE_16 + flags / 4 % 4 }

  predicate FitsSlot(step: HeaderStep, flags: byte, width: nat, slot: nat) {
    && width in {0, 1, 2, 3, 6} && slot < 11 && slot != ACTION && (width > 1 ==> InitialSize(slot) == width)
    && ActiveSlot(step, flags) == if width <= 1 then None else Some(slot)
  }

  /** The widths the flags announce are those of the readers the steps use. */
  lemma SlotsFit(flags: byte)
    ensures FitsSlot(AtDataSize, flags, DataSizeWidth(flags), DataSizeSlot(flags))
    ensures FitsSlot(AtFilesCount, flags, FilesCountWidth(flags), FilesCountSlot(flags))
    ensures FilesCountWidth(flags) > 0 ==> FitsSlot(AtFilesSize, flags, FilesSizeWidth(flags), FilesSizeSlot(flags))
  {
  }

  class MessageReader {
    var step: HeaderStep
    var flags: byte
    const readers: seq<StreamReader>
    /** The header's bytes read so far, and the fields of its message when that came in, at the step
        from. */
    ghost var got: seq<byte>
    ghost var base: Fields
    ghost var from: nat
    ghost const owner: nat

    /** The readers are all different, and each has the size of its field. */
    ghost predicate Shape()
      reads readers
    {
      && |readers| == 11
      && forall k :: 0 <= k < 11 ==>
           readers[k].owner == owner && readers[k].slot == k && readers[k].Valid()
           && (k != ACTION ==> readers[k].size == InitialSize(k))
    }

    /** Only the reader of the current step's field can be part-way. */
    ghost predicate Quiet()
      reads this, readers
    {
      forall k :: 0 <= k < |readers| && readers[k].offset > 0 ==> ActiveSlot(step, flags) == Some(k)
    }

    /** The part of the current step's field collected so far. */
    ghost function Partial(): seq<byte>
      requires Shape()
      reads this, readers
    {
      match ActiveSlot(step, flags) case None => [] case Some(k) => readers[k].Got()
    }

    /** Where the current step's field starts. */
    ghost function Base(): nat
      requires step.Rank() >= 4 ==> LengthKnown(got)
      reads this
    {
      match step
      case AtFlags => 0 case AtUuid => 1 case AtActionSize => 17 case AtAction => ActionAt(flags)
      case AtDataSize => DataSizeAt(got) case AtFilesCount => FilesCountAt(got) case AtFilesSize => FilesSizeAt(got)
    }

    /** Step, flags and partial field are what the bytes read so far make them. */
    ghost predicate InPlace()
      reads this, readers
    {
      && Shape() && Quiet()
      && (if step == AtFlags then got == [] else got != [] && got[0] == flags)
      && (step.Rank() >= 3 ==> LengthKnown(got) && readers[ACTION].size == ActionSize(got))
      && Base() <= |got| && got[Base()..] == Partial()
      && (step == AtFilesSize ==> FilesCountWidth(flags) > 0)
    }

    ghost predicate Kept(m: Message)
      reads this, m`id, m`action, m`data, m`filesCount, m`totalFilesSize, m.data
    {
      Fielded(m, base, from, step.Rank(), got)
    }

    ghost predicate Tracks(m: Message)
      reads this, readers, m`id, m`action, m`data, m`filesCount, m`totalFilesSize, m.data
    {
      InPlace() && Kept(m)
    }

    ghost predicate Stands(left: nat)
      reads this
    {
      StandsAt(step, got, left)
    }

    /** The packet ends before the current step's field does: only then has the reader to wait for
        another call. */
    ghost predicate EndsWithin(left: nat)
      requires step.Rank() >= 3 ==> LengthKnown(got)
      reads this
    {
      left == 0 || |got| + left < match step
                                  case AtFlags => 1 case AtUuid => 17 case AtActionSize => ActionAt(flags)
                                  case AtAction => DataSizeAt(got) case AtDataSize => FilesCountAt(got)
                                  case AtFilesCount => FilesSizeAt(got) case AtFilesSize => HeaderLength(got)
    }

    /** An action is behind, so there is one or the packet goes on. */
    ghost predicate Goes(left: nat)
      reads this
    {
      step.Rank() >= 4 ==> |got| > ActionAt(flags) || left > 0
    }

    constructor (ghost owner: nat)
      ensures fresh(readers) && this.owner == owner
      ensures step == AtFlags && InPlace()
    {
      step, flags, got, base, from, this.owner := AtFlags, 0, [], Fields([], [], null, 0, 0), 0, owner;
      var all: seq<StreamReader> := [];
      for k := 0 to 11
        invariant |all| == k && fresh(all)
        invariant forall j :: 0 <= j < k ==>
          all[j].owner == owner && all[j].slot == j && all[j].Valid() && all[j].size == InitialSize(j) && all[j].offset == 0
      {
        var reader := new StreamReader(InitialSize(k), owner, k);
        all := all + [reader];
      }
      readers := all;
    }

    /** Filling a message's data does not disturb its fields, unless the data is that of the header
        being read. */
    twostate lemma KeptStays(m: Message)
      requires old(Kept(m)) && unchanged(this) && unchanged(m)
      requires m.data != null && from < 5 <= step.Rank() ==> unchanged(m.data) || IsNewData(m)
      ensures Kept(m)
    {
    }

    /** What the reader stands at has been reached. */
    lemma StandsReaches(left: nat)
      requires InPlace() && Stands(left)
      ensures Reaches(got, step.Rank())
    {
    }

    /** A message comes in wherever the reader is. */
    ghost method Admit(m: Message)
      requires InPlace() && Reaches(got, step.Rank()) && (m.data != null ==> m.data.owner == m)
      modifies this`base, this`from
      ensures InPlace() && Kept(m) && base == FieldsOf(m) && from == step.Rank()
    {
      base, from := FieldsOf(m), step.Rank();
    }

    // Taking bytes. n counts them; got grows by them.

    /** A one-byte field. */
    method GetByte(r: LimitedReader) returns (f: Fetch<byte>, ghost n: nat)
      requires r.Valid()
      modifies this`got, r, r.b, r.b.buffer, r.b.source
      ensures r.Valid() && r.b.buffer == old(r.b.buffer)
      ensures n <= |old(r.b.Unread())| && r.b.Unread() == old(r.b.Unread())[n..]
      ensures got == old(got) + old(r.b.Unread())[..n]
      ensures n <= old(r.size) && (!f.Broken? ==> r.size == old(r.size) - n)
      ensures f.Ready? ==> n == 1 && got == old(got) + [f.value]
      ensures f.NotReady? ==> n == 0 && old(r.size) == 0 && r.b.available == old(r.b.available)
      ensures f.Broken? ==> f.error == EndOfInput && n == 0 && r.b.Unread() == []
    {
      f := GetUint8(r);
      n := 0;
      assert got + [] == got;
      if f.Ready? {
        n := 1;
        got := got + [f.value];
      }
    }

    /** The call took n bytes: from the input, from the budget, into the header. */
    twostate predicate Took(r: LimitedReader, n: nat, ok: bool)
      requires old(r.Valid())
      reads this`got, r, r.b, r.b.buffer, r.b.source
    {
      && r.Valid() && r.b.buffer == old(r.b.buffer)
      && n <= |old(r.b.Unread())| && r.b.Unread() == old(r.b.Unread())[n..]
      && got == old(got) + old(r.b.Unread())[..n]
      && n <= old(r.size)
      && (ok ==> r.size == old(r.size) - n && (n == 0 ==> r.b.available == old(r.b.available)))
    }

    /** A field with a reader of its own, which starts at base. */
    method GetField(r: LimitedReader, slot: nat, ghost base: nat) returns (f: Fetch<seq<byte>>, ghost n: nat)
      requires Shape() && slot < 11 && r.Valid()
      requires base <= |got| && got[base..] == readers[slot].Got()
      modifies this`got, readers[slot], r, r.b`start, r.b`available, r.b.buffer, r.b.source
      ensures Shape() && r.Valid() && readers[slot].size == old(readers[slot].size)
      ensures n <= |old(r.b.Unread())| && r.b.Unread() == old(r.b.Unread())[n..]
      ensures got == old(got) + old(r.b.Unread())[..n]
      ensures n <= old(r.size) && (!f.Broken? ==> r.size == old(r.size) - n)
      ensures n == 0 && !f.Broken? ==> r.b.available == old(r.b.available)
      ensures f.Ready? ==> readers[slot].offset == 0 && old(r.size) > 0
                           && |got| == base + readers[slot].size && got[base..] == f.value
      ensures f.NotReady? ==> got[base..] == readers[slot].Got() && (old(r.size) == 0 || |got| < base + readers[slot].size)
      ensures f.NotReady? && old(r.size) > 0 && old(r.b.available) > 0 ==> n > 0
      ensures f.NotReady? ==> r.size == 0 || |got| + r.size < base + readers[slot].size
      ensures f.Broken? ==> f.error == EndOfInput && r.b.Unread() == [] && |got| < base + readers[slot].size
    {
      ghost var all := r.b.Unread();
      f, n := readers[slot].Get(r);
      Grown(got, all[..n], base);
      got := got + all[..n];
    }

    /** A number field of this width, by the reader of that size or the one-byte reader. */
    method GetNumber(r: LimitedReader, width: nat, slot: nat, ghost base: nat) returns (f: Fetch<nat>, ghost n: nat)
      requires Shape() && r.Valid() && slot < 11 && slot != ACTION
      requires (width == 1 || (width in {2, 3, 6} && InitialSize(slot) == width))
      requires base <= |got| && got[base..] == if width == 1 then [] else readers[slot].Got()
      modifies this`got, readers[slot], r, r.b, r.b.buffer, r.b.source
      ensures Shape() && Took(r, n, !f.Broken?) && (width == 1 ==> readers[slot].offset == old(readers[slot].offset))
      ensures f.Ready? ==> |got| == base + width && f.value == Value(got[base..base + width])
                           && (width > 1 ==> readers[slot].offset == 0)
      ensures f.NotReady? ==> |got| < base + width && got[base..] == if width == 1 then [] else readers[slot].Got()
      ensures f.NotReady? && old(r.size) > 0 && old(r.b.available) > 0 ==> n > 0
      ensures f.NotReady? ==> r.size == 0 || |got| + r.size < base + width
      ensures f.Broken? ==> f.error == EndOfInput && r.b.Unread() == [] && |got| < base + width
    {
      if width == 1 {
        var v;
        v, n := GetByte(r);
        if v.Ready? {
          assert got[base..base + 1] == [v.value];
        }
        return match v { case Ready(x) => Ready(x) case NotReady => NotReady case Broken(e) => Broken(e) }, n;
      }
      var v;
      v, n := GetField(r, slot, base);
      if !v.Ready? {
        return if v.NotReady? then NotReady else Broken(v.error), n;
      }
      assert got[base..base + width] == v.value == v.value[0..width];
      ReadersAgree(v.value, 0);
      f := Ready(if width == 2 then ReadUint16(v.value, 0) else if width == 3 then ReadUint24(v.value, 0) else ReadUint48(v.value, 0));
    }

    /** The fields of the current step and before have just been read to their end. */
    ghost predicate ReadTo(end: nat)
      reads this, readers
    {
      && Shape() && (forall k :: 0 <= k < 11 ==> readers[k].offset == 0)
      && got != [] && got[0] == flags && |got| == end
      && (step.Rank() >= 3 ==> LengthKnown(got) && readers[ACTION].size == ActionSize(got))
    }

    lemma PartialIs(width: nat, slot: nat)
      requires Shape() && slot < 11 && step.Rank() >= 4
      requires ActiveSlot(step, flags) == if width <= 1 then None else Some(slot)
      ensures Partial() == if width <= 1 then [] else readers[slot].Got()
    {
    }

    /** The number in the current step's field, which has this width; none for width 0. */
    method GetSizeField(r: LimitedReader, width: nat, slot: nat) returns (f: Fetch<nat>, ghost n: nat)
      requires InPlace() && step.Rank() >= 4 && r.Valid()
      requires FitsSlot(step, flags, width, slot) && Base() + width <= HeaderLength(got)
      modifies this`got, readers[slot], r, r.b, r.b.buffer, r.b.source
      ensures Took(r, n, !f.Broken?) && (width == 0 ==> f.Ready? && n == 0)
      ensures LengthKnown(got) && Base() == old(Base()) && HeaderLength(got) == old(HeaderLength(got)) && got[0] == flags
      ensures !f.Ready? ==> Base() <= |got| < Base() + width
      ensures f.NotReady? ==> InPlace() && (r.size == 0 || |got| + r.size < Base() + width)
      ensures f.NotReady? && old(r.size) > 0 && old(r.b.available) > 0 ==> n > 0
      ensures f.Ready? ==> ReadTo(Base() + width) && f.value == Value(got[Base()..|got|])
      ensures f.Broken? ==> f.error == EndOfInput && r.b.Unread() == []
    {
      if width == 0 {
        assert got + [] == got && got[Base()..|got|] == [];
        return Ready(0), 0;
      }
      f, n := GetWideField(r, width, slot);
    }

    method GetWideField(r: LimitedReader, width: nat, slot: nat) returns (f: Fetch<nat>, ghost n: nat)
      requires InPlace() && step.Rank() >= 4 && r.Valid()
      requires FitsSlot(step, flags, width, slot) && width > 0 && Base() + width <= HeaderLength(got)
      modifies this`got, readers[slot], r, r.b, r.b.buffer, r.b.source
      ensures Took(r, n, !f.Broken?)
      ensures LengthKnown(got) && Base() == old(Base()) && HeaderLength(got) == old(HeaderLength(got)) && got[0] == flags
      ensures !f.Ready? ==> Base() <= |got| < Base() + width
      ensures f.NotReady? ==> InPlace() && (r.size == 0 || |got| + r.size < Base() + width)
      ensures f.NotReady? && old(r.size) > 0 && old(r.b.available) > 0 ==> n > 0
      ensures f.Ready? ==> ReadTo(Base() + width) && f.value == Value(got[Base()..|got|])
      ensures f.Broken? ==> f.error == EndOfInput && r.b.Unread() == []
    {
      hide Value, Pow256, ActionSize, ActiveSlot, InitialSize, HeaderLength, BufferedReader.Unread;
      ghost var base := Base();
      PartialIs(width, slot);
      f, n := GetNumber(r, width, slot, base);
      FieldsStay(old(got), got);
      assert Base() == base;
      if !f.Ready? {
        PartialIs(width, slot);
      } else {
        assert got[base..base + width] == got[base..|got|];
      }
    }

    // One method a step. Ready(true) is the end of the header.

    /** What one step, or several, come to. */
    twostate predicate Stepped(m: Message, r: LimitedReader, new f: Fetch<bool>, new n: nat)
      requires old(r.Valid())
      reads this, readers, m, m.data, r, r.b, r.b.buffer, r.b.source
    {
      && Took(r, n, !f.Broken? || f.error == Panic)
      && step.Rank() >= old(step.Rank())
      && (if step.Rank() >= 5 > old(step.Rank()) then fresh(m.data) else m.data == old(m.data))
      && match f
         case NotReady => Tracks(m) && Stands(r.size) && EndsWithin(r.size) && (old(r.size) > 0 && old(r.b.available) > 0 ==> n > 0)
         case Ready(over) =>
           if over then Finished(m, r.size) else Tracks(m) && Goes(r.size) && step.Rank() > old(step.Rank())
         case Broken(e) =>
           if e == Panic then EndsBroken(got, r.size) && step == AtFilesSize && Kept(m)
           else e == EndOfInput && r.b.Unread() == [] && Kept(m) && Stands(old(r.size) - n)
    }

    /** The header has been read to its end and is in the message. */
    ghost predicate Finished(m: Message, left: nat)
      reads this, readers, m, m.data
    {
      && step.Rank() >= 5 && LengthKnown(got) && ReadTo(HeaderLength(got)) && Complete(got, left)
      && !FilesSizeBroken(got[0]) && Fielded(m, base, from, OVER, got)
    }

    method GetFlags(m: Message, r: LimitedReader) returns (f: Fetch<bool>, ghost n: nat)
      requires Tracks(m) && step == AtFlags && r.Valid()
      modifies this`got, this`step, this`flags, r, r.b, r.b.buffer, r.b.source
      ensures Stepped(m, r, f, n)
    {
      hide BufferedReader.Unread;
      var v;
      v, n := GetByte(r);
      if !v.Ready? {
        return if v.NotReady? then NotReady else Broken(v.error), n;
      }
      flags := v.value;
      step := AtUuid;
      f := Ready(false);
    }

    method GetUuid(m: Message, r: LimitedReader) returns (f: Fetch<bool>, ghost n: nat)
      requires Tracks(m) && step == AtUuid && r.Valid()
      modifies this`got, this`step, readers, m`id, r, r.b, r.b.buffer, r.b.source
      ensures Stepped(m, r, f, n)
    {
      hide Fielded, Value, Pow256, ActionSize, BufferedReader.Unread;
      var v;
      v, n := GetField(r, UUID, 1);
      FieldsGrow(m, base, from, step.Rank(), old(got), got);
      if !v.Ready? {
        return if v.NotReady? then NotReady else Broken(v.error), n;
      }
      EnterActionSize(m, v.value);
      f := Ready(false);
    }

    method EnterActionSize(m: Message, id: seq<byte>)
      requires step == AtUuid && Kept(m) && ReadTo(17) && id == got[1..]
      modifies this`step, m`id
      ensures Tracks(m) && step == AtActionSize && got == old(got)
    {
      hide InitialSize, Value, Pow256, HeaderLength, FilesSizeWidth, FilesCountWidth, DataSizeWidth;
      m.id := id;
      step := AtActionSize;
    }

    method GetActionSize(m: Message, r: LimitedReader) returns (f: Fetch<bool>, ghost n: nat)
      requires Tracks(m) && step == AtActionSize && r.Valid()
      modifies this`got, this`step, readers, r, r.b, r.b.buffer, r.b.source
      ensures Stepped(m, r, f, n)
    {
      hide Fielded, Value, Pow256, BufferedReader.Unread;
      var v;
      v, n := GetNumber(r, if flags / 2 % 2 == 0 then 1 else 2, ACTION_SIZE_16, 17);
      FieldsGrow(m, base, from, step.Rank(), old(got), got);
      assert got[0] == flags && |got| >= 17;
      if !v.Ready? {
        return if v.NotReady? then NotReady else Broken(v.error), n;
      }
      EnterAction(m, v.value);
      f := Ready(false);
    }

    method EnterAction(m: Message, size: nat)
      requires step == AtActionSize && ReadTo(ActionAt(flags)) && size == Value(got[17..ActionAt(flags)]) && Kept(m)
      modifies this`step, readers[ACTION]
      ensures Tracks(m) && step == AtAction && got == old(got)
    {
      hide InitialSize, FilesSizeWidth;
      readers[ACTION].Resize(size);
      step := AtAction;
    }

    method GetAction(m: Message, r: LimitedReader) returns (f: Fetch<bool>, ghost n: nat)
      requires Tracks(m) && step == AtAction && r.Valid()
      modifies this`got, this`step, readers, m`action, r, r.b, r.b.buffer, r.b.source
      ensures Stepped(m, r, f, n)
    {
      hide Fielded, Value, Pow256, ActionSize, HeaderLength, InitialSize, BufferedReader.Unread;
      var v;
      v, n := GetField(r, ACTION, ActionAt(flags));
      FieldsStay(old(got), got);
      FieldsGrow(m, base, from, step.Rank(), old(got), got);
      if !v.Ready? {
        return if v.NotReady? then NotReady else Broken(v.error), n;
      }
      EnterDataSize(m, v.value);
      f := Ready(false);
    }

    method EnterDataSize(m: Message, action: seq<byte>)
      requires step == AtAction && Kept(m)
      requires LengthKnown(got) && ReadTo(DataSizeAt(got)) && action == got[ActionAt(flags)..]
      modifies this`step, m`action
      ensures Tracks(m) && step == AtDataSize && got == old(got)
    {
      hide InitialSize, Value, Pow256, HeaderLength, FilesSizeWidth, FilesCountWidth, DataSizeWidth;
      assert action == got[ActionAt(got[0])..DataSizeAt(got)] && got[DataSizeAt(got)..] == [];
      m.action := action;
      step := AtDataSize;
    }

    method GetDataSize(m: Message, r: LimitedReader) returns (f: Fetch<bool>, ghost n: nat)
      requires Tracks(m) && step == AtDataSize && Goes(r.size) && r.Valid()
      modifies this`got, this`step, readers, m`data, r, r.b, r.b.buffer, r.b.source
      ensures Stepped(m, r, f, n)
    {
      hide Fielded, Value, Pow256, ActionSize, ActiveSlot, InitialSize, Quiet, MessageReader.Partial, BufferedReader.Unread;
      var v;
      SlotsFit(flags);
      v, n := GetSizeField(r, DataSizeWidth(flags), DataSizeSlot(flags));
      FieldsGrow(m, base, from, step.Rank(), old(got), got);
      if !v.Ready? {
        return if v.NotReady? then NotReady else Broken(v.error), n;
      }
      EnterFilesCount(m, v.value);
      f := Ready(false);
    }

    method EnterFilesCount(m: Message, size: nat)
      requires step == AtDataSize && Kept(m) && LengthKnown(got) && ReadTo(FilesCountAt(got))
      requires size == Value(got[DataSizeAt(got)..|got|])
      modifies this`step, m`data
      ensures Tracks(m) && step == AtFilesCount && got == old(got) && fresh(m.data)
    {
      hide Fielded, ReadTo, InPlace, Value, ActionSize, DataSizeWidth, ActionSizeWidth;
      var data := new MessageData(size, m);
      SetData(m, data);
    }

    method SetData(m: Message, data: MessageData)
      requires step == AtDataSize && Kept(m) && LengthKnown(got) && ReadTo(FilesCountAt(got))
      requires data.Valid() && data.owner == m && data.pushed == [] && data.err.None?
      requires data.size == Value(got[DataSizeAt(got)..|got|])
      modifies this`step, m`data
      ensures Tracks(m) && step == AtFilesCount && got == old(got) && m.data == data
    {
      hide Value, Pow256, ActionSize, InitialSize, FilesSizeWidth, FilesCountWidth, HeaderLength;
      m.data := data;
      step := AtFilesCount;
    }

    /** Without files the header ends here. */
    method GetFilesCount(m: Message, r: LimitedReader) returns (f: Fetch<bool>, ghost n: nat)
      requires Tracks(m) && step == AtFilesCount && Goes(r.size) && r.Valid()
      modifies this`got, this`step, readers, m`filesCount, m`totalFilesSize, r, r.b, r.b.buffer, r.b.source
      ensures Stepped(m, r, f, n)
    {
      hide Fielded, Value, Pow256, ActionSize, ActiveSlot, InitialSize, Quiet, BufferedReader.Unread;
      var v;
      SlotsFit(flags);
      v, n := GetSizeField(r, FilesCountWidth(flags), FilesCountSlot(flags));
      FieldsGrow(m, base, from, step.Rank(), old(got), got);
      if !v.Ready? {
        return if v.NotReady? then NotReady else Broken(v.error), n;
      }
      f := SetFilesCount(m, v.value, r.size);
    }

    method SetFilesCount(m: Message, count: nat, ghost left: nat) returns (f: Fetch<bool>)
      requires step == AtFilesCount && Kept(m) && Goes(left)
      requires LengthKnown(got) && ReadTo(FilesSizeAt(got)) && count == Value(got[FilesCountAt(got)..|got|])
      modifies this`step, m`filesCount, m`totalFilesSize
      ensures f.Ready? && got == old(got)
      ensures if f.value then Finished(m, left) else Tracks(m) && Goes(left) && step == AtFilesSize
    {
      hide Value, Pow256, ActionSize, InitialSize;
      if flags / 16 % 4 == 0 {
        m.filesCount := 0;
        m.totalFilesSize := 0;
        assert got[FilesSizeAt(got)..HeaderLength(got)] == [] == got[FilesCountAt(got)..FilesSizeAt(got)];
        NoBytes();
        return Ready(true);
      }
      m.filesCount := count;
      step := AtFilesSize;
      f := Ready(false);
    }

    method GetFilesSize(m: Message, r: LimitedReader) returns (f: Fetch<bool>, ghost n: nat)
      requires Tracks(m) && step == AtFilesSize && Goes(r.size) && r.Valid()
      modifies this`got, this`step, readers, m`totalFilesSize, r, r.b, r.b.buffer, r.b.source
      ensures Stepped(m, r, f, n)
    {
      hide Fielded, Value, Pow256, ActionSize, ActiveSlot, InitialSize, Quiet, BufferedReader.Unread;
      var v;
      SlotsFit(flags);
      v, n := GetSizeField(r, FilesSizeWidth(flags), FilesSizeSlot(flags));
      FieldsGrow(m, base, from, step.Rank(), old(got), got);
      if !v.Ready? {
        return if v.NotReady? then NotReady else Broken(v.error), n;
      }
      assert Base() + FilesSizeWidth(flags) == HeaderLength(got);
      if flags / 4 % 4 == 2 {
        return Broken(Panic), n;
      }
      SetFilesSize(m, v.value);
      f := Ready(true);
    }

    method SetFilesSize(m: Message, size: nat)
      requires step == AtFilesSize && Kept(m)
      requires LengthKnown(got) && |got| == HeaderLength(got) && size == Value(got[FilesSizeAt(got)..|got|])
      modifies m`totalFilesSize
      ensures Fielded(m, base, from, OVER, got)
    {
      m.totalFilesSize := size;
    }

    /** One step, whichever is next. */
    method Take(m: Message, r: LimitedReader) returns (f: Fetch<bool>, ghost n: nat)
      requires Tracks(m) && Goes(r.size) && r.Valid()
      modifies this`got, this`step, this`flags, readers, m`id, m`action, m`data, m`filesCount, m`totalFilesSize,
               r, r.b, r.b.buffer, r.b.source
      ensures Stepped(m, r, f, n)
    {
      hide Fielded, InPlace, Finished, StandsAt, Complete, Took;
      match step
      case AtFlags => f, n := GetFlags(m, r);
      case AtUuid => f, n := GetUuid(m, r);
      case AtActionSize => f, n := GetActionSize(m, r);
      case AtAction => f, n := GetAction(m, r);
      case AtDataSize => f, n := GetDataSize(m, r);
      case AtFilesCount => f, n := GetFilesCount(m, r);
      case AtFilesSize => f, n := GetFilesSize(m, r);
    }

    /** Two takes in a row are one. */
    static lemma TookBoth(g: seq<byte>, all: seq<byte>, n: nat, more: nat)
      requires n <= |all| && more <= |all[n..]|
      ensures g + all[..n] + all[n..][..more] == g + all[..n + more] && all[n..][more..] == all[n + more..]
    {
      assert all[..n] + all[n..][..more] == all[..n + more];
      assert g + all[..n] + all[n..][..more] == g + (all[..n] + all[n..][..more]);
    }

    /** The steps from the current one on, until one does not lead to the next. */
    method GetFrom(m: Message, r: LimitedReader) returns (f: Fetch<bool>, ghost n: nat)
      requires Tracks(m) && Goes(r.size) && r.Valid()
      modifies this`got, this`step, this`flags, readers, m`id, m`action, m`data, m`filesCount, m`totalFilesSize,
               r, r.b, r.b.buffer, r.b.source
      ensures Stepped(m, r, f, n) && f != Ready(false)
      decreases OVER - step.Rank()
    {
      hide Fielded, InPlace, ReadTo, StandsAt, Complete, LengthKnown, FilesSizeBroken, EndsBroken, Goes, Finished,
        BufferedReader.Unread;
      f, n := Take(m, r);
      if f == Ready(false) {
        ghost var more;
        f, more := GetFrom(m, r);
        TookBoth(old(got), old(r.b.Unread()), n, more);
        n := n + more;
      }
    }

    /** One call: as far as the budget and the input allow. read is the header as far as it has been
        read, over all calls since the last header. Ready exactly at the header's last byte, with
        the fields that have come in since the message did, and then ready for the next header. */
    method Get(m: Message, r: LimitedReader) returns (f: Fetch<()>, ghost n: nat, ghost read: seq<byte>)
      requires Tracks(m) && Goes(r.size) && r.Valid()
      modifies this, readers, m`id, m`action, m`data, m`filesCount, m`totalFilesSize, r, r.b, r.b.buffer, r.b.source
      ensures r.Valid() && r.b.buffer == old(r.b.buffer)
      ensures if (f.Ready? || step.Rank() >= 5) && old(step.Rank()) < 5 then fresh(m.data) else m.data == old(m.data)
      ensures n <= |old(r.b.Unread())| && r.b.Unread() == old(r.b.Unread())[n..]
      ensures read == old(got) + old(r.b.Unread())[..n]
      ensures n <= old(r.size) && (!f.Broken? || f.error == Panic ==> r.size == old(r.size) - n)
      ensures f.NotReady? && old(r.size) > 0 && old(r.b.available) > 0 ==> n > 0
      ensures !f.Ready? ==> got == read && base == old(base) && from == old(from) && Kept(m)
      ensures f.NotReady? ==> InPlace() && Stands(r.size) && EndsWithin(r.size)
      ensures f.Ready? ==> Complete(read, r.size) && !FilesSizeBroken(read[0])
                           && Fielded(m, old(base), old(from), OVER, read)
      ensures f.Ready? ==> Tracks(m) && step == AtFlags && got == [] && from == 0
      ensures f == Broken(Panic) ==> EndsBroken(read, r.size) && step == AtFilesSize
      ensures f.Broken? && f.error != Panic ==>
                f.error == EndOfInput && r.b.Unread() == [] && Stands(old(r.size) - n)
    {
      hide Fielded, InPlace, ReadTo, StandsAt, Complete, LengthKnown, FilesSizeBroken, EndsBroken, BufferedReader.Unread;
      var over;
      over, n := GetFrom(m, r);
      read := got;
      f := match over { case Ready(_) => Ready(()) case NotReady => NotReady case Broken(e) => Broken(e) };
      if f.Ready? {
        Reset(m, r.size);
      }
    }

    method Reset(m: Message, ghost left: nat)
      requires Finished(m, left)
      modifies this`step, this`got, this`base, this`from
      ensures Tracks(m) && step == AtFlags && got == [] && from == 0
    {
      step := AtFlags;
      got := [];
      Admit(m);
    }
  }

  /** The message's fields are those of this header. */
  ghost predicate Holds(m: Message, h: Header)
    reads m, m.data
  {
    && m.id == h.id && m.action == h.action && m.filesCount == h.filesCount && m.totalFilesSize == h.totalFilesSize
    && m.data != null && IsNewData(m) && m.data.size == h.dataSize
  }

  /** So much of the input is a whole header, and the message has it. */
  ghost predicate IsDecoded(m: Message, got: seq<byte>, left: nat)
    reads m, m.data
  {
    Complete(got, left) && Holds(m, DecodeHeader(got))
  }

  /** A message that was there from the header's first byte to its last. */
  lemma WholeHeader(m: Message, base: Fields, got: seq<byte>, left: nat)
    requires Complete(got, left) && Fielded(m, base, 0, OVER, got)
    ensures IsDecoded(m, got, left)
  {
  }

  /** Standing somewhere in a packet, the reader can go on in it. */
  lemma StandsGoes(p: MessageReader, left: nat)
    requires p.InPlace() && p.Stands(left)
    ensures p.Goes(left) && (left == 0 ==> forall size: nat :: p.Goes(size))
  {
  }

  lemma StandsAtStart(p: MessageReader)
    requires p.InPlace() && p.step == AtFlags
    ensures p.got == [] && p.Stands(0)
  {
  }

  lemma TakenAndLeft(got: seq<byte>, all: seq<byte>, n: nat)
    requires n <= |all|
    ensures got + all == got + all[..n] + all[n..]
  {
  }

  /** The calls made while one packet lasts: the first at once, the others when bytes have come in. */
  method ReadPacket(p: MessageReader, m: Message, r: LimitedReader) returns (f: Fetch<()>, ghost read: seq<byte>)
    requires p.Tracks(m) && p.Goes(r.size) && p.from == 0 && r.Valid()
    modifies p, p.readers, m, r, r.b, r.b.buffer, r.b.source
    ensures r.Valid() && r.b.buffer == old(r.b.buffer)
    ensures old(p.got) + old(r.b.Unread()) == read + r.b.Unread()
    ensures f.Ready? ==> IsDecoded(m, read, r.size) && p.Tracks(m) && p.step == AtFlags
    ensures f.NotReady? ==> p.Tracks(m) && p.from == 0 && p.got == read && r.size == 0 && p.Stands(0)
    ensures f.Broken? ==> if f.error == EndOfInput then r.b.Unread() == [] else f.error == Panic && EndsBroken(read, r.size)
    ensures f != Broken(EndOfInput) ==> |read| + r.size == old(|p.got| + r.size)
    decreases r.size, if r.b.available > 0 then 0 else 1
  {
    hide Fielded, StandsAt, IsDecoded, Complete, FilesSizeBroken, EndsBroken, MessageReader.Goes, BufferedReader.Unread,
      MessageReader.InPlace;
    ghost var n;
    f, n, read := p.Get(m, r);
    TakenAndLeft(old(p.got), old(r.b.Unread()), n);
    if f.Ready? {
      WholeHeader(m, old(p.base), read, r.size);
    } else if f.NotReady? && r.size > 0 {
      var error := r.Preload();
      if error.Some? {
        return Broken(EndOfInput), read;
      }
      StandsGoes(p, r.size);
      f, read := ReadPacket(p, m, r);
    }
  }

  function Total(packets: seq<nat>): nat
    decreases |packets|
  {
    if packets == [] then 0 else Total(packets[..|packets| - 1]) + packets[|packets| - 1]
  }

  /** A header read over any succession of packets: the result is that of decoding it at once, and it
      comes at the header's last byte. It does not come only if packets or input are used up before. */
  method ReadInPieces(p: MessageReader, m: Message, r: LimitedReader, packets: seq<nat>)
    returns (f: Fetch<()>, ghost read: seq<byte>, ghost used: nat)
    requires p.Tracks(m) && p.step == AtFlags && p.from == 0 && r.Valid()
    modifies p, p.readers, m, r, r.b, r.b.buffer, r.b.source
    ensures r.Valid() && old(r.b.Unread()) == read + r.b.Unread()
    ensures used <= |packets| && (f != Broken(EndOfInput) && packets != [] ==> |read| + r.size == Total(packets[..used]))
    ensures f.Ready? ==> IsDecoded(m, read, r.size) && p.step == AtFlags
    ensures f.NotReady? ==> StandsAt(p.step, read, 0) && used == |packets| && |read| == Total(packets)
    ensures f.Broken? ==> if f.error == EndOfInput then r.b.Unread() == [] else f.error == Panic && EndsBroken(read, r.size)
  {
    hide Fielded, IsDecoded, EndsBroken, StandsAt, MessageReader.InPlace, BufferedReader.Unread;
    f, read, used := NotReady, [], 0;
    StandsAtStart(p);
    ghost var all := r.b.Unread();
    for k := 0 to |packets|
      invariant r.Valid() && r.b.buffer == old(r.b.buffer)
      invariant f.NotReady? && p.Tracks(m) && p.from == 0 && p.got == read && p.Stands(0)
      invariant all == read + r.b.Unread() && used == k && |read| == Total(packets[..k]) && (k > 0 ==> r.size == 0)
    {
      StandsGoes(p, 0);
      r.size := packets[k];
      assert packets[..k + 1][..k] == packets[..k];
      used := k + 1;
      f, read := ReadPacket(p, m, r);
      if !f.NotReady? {
        return;
      }
    }
    assert packets[..|packets|] == packets;
  }
}
