/** Reading bytes in pieces (buffered_reader.go, stream_reader.go): a source that gives what it
    likes, a buffered reader over it, a byte budget for one packet, and fields collected over
    several calls. Everything is stated through Unread, the bytes not yet taken. */
module ReaderObjects {
  import opened Bytes
  import opened Demux
  import opened Channels

  /** Where the bytes come from. The schedule says how many bytes each read yields, so a statement
      about all sources is one about all ways of cutting up the input. A read into a non-empty
      buffer yields at least one byte, or the end of the input. */
  class Source {
    var pending: seq<byte>
    var schedule: seq<nat>

    constructor (pending: seq<byte>, schedule: seq<nat>)
      ensures this.pending == pending && this.schedule == schedule
    {
      this.pending, this.schedule := pending, schedule;
    }

    method Read(target: array<byte>, from: nat) returns (n: nat, error: Option<Error>)
      requires from < target.Length
      modifies this, target
      ensures error == if old(pending) == [] then Some(EndOfInput) else None
      ensures error.Some? ==> n == 0
      ensures error.None? ==> 1 <= n <= target.Length - from && n <= |old(pending)|
      ensures pending == old(pending)[n..]
      ensures target[from..from + n] == old(pending)[..n]
      ensures target[..from] == old(target[..from])
    {
      if pending == [] {
        return 0, Some(EndOfInput);
      }
      n := target.Length - from;
      if |pending| < n { n := |pending|; }
      if schedule != [] {
        if 1 <= schedule[0] < n { n := schedule[0]; }
        schedule := schedule[1..];
      }
      forall k | 0 <= k < n {
        target[from + k] := pending[k];
      }
      assert target[..from] == old(target[..from]);
      assert target[from..from + n] == pending[..n] by {
        forall k | 0 <= k < n ensures target[from..from + n][k] == pending[..n][k] { assert target[from + k] == pending[k]; }
      }
      pending := pending[n..];
      error := None;
    }
  }

  const MIN_READ_BUFFER_SIZE: nat := 16

  class BufferedReader {
    const source: Source
    var eof: bool
    var buffer: array<byte>
    var start: nat
    var available: nat

    /** Nothing ever sets eof. An empty window starts at 0, so a load always has room. */
    ghost predicate Valid()
      reads this
    {
      && !eof
      && MIN_READ_BUFFER_SIZE <= buffer.Length
      && start + available <= buffer.Length
      && (available == 0 ==> start == 0)
    }

    /** The bytes still to be delivered: the window, then what the source has left. */
    ghost function Unread(): seq<byte>
      requires Valid()
      reads this, buffer, source
    {
      buffer[start..start + available] + source.pending
    }

    constructor (source: Source, buffer: array<byte>)
      requires MIN_READ_BUFFER_SIZE <= buffer.Length
      ensures Valid() && this.source == source && this.buffer == buffer && available == 0
      ensures Unread() == source.pending
    {
      this.source := source;
      this.buffer := buffer;
      eof, start, available := false, 0, 0;
    }

    method LoadBytes() returns (error: Option<Error>)
      requires Valid() && start + available < buffer.Length
      modifies this`available, buffer, source
      ensures Valid() && Unread() == old(Unread())
      ensures error == if old(source.pending) == [] then Some(EndOfInput) else None
      ensures error.Some? ==> available == old(available) && source.pending == []
      ensures error.None? ==> available > old(available) && |source.pending| < old(|source.pending|)
    {
      var n: nat;
      n, error := source.Read(buffer, start + available);
      ghost var window, more := old(buffer[start..start + available]), old(source.pending);
      assert buffer[start..start + available] == window;
      assert buffer[start..start + available + n] == window + more[..n];
      assert more == more[..n] + more[n..];
      if error.None? {
        available := available + n;
      }
    }

    method Preload() returns (error: Option<Error>)
      requires Valid()
      modifies this`available, buffer, source
      ensures Valid() && Unread() == old(Unread())
      ensures error == if old(Unread()) == [] then Some(EndOfInput) else None
      ensures error.None? ==> available > 0
    {
      if available > 0 {
        return None;
      } else if eof {
        return Some(EndOfInput);
      }
      error := LoadBytes();
    }

    /** Makes size bytes available at the start of the window, rotating the buffer if they would
        not fit behind it. With size 1 there is never anything to rotate. */
    method Ensure(size: nat) returns (error: Option<Error>)
      requires Valid() && 1 <= size <= buffer.Length
      modifies this, buffer, source
      ensures Valid() && Unread() == old(Unread())
      ensures buffer == old(buffer) || fresh(buffer)
      ensures size == 1 ==> buffer == old(buffer) && start == old(start)
      ensures error == if |old(Unread())| < size then Some(EndOfInput) else None
      ensures error.None? ==> available >= size
      ensures error.Some? ==> source.pending == []
    {
      if buffer.Length - start < size {
        Rotate();
      }
      error := None;
      while available < size
        invariant Valid() && Unread() == old(Unread()) && error.None?
        invariant buffer == old(buffer) || fresh(buffer)
        invariant size == 1 ==> buffer == old(buffer) && start == old(start)
        invariant start + size <= buffer.Length
        decreases |source.pending|
      {
        error := LoadBytes();
        if error.Some? {
          return;
        }
      }
    }

    method Rotate()
      requires Valid()
      modifies this
      ensures Valid() && Unread() == old(Unread())
      ensures fresh(buffer) && buffer.Length == old(buffer.Length) && start == 0 && available == old(available)
    {
      var rotated := buffer[start..] + buffer[..start];
      var b := new byte[buffer.Length](i requires 0 <= i < |rotated| => rotated[i]);
      assert b[..] == rotated;
      assert b[0..available] == buffer[start..start + available];
      buffer, start := b, 0;
    }

    method Collect(size: nat)
      requires Valid() && size <= available
      modifies this`start, this`available
      ensures Valid() && Unread() == old(Unread())[size..] && available == old(available) - size
    {
      assert buffer[start..start + available][size..] == buffer[start + size..start + available];
      start := start + size;
      available := available - size;
      if available == 0 {
        start := 0;
      }
    }

    method Len() returns (n: nat)
      ensures n == available
    {
      n := available;
    }

    method MayHave(size: nat) returns (may: bool)
      requires Valid()
      ensures may
    {
      may := !eof || available >= size;
    }

    method ReadByte() returns (b: byte, error: Option<Error>)
      requires Valid()
      modifies this, buffer, source
      ensures Valid() && buffer == old(buffer)
      ensures error == if old(Unread()) == [] then Some(EndOfInput) else None
      ensures error.None? ==> b == old(Unread())[0] && Unread() == old(Unread())[1..]
      ensures error.Some? ==> Unread() == []
    {
      error := Ensure(1);
      if error.Some? {
        return 0, error;
      }
      b := buffer[start];
      assert b == Unread()[0];
      Collect(1);
    }

    /** Fills target, loading as often as it takes. */
    method Read(target: array<byte>) returns (n: nat, error: Option<Error>)
      requires Valid() && target != buffer
      modifies this`start, this`available, buffer, source, target
      ensures Valid()
      ensures n == if |old(Unread())| < target.Length then |old(Unread())| else target.Length
      ensures error == if |old(Unread())| < target.Length then Some(EndOfInput) else None
      ensures target[..n] == old(Unread())[..n] && Unread() == old(Unread())[n..]
      ensures target.Length == 0 ==> available == old(available)
    {
      hide Unread;
      var o, l := 0, target.Length;
      error := None;
      ghost var all := Unread();
      while o < l
        invariant Valid() && o <= l && o <= |all| && target != buffer
        invariant l == 0 ==> available == old(available)
        invariant Unread() == all[o..]
        invariant target[..o] == all[..o]
        decreases l - o, |source.pending|
      {
        var left := l - o;
        HoldsWindow();
        if available >= left {
          Take(target, o, left);
          Pieces(all, o, left);
          return l, None;
        } else if available > 0 {
          var got := available;
          Take(target, o, got);
          Pieces(all, o, got);
          o := o + got;
        }
        error := LoadBytes();
        if error.Some? {
          HoldsWindow();
          return o, error;
        }
      }
      return o, None;
    }

    /** The window is unread; if it is empty and the source is too, nothing is. */
    lemma HoldsWindow()
      requires Valid()
      ensures |Unread()| == available + |source.pending|
    {
    }

    static lemma Pieces(all: seq<byte>, o: nat, more: nat)
      requires o + more <= |all|
      ensures all[..o] + all[o..][..more] == all[..o + more] && all[o..][more..] == all[o + more..]
    {
    }

    /** Copies the first bytes of the window out of it. */
    method Take(target: array<byte>, at: nat, size: nat)
      requires Valid() && size <= available && at + size <= target.Length && target != buffer
      modifies target, this`start, this`available
      ensures Valid() && target[..at + size] == old(target[..at]) + old(Unread())[..size]
      ensures Unread() == old(Unread())[size..] && available == old(available) - size
    {
      forall k | 0 <= k < size {
        target[at + k] := buffer[start + k];
      }
      assert Unread() == old(Unread());
      assert target[..at + size] == old(target[..at]) + Unread()[..size];
      Collect(size);
    }
  }

  /** A byte budget for one packet over the shared reader. The budget is charged before reading. */
  class LimitedReader {
    const b: BufferedReader
    var size: nat

    ghost predicate Valid()
      reads this, b
    {
      b.Valid()
    }

    constructor (b: BufferedReader, size: nat)
      ensures this.b == b && this.size == size
    {
      this.b, this.size := b, size;
    }

    method Charge(n: nat) returns (error: Option<Error>)
      modifies this
      ensures error == if n > old(size) then Some(OutOfBounds) else None
      ensures size == if error.None? then old(size) - n else old(size)
    {
      if n > size {
        return Some(OutOfBounds);
      }
      size := size - n;
      error := None;
    }

    method Len() returns (n: nat)
      requires Valid()
      ensures n == if size > b.available then b.available else size
    {
      var l := b.Len();
      n := if size > l then l else size;
    }

    method MayHave(n: nat) returns (may: bool)
      requires Valid()
      ensures may == (n <= size)
    {
      may := b.MayHave(n);
      may := n <= size && may;
    }

    method ReadByte() returns (v: byte, error: Option<Error>)
      requires Valid()
      modifies this, b, b.buffer, b.source
      ensures Valid() && b.buffer == old(b.buffer)
      ensures error == if old(size) == 0 then Some(OutOfBounds) else if old(b.Unread()) == [] then Some(EndOfInput) else None
      ensures size == if old(size) == 0 then 0 else old(size) - 1
      ensures error.None? ==> v == old(b.Unread())[0] && b.Unread() == old(b.Unread())[1..]
      ensures error == Some(EndOfInput) ==> b.Unread() == []
    {
      error := Charge(1);
      if error.Some? {
        return 0, error;
      }
      v, error := b.ReadByte();
    }

    method Read(target: array<byte>) returns (n: nat, error: Option<Error>)
      requires Valid() && target != b.buffer
      modifies this, b`start, b`available, b.buffer, b.source, target
      ensures Valid()
      ensures target.Length > old(size) ==>
                n == 0 && error == Some(OutOfBounds) && size == old(size) && b.Unread() == old(b.Unread())
      ensures target.Length <= old(size) ==>
                var all := old(b.Unread());
                && size == old(size) - target.Length
                && n == (if |all| < target.Length then |all| else target.Length)
                && error == (if |all| < target.Length then Some(EndOfInput) else None)
                && target[..n] == all[..n] && b.Unread() == all[n..]
      ensures target.Length == 0 ==> b.available == old(b.available)
    {
      error := Charge(target.Length);
      if error.Some? {
        return 0, error;
      }
      n, error := b.Read(target);
    }

    method Preload() returns (error: Option<Error>)
      requires Valid()
      modifies b`available, b.buffer, b.source
      ensures Valid() && b.Unread() == old(b.Unread())
      ensures error == if size == 0 || old(b.Unread()) == [] then Some(EndOfInput) else None
      ensures error.None? ==> b.available > 0
    {
      if size == 0 {
        return Some(EndOfInput);
      }
      error := b.Preload();
    }
  }

  /** What a field reader answers: the field, "not enough bytes yet", or an error. */
  datatype Fetch<+T> = Ready(value: T) | NotReady | Broken(error: Error)

  /** The one-byte reader keeps nothing between calls. */
  method GetUint8(source: LimitedReader) returns (r: Fetch<byte>)
    requires source.Valid()
    modifies source, source.b, source.b.buffer, source.b.source
    ensures source.Valid() && source.b.buffer == old(source.b.buffer)
    ensures r == if old(source.size) == 0 then NotReady
                 else if old(source.b.Unread()) == [] then Broken(EndOfInput)
                 else Ready(old(source.b.Unread())[0])
    ensures r.Ready? ==> source.size == old(source.size) - 1 && source.b.Unread() == old(source.b.Unread())[1..]
    ensures r.NotReady? ==>
              source.size == 0 && source.b.Unread() == old(source.b.Unread()) && source.b.available == old(source.b.available)
    ensures r.Broken? ==> source.b.Unread() == []
  {
    var may := source.MayHave(1);
    if !may {
      return NotReady;
    }
    var v, error := source.ReadByte();
    r := if error.Some? then Broken(error.value) else Ready(v);
  }

  /** Collects the bytes of one field over as many calls as it takes. slot and owner only tell
      the readers of a message reader apart. */
  class StreamReader {
    var buffer: seq<byte>
    var offset: nat
    var size: nat
    ghost const owner: nat
    ghost const slot: nat

    ghost predicate Valid()
      reads this
    {
      size <= |buffer| && (offset < size || offset == 0)
    }

    /** The part of the field collected so far. */
    ghost function Got(): seq<byte>
      requires Valid()
      reads this
    {
      buffer[..offset]
    }

    constructor (size: nat, ghost owner: nat, ghost slot: nat)
      ensures Valid() && this.size == size && offset == 0 && this.owner == owner && this.slot == slot
    {
      buffer := seq(size, _ => 0);
      offset, this.size := 0, size;
      this.owner, this.slot := owner, slot;
    }

    method Resize(size: nat)
      requires Valid() && offset == 0
      modifies this
      ensures Valid() && this.size == size && offset == 0
    {
      if size > |buffer| {
        buffer := buffer + seq(size - |buffer|, _ => 0);
      }
      this.size := size;
    }

    /** Takes the rest of the field if the budget covers it, waiting for the bytes; otherwise takes
        what the window has within the budget, and is not ready. n counts the bytes taken. */
    method Get(source: LimitedReader) returns (r: Fetch<seq<byte>>, ghost n: nat)
      requires Valid() && source.Valid()
      modifies this, source, source.b`start, source.b`available, source.b.buffer, source.b.source
      ensures Valid() && source.Valid() && size == old(size)
      ensures n <= |old(source.b.Unread())| && source.b.Unread() == old(source.b.Unread())[n..]
      ensures !r.Broken? ==> n <= old(source.size) && source.size == old(source.size) - n
      ensures n == 0 && !r.Broken? ==> source.b.available == old(source.b.available)
      ensures r.NotReady? ==> Got() == old(Got()) + old(source.b.Unread())[..n] && (old(source.size) == 0 || offset < size)
      ensures r.NotReady? && old(source.size) > 0 && old(source.b.available) > 0 ==> n > 0
      ensures old(source.size) == 0 ==> r.NotReady?
      ensures r.NotReady? && old(source.size) > 0 ==>
                old(source.size) < size - old(offset)
                && n == if old(source.b.available) < old(source.size) then old(source.b.available) else old(source.size)
      ensures r.Ready? ==> n == size - old(offset) && offset == 0 && r.value == old(Got()) + old(source.b.Unread())[..n]
      ensures r.Broken? ==> r.error == EndOfInput && source.b.Unread() == [] && n < size - old(offset) <= old(source.size)
    {
      hide BufferedReader.Unread;
      source.b.HoldsWindow();
      var may := source.MayHave(1);
      if !may {
        return NotReady, 0;
      }
      n := offset;
      var want := size - offset;
      may := source.MayHave(want);
      if !may {
        want := source.Len();
      }
      var error := Fill(source, want);
      n := offset - n;
      if error.Some? {
        return Broken(error.value), n;
      } else if offset < size {
        return NotReady, n;
      }
      offset := 0;
      r := Ready(buffer[..size]);
    }

    /** The same over the whole reader, where any number of bytes may be had. */
    method GetWhole(source: BufferedReader) returns (r: Fetch<seq<byte>>)
      requires Valid() && offset == 0 && source.Valid()
      modifies this, source`start, source`available, source.buffer, source.source
      ensures source.Valid() && size == old(size)
      ensures r == if |old(source.Unread())| < size then Broken(EndOfInput) else Ready(old(source.Unread())[..size])
      ensures r.Ready? ==> Valid() && offset == 0 && source.Unread() == old(source.Unread())[size..]
      ensures r.Broken? ==> source.Unread() == []
    {
      var target := new byte[size](_ => 0);
      var n, error := source.Read(target);
      buffer := target[..n] + buffer[n..];
      offset := n;
      if error.Some? {
        return Broken(error.value);
      }
      offset := 0;
      r := Ready(buffer[..size]);
    }

    /** Reads into the buffer behind what has been collected. */
    method Fill(source: LimitedReader, want: nat) returns (error: Option<Error>)
      requires size <= |buffer| && offset + want <= size && source.Valid() && want <= source.size
      modifies this, source, source.b`start, source.b`available, source.b.buffer, source.b.source
      ensures source.Valid() && size == old(size) && |buffer| == old(|buffer|)
      ensures var all := old(source.b.Unread());
              var n := if |all| < want then |all| else want;
              && offset == old(offset) + n && buffer[..offset] == old(buffer[..offset]) + all[..n]
              && source.b.Unread() == all[n..] && source.size == old(source.size) - want
              && error == if |all| < want then Some(EndOfInput) else None
      ensures want == 0 ==> source.b.available == old(source.b.available)
    {
      var target := new byte[want](_ => 0);
      var n;
      n, error := source.Read(target);
      buffer := buffer[..offset] + target[..n] + buffer[offset + n..];
      offset := offset + n;
    }
  }
}
