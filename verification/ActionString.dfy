/** The action of a message is a string that shares the bytes of its channel's action reader
    (stream_reader.go:50-96, byte_utils.go:45-48), and the next header on the channel is read into the
    same bytes. The parser's classes take a copy when the header is read; this is what becomes of the
    string itself, and exactly when it stays what it was. */
module ActionStrings {
  import opened Bytes

  /** A string without bytes of its own: the first size bytes of an array. */
  datatype Shared = Shared(bytes: array<byte>, size: nat)
  {
    ghost predicate Valid() { size <= bytes.Length }

    /** What it reads as now. */
    function Text(): seq<byte>
      requires Valid()
      reads bytes
    {
      bytes[..size]
    }
  }

  /** The reader's buffer: the first length bytes of an array that may have room for more. */
  class ActionReader {
    var buffer: array<byte>
    var length: nat
    var size: nat

    ghost predicate Valid()
      reads this
    {
      size <= length <= buffer.Length
    }

    constructor ()
      ensures Valid() && fresh(buffer) && length == 16 && buffer.Length == 16
    {
      buffer := new byte[16](_ => 0);
      length, size := 16, 16;
    }

    /** A larger size is appended in place if the array has room, and otherwise in a new array with
        as much more room as the allocator likes. */
    method Resize(size: nat, spare: nat)
      requires Valid()
      modifies this, buffer
      ensures Valid() && this.size == size
      ensures if size <= old(buffer.Length) then buffer == old(buffer) else fresh(buffer) && buffer.Length == size + spare
      ensures old(buffer)[..old(length)] == old(buffer[..length])
      ensures length == if size > old(length) then size else old(length)
    {
      if size > length {
        if size > buffer.Length {
          var grown := new byte[size + spare](_ => 0);
          forall k | 0 <= k < length { grown[k] := buffer[k]; }
          buffer := grown;
        } else {
          forall k | length <= k < size { buffer[k] := 0; }
        }
        length := size;
      }
      this.size := size;
    }

    /** A header's action comes in. The string that is made of it reads as the action. Any string made
        before of the same array, which then has no more than length bytes, is overwritten. */
    method Read(action: seq<byte>, spare: nat, earlier: Shared) returns (made: Shared)
      requires Valid() && earlier.Valid() && (earlier.bytes == buffer ==> earlier.size <= length)
      modifies this, buffer
      ensures Valid() && made == Shared(buffer, |action|) && made.Valid() && made.Text() == action
      ensures size == |action| && (made.bytes == old(buffer) <==> |action| <= old(buffer.Length))
      ensures earlier.bytes == buffer ==> earlier.size <= length
      ensures earlier.Text()
           == if earlier.bytes == made.bytes then Overwritten(old(earlier.Text()), action) else old(earlier.Text())
    {
      Resize(|action|, spare);
      ghost var before := earlier.Text();
      assert before == old(earlier.Text()) by {
        assert earlier.bytes == old(buffer) ==> before == old(buffer)[..old(length)][..earlier.size];
      }
      forall k | 0 <= k < size { buffer[k] := action[k]; }
      made := Shared(buffer, size);
      assert made.Text() == action;
      if earlier.bytes == made.bytes {
        assert earlier.Text() == Overwritten(before, action);
      }
    }
  }

  /** A text with the first bytes of another written over it. */
  function Overwritten(text: seq<byte>, over: seq<byte>): (r: seq<byte>)
    ensures |r| == |text|
  {
    if |over| >= |text| then over[..|text|] else over + text[|over|..]
  }

  /** It stays what it was if and only if one of the two begins with the other. */
  lemma ActionStays(action: seq<byte>, next: seq<byte>)
    ensures Overwritten(action, next) == action <==> next <= action || action <= next
  {
    if Overwritten(action, next) == action && |next| < |action| {
      assert next == action[..|next|];
    }
  }

  /** A text after several actions have been read over it. */
  function OverwrittenBy(text: seq<byte>, actions: seq<seq<byte>>): seq<byte>
    decreases |actions|
  {
    if actions == [] then text else OverwrittenBy(Overwritten(text, actions[0]), actions[1..])
  }

  /** A byte of it is that of the last action long enough to reach it. */
  lemma {:induction false} LastLongEnough(text: seq<byte>, actions: seq<seq<byte>>, k: nat)
    requires k < |text|
    ensures |OverwrittenBy(text, actions)| == |text|
    ensures (forall j :: 0 <= j < |actions| ==> |actions[j]| <= k) ==> OverwrittenBy(text, actions)[k] == text[k]
    ensures forall j :: 0 <= j < |actions| && |actions[j]| > k && (forall i :: j < i < |actions| ==> |actions[i]| <= k) ==>
              OverwrittenBy(text, actions)[k] == actions[j][k]
    decreases |actions|
  {
    if actions != [] {
      var rest := actions[1..];
      LastLongEnough(Overwritten(text, actions[0]), rest, k);
      forall j | 0 <= j < |actions| && |actions[j]| > k && (forall i :: j < i < |actions| ==> |actions[i]| <= k)
        ensures OverwrittenBy(text, actions)[k] == actions[j][k]
      {
        forall i | 0 <= i < |rest| && i > j - 1 ensures |rest[i]| <= k { assert rest[i] == actions[i + 1]; }
        if j > 0 { assert rest[j - 1] == actions[j]; }
      }
    }
  }

  /** Two messages on one channel, "ping" and then "pong": once the second header is read, the first
      message says "pong" too. */
  method PingPong(reader: ActionReader) returns (first: Shared, second: Shared)
    requires reader.Valid() && reader.buffer.Length >= 4
    modifies reader, reader.buffer
    ensures first.Valid() && second.Valid() && first.Text() == [0x70, 0x6F, 0x6E, 0x67] == second.Text()
  {
    first := reader.Read([0x70, 0x69, 0x6E, 0x67], 0, Shared(reader.buffer, 0));
    second := reader.Read([0x70, 0x6F, 0x6E, 0x67], 0, first);
  }
}
