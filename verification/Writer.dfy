/** The writing side's objects (channel_manager.go, packet.go, writer.go). Each method is one
    critical section of the source; the abstract state it changes is Channels.Shared, and the
    functions it is proved against are the ones the senders' steps are made of. */
module WriterObjects {
  import opened Bytes
  import opened Codec
  import opened Channels
  import opened RoundTrip

  class ChannelManager {
    const channelsCount: nat
    var current: nat
    var locks: array<nat>

    ghost predicate Valid()
      reads this, locks
    {
      && 1 <= channelsCount == locks.Length <= MAX_CHANNELS && current < channelsCount
      && forall c :: 0 <= c < locks.Length ==> locks[c] <= 1
    }

    /** Which channels are held. */
    ghost function Held(): (h: seq<bool>)
      reads this, locks
      ensures |h| == locks.Length && forall c :: 0 <= c < |h| ==> h[c] == (locks[c] != 0)
    {
      seq(locks.Length, c requires 0 <= c < locks.Length reads this, locks => locks[c] != 0)
    }

    constructor (count: nat)
      requires 1 <= count <= MAX_CHANNELS
      ensures Valid() && fresh(locks) && channelsCount == count && current == 0
      ensures Held() == seq(count, _ => false)
    {
      channelsCount := count;
      current := 0;
      locks := new nat[count](_ => 0);
    }

    /** Compare-and-swap from free to held. */
    method ObtainLock(channel: nat) returns (obtained: bool)
      requires Valid() && channel < channelsCount
      modifies locks
      ensures Valid() && obtained == !old(Held())[channel]
      ensures Held() == old(Held())[channel := true]
    {
      obtained := locks[channel] == 0;
      if obtained { locks[channel] := 1; }
    }

    method IsTemporarilyFree(channel: nat) returns (free: bool)
      requires Valid() && channel < channelsCount
      ensures free == !Held()[channel]
    {
      free := locks[channel] == 0;
    }

    method Is(channel: nat) returns (same: bool)
      ensures same == (current == channel)
    {
      same := current == channel;
    }

    method SetCurrent(channel: nat)
      requires Valid() && channel < channelsCount
      modifies this`current
      ensures Valid() && current == channel && Held() == old(Held())
    {
      if current != channel { current := channel; }
    }

    /** Takes the first free channel of the cyclic scan. None stands for the wait that follows when
        there is none: released is never created (channel_manager.go:32-35), so it has no end. */
    method Reserve() returns (channel: Option<nat>)
      requires Valid()
      modifies locks
      ensures Valid() && channel == FirstFree(old(Held()), current)
      ensures Held() == if channel.Some? then old(Held())[channel.value := true] else old(Held())
    {
      var i := 0;
      while i < channelsCount
        invariant i <= channelsCount && Valid() && Held() == old(Held())
        invariant FirstFree(old(Held()), current) == ScanFrom(old(Held()), current, i)
      {
        var candidate := (current + i) % channelsCount;
        assert candidate == Nth(current, i, channelsCount);
        var obtained := ObtainLock(candidate);
        if obtained {
          return Some(candidate);
        }
        assert Held() == old(Held());
        i := i + 1;
      }
      channel := None;
    }

    /** Finds the first free channel of the cyclic scan, without taking it. */
    method GetFree() returns (channel: Option<nat>)
      requires Valid()
      ensures channel == FirstFree(Held(), current)
    {
      var i := 0;
      while i < channelsCount
        invariant i <= channelsCount
        invariant FirstFree(Held(), current) == ScanFrom(Held(), current, i)
      {
        var candidate := (current + i) % channelsCount;
        assert candidate == Nth(current, i, channelsCount);
        var free := IsTemporarilyFree(candidate);
        if free {
          return Some(candidate);
        }
        i := i + 1;
      }
      channel := None;
    }

    method Release(channel: nat)
      requires Valid() && channel < channelsCount
      modifies locks
      ensures Valid() && Held() == old(Held())[channel := false]
    {
      locks[channel] := 0;
    }
  }

  /** A packet being filled in: a buffer of the final size and how far it has been written. */
  class PacketBuffer {
    var b: array<byte>
    var o: nat

    ghost predicate Valid()
      reads this
    {
      o <= b.Length
    }

    /** What has been written. */
    ghost function Filled(): seq<byte>
      requires Valid()
      reads this, b
    {
      b[..o]
    }

    constructor (signature: nat, size: nat)
      requires size <= MAX_UINT32 && signature <= 243 && signature / 4 % 4 == 0
      ensures Valid() && fresh(b) && Filled() == Prefix(signature, size) && b.Length == o + size
    {
      var width := if size <= MAX_UINT8 then 1 else if size <= MAX_UINT16 then 2 else if size <= MAX_UINT24 then 3 else 4;
      var buffer := new byte[size + 1 + width](_ => 0);
      buffer[0] := signature + 4 * (width - 1);
      var next := WriteUint(buffer, 1, size, width);
      b, o := buffer, next;
      assert buffer[..next] == [signature + 4 * (width - 1)] + LittleEndian(size, width);
    }

    method Uint(value: nat, width: nat)
      requires Valid() && width in {1, 2, 3, 4, 6} && o + width <= b.Length
      modifies this`o, b
      ensures Valid() && o == old(o) + width && Filled() == old(Filled()) + LittleEndian(value, width)
    {
      o := WriteUint(b, o, value, width);
      assert b[..o] == old(b[..o]) + LittleEndian(value, width);
    }

    method Bytes(value: seq<byte>)
      requires Valid() && o + |value| <= b.Length
      modifies this`o, b
      ensures Valid() && o == old(o) + |value| && Filled() == old(Filled()) + value
    {
      o := WriteBytes(b, o, value);
      assert b[..o] == old(b[..o]) + value;
    }
  }

  lemma FlagByte(d: Draft)
    requires d.Valid()
    ensures var flags := Flags(|d.action|, |d.data|);
            && NameSizeFlag(NameSizeBytes(|d.action|)) + DataSizeFlag(DataSizeBytes(|d.data|)) == flags
            && LittleEndian(flags, 1) == [flags]
    ensures NameSizeBytes(|d.action|) in {1, 2} && DataSizeBytes(|d.data|) in {0, 1, 2, 6}
  {
  }

  /** Fills in the header's fields, one after the other. */
  method FillHeader(p: PacketBuffer, d: Draft)
    requires d.Valid() && p.Valid() && p.b.Length == p.o + |HeaderBytes(d)|
    modifies p`o, p.b
    ensures p.Valid() && p.o == p.b.Length && p.Filled() == old(p.Filled()) + HeaderBytes(d)
  {
    var actionSizeBytes, dataSizeBytes := NameSizeBytes(|d.action|), DataSizeBytes(|d.data|);
    ghost var start, h := p.Filled(), [Flags(|d.action|, |d.data|)];
    FlagByte(d);
    hide LittleEndian, Flags, Spliced, NameSizeBytes, DataSizeBytes, NameSizeFlag, DataSizeFlag;
    p.Uint(NameSizeFlag(actionSizeBytes) + DataSizeFlag(dataSizeBytes), 1);
    assert p.Filled() == start + h;
    p.Bytes(d.id);
    h := Grow(start, h, d.id);
    assert p.Filled() == start + h;
    p.Uint(|d.action|, actionSizeBytes);
    h := Grow(start, h, LittleEndian(|d.action|, actionSizeBytes));
    assert p.Filled() == start + h;
    p.Bytes(d.action);
    h := Grow(start, h, d.action);
    assert p.Filled() == start + h;
    if dataSizeBytes != 0 {
      p.Uint(|d.data|, dataSizeBytes);
    } else {
      assert LittleEndian(|d.data|, dataSizeBytes) == [] && start + h + [] == start + h;
    }
    h := Grow(start, h, LittleEndian(|d.data|, dataSizeBytes));
    assert p.Filled() == start + h;
  }

  lemma Grow(start: seq<byte>, h: seq<byte>, field: seq<byte>) returns (more: seq<byte>)
    ensures more == h + field && start + h + field == start + more
  {
    more := h + field;
  }

  /** The Message packet of a send: exactly filled, and exactly what a receiver decodes. */
  method BuildMessagePacket(d: Draft) returns (p: PacketBuffer)
    requires d.Valid()
    ensures p.Valid() && fresh(p) && fresh(p.b)
    ensures p.o == p.b.Length
    ensures p.b[..] == Encode(Message(d))
  {
    var messageSize := 17 + NameSizeBytes(|d.action|) + |d.action| + DataSizeBytes(|d.data|);
    var signature := 16 * MESSAGE;
    if d.expectsResponse { signature := signature + 1; }
    if d.hasStream { signature := signature + 2; }

    HeaderFitsPacket(d);
    p := new PacketBuffer(signature, messageSize);
    FillHeader(p, d);
    assert p.b[..] == p.b[..p.o];
  }

  class Writer {
    /** Everything the target has been given. */
    var target: seq<byte>
    const channels: ChannelManager

    ghost predicate Valid()
      reads this, channels, channels.locks
    {
      channels.Valid()
    }

    ghost function View(): (s: Shared)
      reads this, channels, channels.locks
      ensures Valid() ==> s.Valid()
    {
      Shared(target, channels.current, channels.Held())
    }

    constructor (count: nat)
      requires 1 <= count <= MAX_CHANNELS
      ensures Valid() && fresh(channels) && fresh(channels.locks)
      ensures View() == Shared([], 0, seq(count, _ => false))
    {
      target := [];
      channels := new ChannelManager(count);
    }

    method WriteRaw(data: seq<byte>)
      modifies this`target
      ensures target == old(target) + data
    {
      target := target + data;
    }

    method CreateSwitchChannelPacket(channel: nat) returns (packet: seq<byte>)
      requires channel < MAX_CHANNELS
      ensures packet == SwitchPacket(channel)
    {
      packet := if channel <= 15 then [channel] else [16 * CHANNEL_HIGH + channel / 256, channel % 256];
    }

    method UnsafeWriteAtChannel(channel: nat, data: seq<byte>)
      requires Valid() && channel < channels.channelsCount
      modifies this`target, channels`current
      ensures Valid() && View() == old(View()).PutAt(channel, data)
      ensures target == old(target) + if old(channels.current) == channel then data else SwitchPacket(channel) + data
      ensures channels.current == channel && channels.Held() == old(channels.Held())
    {
      var same := channels.Is(channel);
      if same {
        WriteRaw(data);
        return;
      }
      channels.SetCurrent(channel);
      var switch := CreateSwitchChannelPacket(channel);
      WriteRaw(switch);
      WriteRaw(data);
      assert target == old(target) + (switch + data);
    }

    method ObtainChannel() returns (channel: Option<nat>)
      requires Valid()
      modifies channels.locks
      ensures Valid() && channel == old(View()).Free()
      ensures View() == if channel.Some? then old(View()).Lock(channel.value) else old(View())
    {
      channel := channels.Reserve();
    }

    method ReleaseChannel(channel: nat)
      requires Valid() && channel < channels.channelsCount
      modifies channels.locks
      ensures Valid() && View() == old(View()).Unlock(channel)
    {
      channels.Release(channel);
    }

    /** A packet on a channel that is free at the time and is not taken; false stands for waiting. */
    method Write(packet: seq<byte>) returns (written: bool)
      requires Valid()
      modifies this`target, channels`current
      ensures Valid() && written == old(View()).Free().Some?
      ensures View() == if written then old(View()).PutAt(old(View()).Free().value, packet) else old(View())
    {
      var channel := channels.GetFree();
      if channel.None? {
        return false;
      }
      UnsafeWriteAtChannel(channel.value, packet);
      written := true;
    }

    method WriteRawAtChannel(channel: nat, data: seq<byte>)
      requires Valid() && channel < channels.channelsCount
      modifies this`target, channels`current
      ensures Valid() && View() == old(View()).PutAt(channel, data)
    {
      UnsafeWriteAtChannel(channel, data);
    }

    method WriteAndObtainChannel(packet: seq<byte>) returns (channel: Option<nat>)
      requires Valid()
      modifies this`target, channels`current, channels.locks
      ensures Valid() && channel == old(View()).Free()
      ensures View() == if channel.Some? then old(View()).Lock(channel.value).PutAt(channel.value, packet) else old(View())
    {
      channel := ObtainChannel();
      if channel.Some? {
        UnsafeWriteAtChannel(channel.value, packet);
      }
    }

    method WriteAndReleaseChannel(channel: nat, packet: seq<byte>)
      requires Valid() && channel < channels.channelsCount
      modifies this`target, channels`current, channels.locks
      ensures Valid() && View() == old(View()).PutAt(channel, packet).Unlock(channel)
    {
      UnsafeWriteAtChannel(channel, packet);
      ReleaseChannel(channel);
    }

    /** A Data or Stream packet: signature and size at the channel, then the payload, in one go. */
    method WriteExternalWithSignatureAtChannel(channel: nat, signature: nat, data: seq<byte>)
      requires Valid() && channel < channels.channelsCount && |data| <= MAX_UINT32
      requires signature in {16 * DATA, 16 * STREAM}
      modifies this`target, channels`current
      ensures Valid()
      ensures View() == old(View()).PutAt(channel, Encode(if signature == 16 * DATA then Data(data) else Stream(data)))
    {
      WriteSize(channel, signature, |data|);
      ghost var mid := View();
      WriteRaw(data);
      assert View() == mid.(wire := mid.wire + data);
      PutMore(old(View()), channel, signature, data);
    }

    /** The first write of WriteExternalWithSignatureAtChannel. */
    method WriteSize(channel: nat, signature: nat, size: nat)
      requires Valid() && channel < channels.channelsCount && size <= MAX_UINT32
      requires signature in {16 * DATA, 16 * STREAM}
      modifies this`target, channels`current
      ensures Valid() && View() == old(View()).PutAt(channel, Prefix(signature, size))
    {
      PrefixIs(signature, size);
      if size <= MAX_UINT8 {
        UnsafeWriteAtChannel(channel, [signature, size]);
      } else if size <= MAX_UINT16 {
        UnsafeWriteAtChannel(channel, [signature + 4, size % 256, size / 0x100 % 256]);
      } else if size <= MAX_UINT24 {
        UnsafeWriteAtChannel(channel, [signature + 8, size % 256, size / 0x100 % 256, size / 0x10000 % 256]);
      } else {
        UnsafeWriteAtChannel(channel, [signature + 12, size % 256, size / 0x100 % 256, size / 0x10000 % 256, size / 0x1000000 % 256]);
      }
    }
  }

  /** Putting a packet's start and then its payload puts the packet. */
  lemma PutMore(s: Shared, channel: nat, signature: nat, data: seq<byte>)
    requires channel < MAX_CHANNELS && |data| <= MAX_UINT32 && signature in {16 * DATA, 16 * STREAM}
    ensures s.PutAt(channel, Prefix(signature, |data|)).(wire := s.PutAt(channel, Prefix(signature, |data|)).wire + data)
         == s.PutAt(channel, Encode(if signature == 16 * DATA then Data(data) else Stream(data)))
  {
    var a, b := Prefix(signature, |data|), SwitchPacket(channel);
    assert b + a + data == b + (a + data);
    assert s.wire + Emit(s.current, channel, a) + data == s.wire + Emit(s.current, channel, a + data);
  }

  /** The start of a Data or Stream packet, as its writer spells it. */
  lemma PrefixIs(signature: nat, size: nat)
    requires size <= MAX_UINT32 && signature in {16 * DATA, 16 * STREAM}
    ensures Prefix(signature, size)
         == if size <= MAX_UINT8 then [signature, size]
            else if size <= MAX_UINT16 then [signature + 4, size % 256, size / 0x100 % 256]
            else if size <= MAX_UINT24 then [signature + 8, size % 256, size / 0x100 % 256, size / 0x10000 % 256]
            else [signature + 12, size % 256, size / 0x100 % 256, size / 0x10000 % 256, size / 0x1000000 % 256]
  {
    Explicit(size, SizeWidth(size));
  }
}
