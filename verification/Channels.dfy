/** Channel ownership on the writing side (channel_manager.go) and the state that concurrent
    senders share through it (writer.go). */
module Channels {
  import opened Bytes
  import opened Codec

  datatype Option<+T> = None | Some(value: T)

  /** The i-th channel of the cyclic scan that starts at the current one. */
  function Nth(current: nat, i: nat, n: nat): (c: nat)
    requires n > 0
    ensures c < n
  {
    (current + i) % n
  }

  /** The first free channel from the i-th place of the scan on. */
  function ScanFrom(locks: seq<bool>, current: nat, i: nat): (r: Option<nat>)
    requires i <= |locks|
    ensures r.Some? ==> r.value < |locks| && !locks[r.value]
    decreases |locks| - i
  {
    if i == |locks| then None
    else if !locks[Nth(current, i, |locks|)] then Some(Nth(current, i, |locks|))
    else ScanFrom(locks, current, i + 1)
  }

  function FirstFree(locks: seq<bool>, current: nat): Option<nat> { ScanFrom(locks, current, 0) }

  /** Where in the scan a channel comes up. */
  function PlaceOf(current: nat, c: nat, n: nat): (i: nat)
    requires current < n && c < n
    ensures i < n && Nth(current, i, n) == c
  {
    var i := if c >= current then c - current else c + n - current;
    WrapsOnce(current + i, n);
    i
  }

  lemma WrapsOnce(x: nat, n: nat)
    requires n > 0 && x < 2 * n
    ensures x % n == if x < n then x else x - n
  {
    var q := x / n;
    assert x == n * q + x % n;
    if x >= n {
      assert q == 1;
    } else {
      assert q == 0;
    }
  }

  lemma PlaceIsUnique(current: nat, i: nat, j: nat, n: nat)
    requires current < n && i < n && j < n && Nth(current, i, n) == Nth(current, j, n)
    ensures i == j
  {
    WrapsOnce(current + i, n);
    WrapsOnce(current + j, n);
  }

  lemma {:induction false} ScanSkips(locks: seq<bool>, current: nat, i: nat, r: Option<nat>)
    requires current < |locks| && i <= |locks| && r == ScanFrom(locks, current, i)
    ensures forall c :: 0 <= c < |locks| && !locks[c] && PlaceOf(current, c, |locks|) >= i ==>
              r.Some? && PlaceOf(current, r.value, |locks|) <= PlaceOf(current, c, |locks|)
    ensures r.Some? ==> PlaceOf(current, r.value, |locks|) >= i
    decreases |locks| - i
  {
    if i < |locks| {
      var here := Nth(current, i, |locks|);
      PlaceIsUnique(current, i, PlaceOf(current, here, |locks|), |locks|);
      if locks[here] {
        ScanSkips(locks, current, i + 1, r);
      }
    }
  }

  /** The scan starts at the current channel and goes on to the next one, from the last to the first. */
  lemma ScanGoesRound(current: nat, i: nat, n: nat)
    requires current < n && i + 1 < n
    ensures Nth(current, 0, n) == current
    ensures Nth(current, i + 1, n) == if Nth(current, i, n) == n - 1 then 0 else Nth(current, i, n) + 1
  {
    WrapsOnce(current, n);
    WrapsOnce(current + i, n);
    WrapsOnce(current + i + 1, n);
  }

  /** The scan looks at every channel once: it finds a free channel exactly if there is one, and
      then the one that comes first after the current channel, going round. */
  lemma ScanIsComplete(locks: seq<bool>, current: nat)
    requires current < |locks|
    ensures var r := FirstFree(locks, current);
            && (r.None? <==> forall c :: 0 <= c < |locks| ==> locks[c])
            && (r.Some? ==> !locks[r.value] && forall c :: 0 <= c < |locks| && !locks[c] ==>
                  PlaceOf(current, r.value, |locks|) <= PlaceOf(current, c, |locks|))
  {
    ScanSkips(locks, current, 0, FirstFree(locks, current));
  }

  /** What the senders share: everything written so far, the channel the last packet went to,
      and who holds which channel. */
  datatype Shared = Shared(wire: seq<byte>, current: nat, locks: seq<bool>)
  {
    predicate Valid() { current < |locks| <= MAX_CHANNELS }

    function Free(): Option<nat> { FirstFree(locks, current) }

    /** unsafeWriteAtChannel: a switch packet only if the tracked channel differs. */
    function PutAt(channel: nat, packet: seq<byte>): Shared
      requires channel < MAX_CHANNELS
    {
      Shared(wire + Emit(current, channel, packet), channel, locks)
    }

    function Lock(channel: nat): Shared
      requires channel < |locks|
    {
      this.(locks := locks[channel := true])
    }

    function Unlock(channel: nat): Shared
      requires channel < |locks|
    {
      this.(locks := locks[channel := false])
    }
  }
}
