/** Both sides together: what concurrent senders put on the wire is what the parser hands over,
    through any source that delivers the wire's bytes in pieces. */
module EndToEnd {
  import opened Bytes
  import C = Codec
  import opened Demux
  import opened Runs
  import opened Channels
  import opened Handshake
  import opened Multiplex
  import R = ReaderObjects
  import P = PartObjects
  import opened ParserObjects

  /** The message has the sent header, but for the action; of its parts it may have only the first bytes. */
  ghost predicate Begins(m: P.Message, e: Entry)
    reads m, m.data, m.stream
  {
    && m.id == e.header.id && m.expectsResponse == e.expectsResponse
    && m.filesCount == e.header.filesCount && m.totalFilesSize == e.header.totalFilesSize
    && m.data != null && m.data.size == e.header.dataSize && m.data.pushed <= e.data
    && (m.stream != null) == e.hasStream && (m.stream != null ==> m.stream.pushed <= e.stream)
  }

  lemma GrewBegins(m: P.Message, e: Entry, k: nat, f: Entry)
    requires Keeps(m, e, k, true) && Grew(e, f)
    ensures Begins(m, f) && f.header == e.header
  {
  }

  /** The k-th message whose header went out, as far as its sender has sent it. */
  function SentAt(s: Net, k: nat): Entry
    requires k < |s.order| && s.order[k] < |s.senders|
  {
    s.senders[s.order[k]].Sent()
  }

  /** A connection, from the first byte: the receiver has announced how many channels it reads, the
      writer has negotiated its own number from that, and sends its own header and then whatever
      concurrent senders have put on the wire so far. The connection may carry only the first cut
      bytes of that, in pieces of any size. The receiver reads the header as it was meant and ends
      with the input, without an error of its own. The messages it has handed over are those of
      different senders, the first ones begun, in the order of their headers, and hold nothing but
      first bytes of their parts. If all that is on the wire came through, they are all there with
      all that has been sent of their parts. actions are their actions as they are handed over. */
  method Receive(ghost jobs: seq<Job>, ghost option: nat, ghost announced: nat, ghost run: seq<Label>, ghost cut: nat,
                 source: R.Source, accepted: nat, bufferSize: nat)
    returns (count: nat, messages: seq<P.Message>, actions: seq<seq<byte>>, error: Error)
    requires accepted <= C.MAX_CHANNELS && GetDefault(accepted, C.MAX_CHANNELS) != 256
    requires bufferSize == 0 || R.MIN_READ_BUFFER_SIZE <= bufferSize
    requires 1 <= option <= C.MAX_CHANNELS && 1 <= announced <= C.MAX_CHANNELS
    requires forall i :: 0 <= i < |jobs| ==> jobs[i].draft.Readable()
    requires var net := Launch(jobs, Negotiated(option, GetDefault(accepted, C.MAX_CHANNELS)));
             && Sane(net) && IsRun(net, run) && cut <= |After(net, run).shared.wire|
             && source.pending == ProtocolHeader(announced) + After(net, run).shared.wire[..cut]
    modifies source
    ensures count == if announced == 256 then 0 else announced
    ensures var s := After(Launch(jobs, Negotiated(option, GetDefault(accepted, C.MAX_CHANNELS))), run);
            && error == EndOfInput && |messages| <= |s.order|
            && (forall k :: 0 <= k < |s.order| ==> s.order[k] < |s.senders|)
            && (forall j, k :: 0 <= j < k < |s.order| ==> s.order[j] != s.order[k])
            && (forall k :: 0 <= k < |messages| ==> Begins(messages[k], SentAt(s, k)))
            && |actions| == |messages| && (forall k :: 0 <= k < |messages| ==> actions[k] == SentAt(s, k).header.action)
            && (cut == |s.shared.wire| ==>
                  |messages| == |s.order| && forall k :: 0 <= k < |s.order| ==> Keeps(messages[k], SentAt(s, k), k, true))
  {
    hide Parse, Keeps, Begins, After, IsRun, Grew, Negotiated, ProtocolHeader, ReadProtocolHeader, Parser.Valid,
      Parser.AtStart, R.BufferedReader.Unread;
    ghost var accepts := GetDefault(accepted, C.MAX_CHANNELS);
    ghost var channels := Negotiated(option, accepts);
    NegotiationIsSafe(option, accepts);
    ghost var s := After(Launch(jobs, channels), run);
    ghost var wire := s.shared.wire;
    InOrder(jobs, channels, accepts, run);
    ReceiverNeverFails(jobs, channels, accepts, run, cut);
    CutShort(accepts, wire, cut);
    GreetingRoundTrip(announced, wire[..cut]);
    var p := new Parser(source, accepted, bufferSize, |ProtocolHeader(announced)|);
    var greeting;
    count, greeting := p.ReadHeader();
    p.ValidReaders();
    messages, actions, error := ReadAll(p);
    forall k | 0 <= k < |messages| ensures Begins(messages[k], SentAt(s, k)) && actions[k] == SentAt(s, k).header.action {
      assert IsAction(Parse(accepts, wire[..cut]), k, actions[k]);
      GrewBegins(messages[k], Parse(accepts, wire[..cut]).log[k], k, Parse(accepts, wire).log[k]);
    }
    assert cut == |wire| ==> wire[..cut] == wire;
  }

  /** What the whole wire amounts to. */
  lemma InOrder(jobs: seq<Job>, channels: nat, accepted: nat, run: seq<Label>)
    requires IsStart(jobs, channels, accepted) && Sane(Launch(jobs, channels)) && IsRun(Launch(jobs, channels), run)
    ensures var s := After(Launch(jobs, channels), run);
            var st := Parse(accepted, s.shared.wire);
            && Once(st) && |st.log| == |s.order|
            && (forall k :: 0 <= k < |s.order| ==> s.order[k] < |s.senders| && st.log[k] == SentAt(s, k))
            && (forall j, k :: 0 <= j < k < |s.order| ==> s.order[j] != s.order[k])
  {
    AlwaysInStep(jobs, channels, accepted, run);
  }

  /** What has been delivered when the wire is cut only grows with the rest of it, since nothing on
      the wire is read on into. */
  lemma CutShort(channelsCount: nat, wire: seq<byte>, cut: nat)
    requires cut <= |wire| && channelsCount >= 1 && Once(Parse(channelsCount, wire))
    requires forall k :: 0 <= k < |Parse(channelsCount, wire).log| ==> !Parse(channelsCount, wire).log[k].reread
    ensures Once(Parse(channelsCount, wire[..cut]))
    ensures |Parse(channelsCount, wire[..cut]).log| <= |Parse(channelsCount, wire).log|
    ensures forall k :: 0 <= k < |Parse(channelsCount, wire[..cut]).log| ==>
              !Parse(channelsCount, wire[..cut]).log[k].reread
              && Grew(Parse(channelsCount, wire[..cut]).log[k], Parse(channelsCount, wire).log[k])
  {
    hide Run, Init, Grew;
    var st := Parse(channelsCount, wire[..cut]);
    RunConcat(Init(channelsCount), wire[..cut], wire[cut..]);
    assert wire == wire[..cut] + wire[cut..];
    InitWellFormed(channelsCount);
    RunKeeps(Init(channelsCount), wire[..cut]);
    RunOnce(st, wire[cut..]);
    if st.log != [] { RunGrows(st, wire[cut..], 0); }
    forall k | 0 <= k < |st.log| ensures !st.log[k].reread && Grew(st.log[k], Parse(channelsCount, wire).log[k]) {
      RunGrows(st, wire[cut..], k);
    }
  }
}
