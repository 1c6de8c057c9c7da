/** The server's side of a stream: peeking for a liveness probe and forwarding
    everything else, for every chunking, deadline and short write. */
module Streams {
  import opened Types

  const PIPE_BUF_SIZE: nat := 256 * 1024

  // --------------------------------------------------------- what a stream brings

  datatype ReadError = NoError | DeadlineExceeded | EndOfFile | Broken

  /** One delivery: some bytes, and the error that comes with the last of them. */
  datatype Delivery = Delivery(bytes: seq<Byte>, err: ReadError)

  /** What a reader notices of an error: a missed deadline only while a deadline is set. */
  function Noticed(e: ReadError, timed: bool): ReadError {
    if e == DeadlineExceeded && !timed then NoError else e
  }

  /** The bytes that come before the first noticed error, those that arrive with it included.
      A stream without further deliveries is closed under the reader. */
  function Coming(script: seq<Delivery>, timed: bool): seq<Byte> {
    if script == [] then []
    else script[0].bytes + (if Noticed(script[0].err, timed) != NoError then [] else Coming(script[1..], timed))
  }

  /** That error. */
  function EndOf(script: seq<Delivery>, timed: bool): ReadError {
    if script == [] then Broken
    else if Noticed(script[0].err, timed) != NoError then script[0].err
    else EndOf(script[1..], timed)
  }

  /** All bytes a stream brings before it ends. */
  function Content(script: seq<Delivery>): seq<Byte> {
    Coming(script, false)
  }

  /** The bytes that arrive in time. */
  function Prompt(script: seq<Delivery>): seq<Byte> {
    Coming(script, true)
  }

  function Weight(script: seq<Delivery>): nat {
    if script == [] then 0 else 1 + |script[0].bytes| + Weight(script[1..])
  }

  /** The bytes a reader takes with a buffer of `max`, and what is left. A missed deadline
      does not end the stream; its end is noticed again and again. */
  datatype ReadResult = ReadResult(data: seq<Byte>, err: ReadError, rest: seq<Delivery>)

  function ReadOnce(script: seq<Delivery>, max: nat, timed: bool): ReadResult {
    if script == [] then ReadResult([], Broken, [])
    else
      var d := script[0];
      if |d.bytes| > max then ReadResult(d.bytes[..max], NoError, [d.(bytes := d.bytes[max..])] + script[1..])
      else if d.err == EndOfFile || d.err == Broken then ReadResult(d.bytes, d.err, [Delivery([], d.err)])
      else ReadResult(d.bytes, Noticed(d.err, timed), script[1..])
  }

  /** One read, whatever its buffer: nothing is lost or invented, of what comes in time as well
      as of the whole stream, and an error is reported exactly when everything before it
      has been delivered. */
  lemma ReadLosesNothing(script: seq<Delivery>, max: nat, timed: bool)
    requires max > 0
    ensures var r := ReadOnce(script, max, timed);
            && |r.data| <= max
            && r.data + Content(r.rest) == Content(script) && EndOf(r.rest, false) == EndOf(script, false)
            && (if r.err == NoError then
                  && r.data + Coming(r.rest, timed) == Coming(script, timed)
                  && EndOf(r.rest, timed) == EndOf(script, timed) && Weight(r.rest) < Weight(script)
                else r.data == Coming(script, timed) && r.err == EndOf(script, timed))
  {
    if script != [] {
      var d := script[0];
      if |d.bytes| > max {
        var rest := [d.(bytes := d.bytes[max..])] + script[1..];
        assert rest[1..] == script[1..];
        assert d.bytes == d.bytes[..max] + d.bytes[max..];
      }
    }
  }

  /** The first n bytes, or all of them if there are fewer. */
  function AtMost(s: seq<Byte>, n: nat): seq<Byte> {
    if |s| < n then s else s[..n]
  }

  /** What a peer that still takes `room` bytes takes of a write. */
  function Taken(bytes: seq<Byte>, room: nat): seq<Byte> {
    AtMost(bytes, room)
  }

  class Stream {
    var script: seq<Delivery>   // what the peer sends
    var timed: bool             // a read deadline is set
    var sent: seq<Byte>         // what we sent back
    var room: nat               // how much more of it can be sent before writes fail

    constructor (script: seq<Delivery>, room: nat)
      ensures this.script == script && !timed && sent == [] && this.room == room
    {
      this.script, timed, sent, this.room := script, false, [], room;
    }

    method Read(max: nat) returns (data: seq<Byte>, err: ReadError)
      modifies this`script
      ensures ReadResult(data, err, script) == ReadOnce(old(script), max, timed)
    {
      var r := ReadOnce(script, max, timed);
      script := r.rest;
      return r.data, r.err;
    }

    method Write(bytes: seq<Byte>) returns (ok: bool)
      modifies this`sent, this`room
      ensures sent == old(sent) + Taken(bytes, old(room)) && (ok <==> |bytes| <= old(room))
    {
      var taken := Taken(bytes, room);
      ok := |bytes| <= room;
      sent, room := sent + taken, room - |taken|;
    }
  }

  /** The connection to the local server: it takes what it is given while it has room, and
      then fails. */
  class Upstream {
    var received: seq<Byte>
    var room: nat               // how much more it takes before writes fail

    constructor (room: nat)
      ensures received == [] && this.room == room
    {
      received, this.room := [], room;
    }

    method Write(bytes: seq<Byte>) returns (ok: bool)
      modifies this
      ensures received == old(received) + Taken(bytes, old(room)) && (ok <==> |bytes| <= old(room))
      ensures room == old(room) - |Taken(bytes, old(room))|
    {
      var taken := Taken(bytes, room);
      ok := |bytes| <= room;
      received, room := received + taken, room - |taken|;
    }
  }

  // ------------------------------------------------------------ probe detection

  /** What was peeked so far, and what is left of the stream that began as `whole`. */
  ghost predicate Peeked(buf: seq<Byte>, err: ReadError, left: seq<Delivery>, whole: seq<Delivery>, timed: bool) {
    && (if err == NoError then buf + Coming(left, timed) == Coming(whole, timed) else buf == Coming(whole, timed))
    && buf + Content(left) == Content(whole)
    && EndOf(left, false) == EndOf(whole, false)
  }

  lemma Regroup(a: seq<Byte>, b: seq<Byte>, c: seq<Byte>)
    ensures a + (b + c) == (a + b) + c
  {
  }

  lemma PeekRead(buf: seq<Byte>, left: seq<Delivery>, whole: seq<Delivery>, max: nat, timed: bool)
    requires max > 0 && Peeked(buf, NoError, left, whole, timed)
    ensures var r := ReadOnce(left, max, timed);
            && Peeked(buf + r.data, r.err, r.rest, whole, timed) && |r.data| <= max
            && (r.err == NoError ==> Weight(r.rest) < Weight(left))
  {
    ReadLosesNothing(left, max, timed);
    var r := ReadOnce(left, max, timed);
    Regroup(buf, r.data, Content(r.rest));
    Regroup(buf, r.data, Coming(r.rest, timed));
  }

  lemma PeekEnds(buf: seq<Byte>, err: ReadError, left: seq<Delivery>, whole: seq<Delivery>, n: nat, timed: bool)
    requires Peeked(buf, err, left, whole, timed) && |buf| <= n && (|buf| == n || err != NoError)
    ensures buf == AtMost(Coming(whole, timed), n)
  {
  }

  /** `io.ReadFull` with a buffer of n bytes. */
  method ReadFull(stream: Stream, n: nat) returns (buf: seq<Byte>)
    modifies stream`script
    ensures buf == AtMost(Coming(old(stream.script), stream.timed), n)
    ensures buf + Content(stream.script) == Content(old(stream.script))
    ensures EndOf(stream.script, false) == EndOf(old(stream.script), false)
  {
    buf := [];
    var err := NoError;
    while |buf| < n && err == NoError
      invariant |buf| <= n && Peeked(buf, err, stream.script, old(stream.script), stream.timed)
      decreases err == NoError, Weight(stream.script)
    {
      PeekRead(buf, stream.script, old(stream.script), n - |buf|, stream.timed);
      var data;
      data, err := stream.Read(n - |buf|);
      buf := buf + data;
    }
    PeekEnds(buf, err, stream.script, old(stream.script), n, stream.timed);
  }

  /** The stream is a probe: its first two bytes arrive before the deadline (and before
      the stream ends) and are the ping. */
  predicate IsProbe(script: seq<Delivery>) {
    |Prompt(script)| >= |PROBE_PING| && Prompt(script)[..|PROBE_PING|] == PROBE_PING
  }

  method HandleProbeStream(stream: Stream) returns (handled: bool, consumed: seq<Byte>)
    modifies stream
    ensures handled <==> IsProbe(old(stream.script))
    ensures handled ==> stream.sent == old(stream.sent) + Taken(PROBE_PING, old(stream.room))
    ensures !handled ==> stream.sent == old(stream.sent)
    ensures !handled ==> consumed + Content(stream.script) == Content(old(stream.script))
    ensures EndOf(stream.script, false) == EndOf(old(stream.script), false) && !stream.timed
    ensures |consumed| <= |PROBE_PING|
  {
    stream.timed := true;
    var buf := ReadFull(stream, |PROBE_PING|);
    stream.timed := false;
    if buf == PROBE_PING {
      var _ := stream.Write(PROBE_PING);
      return true, [];
    }
    return false, buf;
  }

  // ------------------------------------------------------------- prefix replay

  /** `io.MultiReader` over the peeked bytes and the stream; without peeked bytes it is
      the stream itself. */
  class PrefixReader {
    var prefix: seq<Byte>
    const stream: Stream

    constructor (prefix: seq<Byte>, stream: Stream)
      ensures this.prefix == prefix && this.stream == stream
    {
      this.prefix, this.stream := prefix, stream;
    }

    /** What is still to come, and how it ends. */
    function Remaining(): seq<Byte>
      reads this, stream
    {
      prefix + Coming(stream.script, stream.timed)
    }

    function End(): ReadError
      reads this, stream
    {
      EndOf(stream.script, stream.timed)
    }

    method Read(max: nat) returns (data: seq<Byte>, err: ReadError)
      requires max > 0
      modifies this`prefix, stream`script
      ensures |data| <= max
      ensures if err == NoError then data + Remaining() == old(Remaining()) && End() == old(End())
              else data == old(Remaining()) && err == old(End())
      ensures err == NoError ==> |prefix| + Weight(stream.script) < old(|prefix| + Weight(stream.script))
    {
      if |prefix| > 0 {
        var k := if |prefix| < max then |prefix| else max;
        data, err := prefix[..k], NoError;
        prefix := prefix[k..];
        assert data + prefix == old(prefix);
        assert data + Remaining() == (data + prefix) + Coming(stream.script, stream.timed);
        return;
      }
      ReadLosesNothing(stream.script, max, stream.timed);
      data, err := stream.Read(max);
    }
  }

  // ---------------------------------------------------------------- forwarding

  /** Both directions of a pipe count what they read in the `tx` field of their counter,
      and so do all other streams that run at the same time. */
  class TunnelCounters {
    var rx: nat
    var tx: nat
    ghost var others: nat       // what the other streams have added to `tx`

    constructor ()
      ensures rx == 0 && tx == 0 && others == 0
    {
      rx, tx := 0, 0;
      others := 0;
    }

    /** What the counter holds without the share of the other streams. */
    ghost function Own(): int
      reads this
    {
      tx - others
    }


    /** The addition is atomic; by the time it happens the other streams may have added
        something as well. */
    method AddTx(n: nat)
      modifies this`tx, this`others
      ensures Own() == old(Own()) + n && others >= old(others)
    {
      var foreign :| 0 <= foreign;
      tx, others := tx + foreign, others + foreign;
      if n > 0 {
        tx := tx + n;
      }
    }
  }

  datatype CopyEnd = NotStarted | AtEof | ReadFailed | WriteFailed

  lemma SliceOn(start: seq<Byte>, all: seq<Byte>, n: nat, data: seq<Byte>, room: nat)
    requires n <= |all| && data <= all[n..]
    ensures n + |data| <= |all| && all[n..][|data|..] == all[n + |data|..]
    ensures start + all[..n] + Taken(data, room) == start + all[..n + |Taken(data, room)|]
  {
    assert forall i :: 0 <= i < |data| ==> data[i] == all[n..][i];
    var k := |Taken(data, room)|;
    assert all[..n] + data[..k] == all[..n + k];
    assert start + all[..n] + data[..k] == start + (all[..n] + data[..k]);
    assert Taken(data, room) == data[..k];
  }

  /** How a copy ends that has `all` to read, with this error after it, and room for so much. */
  function EndOfCopy(all: seq<Byte>, err: ReadError, room: nat): CopyEnd {
    if room < |all| then WriteFailed else if err == EndOfFile then AtEof else ReadFailed
  }

  /** `copyCount` from the stream to the upstream, exactly: everything that comes before the
      first error arrives, in order, as far as the upstream takes it; the copy ends with
      that error or with the failed write. The copy's share of the counter grows by the
      bytes read, at most one buffer more than those that arrived. */
  method CopyCount(dst: Upstream, src: PrefixReader, cnt: TunnelCounters) returns (end: CopyEnd)
    modifies dst, cnt`tx, cnt`others, src`prefix, src.stream`script
    ensures end == EndOfCopy(old(src.Remaining()), old(src.End()), old(dst.room))
    ensures dst.received == old(dst.received) + AtMost(old(src.Remaining()), old(dst.room))
    ensures var n := |AtMost(old(src.Remaining()), old(dst.room))|;
            && n <= cnt.Own() - old(cnt.Own()) <= n + PIPE_BUF_SIZE
            && (end != WriteFailed ==> cnt.Own() - old(cnt.Own()) == n)
  {
    ghost var all := src.Remaining();
    ghost var start := dst.received;
    ghost var n: nat := 0;
    assert start + all[..0] == start;
    while true
      invariant n <= |all| && dst.received == start + all[..n]
      invariant src.Remaining() == all[n..] && src.End() == old(src.End())
      invariant cnt.Own() == old(cnt.Own()) + n && dst.room + n == old(dst.room)
      decreases |src.prefix| + Weight(src.stream.script)
    {
      var data, err := src.Read(PIPE_BUF_SIZE);
      SliceOn(start, all, n, data, dst.room);
      n := n + |Taken(data, dst.room)|;
      if |data| > 0 {
        cnt.AddTx(|data|);
        var ok := dst.Write(data);
        if !ok {
          return WriteFailed;
        }
      }
      if err == EndOfFile {
        return AtEof;
      }
      if err != NoError {
        return ReadFailed;
      }
    }
  }

  /** `handleStream`, exactly: a probe is echoed as far as the client takes it, and nothing of
      it is forwarded; of any other stream nothing is echoed, and all of it, peeked bytes
      included, reaches the upstream as far as that takes it. Missed deadlines during the
      peek lose nothing. */
  method HandleStream(stream: Stream, upstream: Upstream, dialOk: bool, cnt: TunnelCounters) returns (end: CopyEnd)
    modifies stream, upstream, cnt`tx, cnt`others
    ensures var all, probe := Content(old(stream.script)), IsProbe(old(stream.script));
            var got := if probe || !dialOk then [] else AtMost(all, old(upstream.room));
            && stream.sent == old(stream.sent) + (if probe then Taken(PROBE_PING, old(stream.room)) else [])
            && upstream.received == old(upstream.received) + got
            && end == (if probe || !dialOk then NotStarted
                       else EndOfCopy(all, EndOf(old(stream.script), false), old(upstream.room)))
            && |got| <= cnt.Own() - old(cnt.Own()) <= |got| + PIPE_BUF_SIZE
  {
    ghost var sent, received := stream.sent, upstream.received;
    assert sent + [] == sent && received + [] == received;
    var handled, consumed := HandleProbeStream(stream);
    if handled || !dialOk {
      return NotStarted;
    }
    var src := new PrefixReader(consumed, stream);
    end := CopyCount(upstream, src, cnt);
  }

  /** The bytes of a probe are the first of its stream. */
  lemma {:induction false} PromptWithinContent(script: seq<Delivery>)
    ensures Prompt(script) <= Content(script)
  {
    if script != [] {
      PromptWithinContent(script[1..]);
    }
  }
}
