/** Length-prefixed messages over a byte stream that may be written and read in pieces of any size. */
module Framing {
  import opened Chunks

  const MAX_MSG := 16 * 1024 * 1024

  /******* What is on the wire *******/

  /** A 32-bit length in network byte order. */
  function BigEndian(n: nat): seq<Byte>
    requires n < 0x1_0000_0000
  {
    [n / 256 / 256 / 256, n / 256 / 256 % 256, n / 256 % 256, n % 256]
  }

  function FromBigEndian(b: seq<Byte>): nat
    requires |b| == 4
  {
    var (b3: nat, b2: nat, b1: nat, b0: nat) := (b[0], b[1], b[2], b[3]);
    ((b3 * 256 + b2) * 256 + b1) * 256 + b0
  }

  /** One message: the length cast to 32 bits, then the payload. */
  function Frame(msg: seq<Byte>): seq<Byte> {
    BigEndian(|msg| % 0x1_0000_0000) + msg
  }

  function Concat(parts: seq<seq<Byte>>): seq<Byte> {
    if parts == [] then [] else parts[0] + Concat(parts[1..])
  }

  function FrameList(msgs: seq<seq<Byte>>): seq<seq<Byte>> {
    seq(|msgs|, i requires 0 <= i < |msgs| => Frame(msgs[i]))
  }

  function Frames(msgs: seq<seq<Byte>>): seq<Byte> {
    Concat(FrameList(msgs))
  }

  /** One receive: the message, or "" for any failure, and the bytes left unread. */
  function Receive(stream: seq<Byte>): (r: (seq<Byte>, seq<Byte>))
    ensures |r.0| <= MAX_MSG
  {
    if |stream| < 4 then ([], [])
    else
      var len, rest := FromBigEndian(stream[..4]), stream[4..];
      if len > MAX_MSG || len == 0 then ([], rest)
      else if |rest| < len then ([], [])
      else (rest[..len], rest[len..])
  }

  function ReceiveMany(stream: seq<Byte>, n: nat): (r: (seq<seq<Byte>>, seq<Byte>))
    ensures forall m :: m in r.0 ==> |m| <= MAX_MSG
    decreases n
  {
    if n == 0 then ([], stream)
    else
      var (msg, rest) := Receive(stream);
      var (msgs, left) := ReceiveMany(rest, n - 1);
      ([msg] + msgs, left)
  }

  lemma BigEndianRoundTrip(n: nat)
    requires n < 0x1_0000_0000
    ensures FromBigEndian(BigEndian(n)) == n
  {
  }

  lemma FrameHeader(msg: seq<Byte>)
    requires |msg| <= MAX_MSG
    ensures Frame(msg) == BigEndian(|msg|) + msg
  {
    assert |msg| % 0x1_0000_0000 == |msg|;
  }

  lemma ReceiveAfterHeader(header: seq<Byte>, msg: seq<Byte>, tail: seq<Byte>)
    requires |header| == 4 && FromBigEndian(header) == |msg| <= MAX_MSG
    ensures Receive(header + msg + tail) == (msg, tail)
  {
    var stream := header + msg + tail;
    assert stream[..4] == header && stream[4..] == msg + tail;
    assert (msg + tail)[..|msg|] == msg && (msg + tail)[|msg|..] == tail;
  }

  /** A receive takes exactly one frame off the stream and leaves what follows intact. */
  lemma ReceiveUndoesFrame(msg: seq<Byte>, tail: seq<Byte>)
    requires |msg| <= MAX_MSG
    ensures Receive(Frame(msg) + tail) == (msg, tail)
  {
    FrameHeader(msg);
    BigEndianRoundTrip(|msg|);
    ReceiveAfterHeader(BigEndian(|msg|), msg, tail);
  }

  /** An oversized message is refused but not skipped: its payload is what the next receive reads. */
  lemma OversizedIsNotSkipped(msg: seq<Byte>, tail: seq<Byte>)
    requires MAX_MSG < |msg| < 0x1_0000_0000
    ensures Receive(Frame(msg) + tail) == ([], msg + tail)
  {
    var header, stream := BigEndian(|msg|), Frame(msg) + tail;
    BigEndianRoundTrip(|msg|);
    assert |msg| % 0x1_0000_0000 == |msg|;
    assert stream == header + (msg + tail);
    RefusedAfterHeader(header, msg + tail);
  }

  lemma RefusedAfterHeader(header: seq<Byte>, rest: seq<Byte>)
    requires |header| == 4 && FromBigEndian(header) > MAX_MSG
    ensures Receive(header + rest) == ([], rest)
  {
    assert (header + rest)[..4] == header && (header + rest)[4..] == rest;
  }

  lemma CutAfterHeader(header: seq<Byte>, part: seq<Byte>)
    requires |header| == 4 && |part| < FromBigEndian(header) <= MAX_MSG
    ensures Receive(header + part) == ([], [])
  {
    assert (header + part)[..4] == header && (header + part)[4..] == part;
  }

  /** A frame cut short yields no message, and nothing is left. */
  lemma CutFrameYieldsNothing(msg: seq<Byte>, n: nat)
    requires |msg| <= MAX_MSG && n < |Frame(msg)|
    ensures Receive(Frame(msg)[..n]) == ([], [])
  {
    FrameHeader(msg);
    BigEndianRoundTrip(|msg|);
    if n >= 4 {
      assert Frame(msg)[..n] == BigEndian(|msg|) + msg[..n - 4];
      CutAfterHeader(BigEndian(|msg|), msg[..n - 4]);
    }
  }

  /** One receive takes these bytes off any stream that starts with them, as this message. */
  ghost predicate Carries(frame: seq<Byte>, msg: seq<Byte>) {
    forall tail :: Receive(frame + tail) == (msg, tail)
  }

  lemma FrameCarries(msg: seq<Byte>)
    requires |msg| <= MAX_MSG
    ensures Carries(Frame(msg), msg)
  {
    forall tail ensures Receive(Frame(msg) + tail) == (msg, tail) {
      ReceiveUndoesFrame(msg, tail);
    }
  }

  lemma {:induction false} FirstThenRest(msgs: seq<seq<Byte>>, stream: seq<Byte>, later: seq<Byte>, tail: seq<Byte>)
    requires msgs != [] && Receive(stream) == (msgs[0], later)
    requires ReceiveMany(later, |msgs| - 1) == (msgs[1..], tail)
    ensures ReceiveMany(stream, |msgs|) == (msgs, tail)
  {
    assert msgs == [msgs[0]] + msgs[1..];
  }

  lemma {:induction false} ReceivesInOrder(frames: seq<seq<Byte>>, msgs: seq<seq<Byte>>, tail: seq<Byte>)
    requires |frames| == |msgs| && forall i :: 0 <= i < |msgs| ==> Carries(frames[i], msgs[i])
    ensures ReceiveMany(Concat(frames) + tail, |msgs|) == (msgs, tail)
  {
    if msgs == [] {
      assert Concat(frames) + tail == tail;
    } else {
      var later := Concat(frames[1..]) + tail;
      assert Concat(frames) + tail == frames[0] + later;
      assert Carries(frames[0], msgs[0]);
      ReceivesInOrder(frames[1..], msgs[1..], tail);
      FirstThenRest(msgs, Concat(frames) + tail, later, tail);
    }
  }

  lemma {:induction false} ReceivesUndoFrames(msgs: seq<seq<Byte>>, tail: seq<Byte>)
    requires forall m :: m in msgs ==> |m| <= MAX_MSG
    ensures ReceiveMany(Frames(msgs) + tail, |msgs|) == (msgs, tail)
  {
    var frames := FrameList(msgs);
    forall i | 0 <= i < |msgs| ensures Carries(frames[i], msgs[i]) {
      FrameCarries(msgs[i]);
    }
    ReceivesInOrder(frames, msgs, tail);
  }

  /** A sequence of messages comes back whole, in order and exactly, just when none exceeds 16 MiB. */
  lemma {:induction false} RoundTripIffBounded(msgs: seq<seq<Byte>>, tail: seq<Byte>)
    ensures ReceiveMany(Frames(msgs) + tail, |msgs|) == (msgs, tail) <==> forall m :: m in msgs ==> |m| <= MAX_MSG
  {
    if forall m :: m in msgs ==> |m| <= MAX_MSG {
      ReceivesUndoFrames(msgs, tail);
    }
  }

  /******* The code *******/

  /** One direction of a connection: the bytes written and not yet read. */
  class Wire {
    var bytes: seq<Byte>
    /** A write has failed. */
    var broken: bool

    constructor ()
      ensures bytes == [] && !broken
    {
      bytes, broken := [], false;
    }

    /** Accepts between 1 byte and all of `data`, or fails (n <= 0). */
    method Write(data: seq<Byte>) returns (n: int)
      requires data != []
      modifies this
      ensures n <= |data|
      ensures bytes == old(bytes) + if n > 0 then data[..n] else []
      ensures broken == (old(broken) || n <= 0)
    {
      n :| n <= |data|;
      if n > 0 {
        bytes := bytes + data[..n];
      } else {
        broken := true;
      }
    }

    /** Yields between 1 and `max` of the bytes written; 0 only when none is left to come. */
    method Read(max: nat) returns (data: seq<Byte>)
      requires max > 0
      modifies this`bytes
      ensures |data| <= max && (data == [] <==> old(bytes) == [])
      ensures old(bytes) == data + bytes
    {
      if bytes == [] {
        data := [];
      } else {
        var n: nat :| 1 <= n <= max && n <= |bytes|;
        data, bytes := bytes[..n], bytes[n..];
      }
    }
  }

  method WriteAll(wire: Wire, data: seq<Byte>) returns (ok: bool)
    modifies wire
    ensures ok ==> wire.bytes == old(wire.bytes) + data
    ensures !ok ==> exists n :: 0 <= n < |data| && wire.bytes == old(wire.bytes) + data[..n]
    ensures wire.broken == (old(wire.broken) || !ok)
  {
    var sent: nat := 0;
    while sent < |data|
      invariant sent <= |data|
      invariant wire.bytes == old(wire.bytes) + data[..sent] && wire.broken == old(wire.broken)
    {
      var n := wire.Write(data[sent..]);
      if n <= 0 {
        return false;
      }
      assert data[..sent] + data[sent..][..n] == data[..sent + n];
      sent := sent + n;
    }
    return true;
  }

  method ReadAll(wire: Wire, buf: array<Byte>) returns (ok: bool)
    modifies wire, buf
    ensures ok <==> |old(wire.bytes)| >= buf.Length
    ensures ok ==> old(wire.bytes) == buf[..] + wire.bytes
    ensures !ok ==> wire.bytes == []
  {
    var got: nat := 0;
    while got < buf.Length
      invariant got <= buf.Length
      invariant old(wire.bytes) == buf[..got] + wire.bytes
    {
      var data := wire.Read(buf.Length - got);
      if data == [] {
        return false;
      }
      forall j | 0 <= j < |data| {
        buf[got + j] := data[j];
      }
      assert buf[..got + |data|] == buf[..got] + data;
      got := got + |data|;
    }
    return true;
  }

  /** Only a proper prefix of the message's frame has followed what was there before. */
  ghost predicate PartlySent(before: seq<Byte>, msg: seq<Byte>, after: seq<Byte>) {
    exists n :: 0 <= n < |Frame(msg)| && after == before + Frame(msg)[..n]
  }

  method SendMsg(wire: Wire, msg: seq<Byte>) returns (ok: bool)
    modifies wire
    ensures ok ==> wire.bytes == old(wire.bytes) + Frame(msg)
    ensures !ok ==> PartlySent(old(wire.bytes), msg, wire.bytes)
    ensures wire.broken == (old(wire.broken) || !ok)
  {
    var header := BigEndian(|msg| % 0x1_0000_0000);
    ghost var before := wire.bytes;
    assert Frame(msg)[..4] == header;
    ok := WriteAll(wire, header);
    if !ok {
      ghost var n :| 0 <= n < |header| && wire.bytes == before + header[..n];
      assert Frame(msg)[..n] == header[..n];
    } else if |msg| > 0 {
      ok := WriteAll(wire, msg);
      if ok {
        assert before + header + msg == before + Frame(msg);
      } else {
        ghost var n :| 0 <= n < |msg| && wire.bytes == before + header + msg[..n];
        assert Frame(msg)[..4 + n] == header + msg[..n];
        assert before + header + msg[..n] == before + (header + msg[..n]);
      }
    }
  }

  method RecvMsg(wire: Wire) returns (msg: seq<Byte>)
    modifies wire
    ensures (msg, wire.bytes) == Receive(old(wire.bytes))
  {
    ghost var stream := wire.bytes;
    var header := new Byte[4](_ => 0);
    var ok := ReadAll(wire, header);
    if !ok {
      return [];
    }
    assert stream[..4] == header[..] && stream[4..] == wire.bytes;
    var len := FromBigEndian(header[..]);
    if len > MAX_MSG || len == 0 {
      return [];
    }
    var result := new Byte[len](_ => 0);
    ok := ReadAll(wire, result);
    if !ok {
      return [];
    }
    assert stream[4..][..len] == result[..] && stream[4..][len..] == wire.bytes;
    return result[..];
  }

  /** Sends the messages in order until one fails; `sent` of them are whole on the wire. */
  method SendAll(wire: Wire, msgs: seq<seq<Byte>>) returns (sent: nat)
    modifies wire
    ensures sent <= |msgs|
    ensures sent == |msgs| ==> wire.bytes == old(wire.bytes) + Frames(msgs)
    ensures sent < |msgs| ==> PartlySent(old(wire.bytes) + Frames(msgs[..sent]), msgs[sent], wire.bytes)
    ensures wire.broken == (old(wire.broken) || sent < |msgs|)
  {
    sent := 0;
    while sent < |msgs|
      invariant sent <= |msgs|
      invariant wire.bytes == old(wire.bytes) + Frames(msgs[..sent]) && wire.broken == old(wire.broken)
    {
      var ok := SendMsg(wire, msgs[sent]);
      if !ok {
        return;
      }
      FramesSnoc(msgs[..sent], msgs[sent]);
      assert msgs[..sent + 1] == msgs[..sent] + [msgs[sent]];
      assert old(wire.bytes) + Frames(msgs[..sent]) + Frame(msgs[sent])
          == old(wire.bytes) + (Frames(msgs[..sent]) + Frame(msgs[sent]));
      sent := sent + 1;
    }
    assert msgs[..|msgs|] == msgs;
  }

  lemma {:induction false} ConcatSnoc(parts: seq<seq<Byte>>, last: seq<Byte>)
    ensures Concat(parts + [last]) == Concat(parts) + last
  {
    if parts == [] {
      assert parts + [last] == [last] && [last][1..] == [];
      assert last + [] == last;
    } else {
      ConcatSnoc(parts[1..], last);
      assert (parts + [last])[1..] == parts[1..] + [last];
      assert parts[0] + (Concat(parts[1..]) + last) == parts[0] + Concat(parts[1..]) + last;
    }
  }

  lemma {:induction false} FramesSnoc(msgs: seq<seq<Byte>>, msg: seq<Byte>)
    ensures Frames(msgs + [msg]) == Frames(msgs) + Frame(msg)
  {
    assert FrameList(msgs + [msg]) == FrameList(msgs) + [Frame(msg)];
    ConcatSnoc(FrameList(msgs), Frame(msg));
  }

  lemma ReceiveNext(stream: seq<Byte>, n: nat, msgs: seq<seq<Byte>>)
    requires n > 0
    ensures var (msg, rest) := Receive(stream);
            && msgs + ReceiveMany(stream, n).0 == msgs + [msg] + ReceiveMany(rest, n - 1).0
            && ReceiveMany(stream, n).1 == ReceiveMany(rest, n - 1).1
  {
  }

  /** Receives `n` messages one after the other. */
  method RecvAll(wire: Wire, n: nat) returns (msgs: seq<seq<Byte>>)
    modifies wire
    ensures (msgs, wire.bytes) == ReceiveMany(old(wire.bytes), n)
  {
    msgs := [];
    ghost var all := ReceiveMany(wire.bytes, n);
    assert [] + all.0 == all.0;
    for i := 0 to n
      invariant all == (msgs + ReceiveMany(wire.bytes, n - i).0, ReceiveMany(wire.bytes, n - i).1)
    {
      ghost var stream := wire.bytes;
      var msg := RecvMsg(wire);
      ReceiveNext(stream, n - i, msgs);
      msgs := msgs + [msg];
    }
    assert msgs + [] == msgs;
  }

  /**
    One end sends a list of messages and the other receives as many: for every pattern of partial writes and
    reads, all are sent unless a write fails, and then they arrive whole and in order exactly when none exceeds
    16 MiB.
   */
  method Exchange(msgs: seq<seq<Byte>>) returns (sent: nat, got: seq<seq<Byte>>, broken: bool)
    ensures sent <= |msgs| && |got| == |msgs| && (broken <==> sent < |msgs|)
    ensures sent == |msgs| ==> (got == msgs <==> forall m :: m in msgs ==> |m| <= MAX_MSG)
  {
    var wire := new Wire();
    sent := SendAll(wire, msgs);
    broken := wire.broken;
    ghost var stream := wire.bytes;
    got := RecvAll(wire, |msgs|);
    ReceivedCount(stream, |msgs|);
    if sent == |msgs| {
      assert stream == Frames(msgs) + [];
      RoundTripIffBounded(msgs, []);
      if forall m :: m in msgs ==> |m| <= MAX_MSG {
        ReceivesUndoFrames(msgs, []);
      }
    }
  }

  lemma {:induction false} ReceivedCount(stream: seq<Byte>, n: nat)
    ensures |ReceiveMany(stream, n).0| == n
    decreases n
  {
    if n > 0 {
      ReceivedCount(Receive(stream).1, n - 1);
    }
  }
}
