/** The byte framing of the spawner protocol, `spawnConn` in
    `internal/proc/spawner_unix.go`: a 4-byte big-endian length and a body, with
    descriptors riding on the first byte of the frame.

    One `Stream` is one direction of the socket pair. The kernel's freedom is a
    schedule: at every call it may interrupt, fail, or move any positive number of
    bytes. JSON is an arbitrary codec. */
module Framing {

  type Byte = b: int | 0 <= b < 256
  type Bytes = seq<Byte>
  type Descriptor = int

  const MAX_MESSAGE: nat := 0x400_0000
  const MAX_UINT32: nat := 0x1_0000_0000
  /** The control buffer of recv has room for this many descriptors. */
  const MAX_DESCRIPTORS: nat := 8

  /** One byte in flight, with the descriptors sent along with it. */
  datatype Cell = Cell(b: Byte, fds: seq<Descriptor>)

  function Cells(bytes: Bytes, fds: seq<Descriptor>): (cells: seq<Cell>)
    ensures |cells| == |bytes|
  {
    seq(|bytes|, i requires 0 <= i < |bytes| => Cell(bytes[i], if i == 0 then fds else []))
  }

  function BytesOf(cells: seq<Cell>): (bytes: Bytes)
    ensures |bytes| == |cells|
  {
    seq(|cells|, i requires 0 <= i < |cells| => cells[i].b)
  }

  /** binary.BigEndian.AppendUint32 of uint32(n): the conversion wraps. */
  function BigEndian(n: nat): (head: Bytes)
    ensures |head| == 4
  {
    [n / 0x100_0000 % 256, n / 0x1_0000 % 256, n / 0x100 % 256, n % 256]
  }

  function Uint32(head: Bytes): nat
    requires |head| == 4
  {
    var a: int, b: int, c: int, d: int := head[0], head[1], head[2], head[3];
    a * 0x100_0000 + b * 0x1_0000 + c * 0x100 + d
  }

  lemma TakeDigit(n: nat)
    ensures n == 0x100 * (n / 0x100) + n % 0x100
    ensures n / 0x1_0000 == n / 0x100 / 0x100 && n / 0x100_0000 == n / 0x1_0000 / 0x100
  {
  }

  lemma HeadRoundTrip(n: nat)
    ensures Uint32(BigEndian(n)) == n % MAX_UINT32
  {
    var a, b, c := n / 0x100, n / 0x1_0000, n / 0x100_0000;
    var d := c / 0x100;
    TakeDigit(n);
    TakeDigit(a);
    TakeDigit(b);
    TakeDigit(c);
    Remainder(n, d, c % 0x100 * 0x100_0000 + b % 0x100 * 0x1_0000 + a % 0x100 * 0x100 + n % 0x100);
  }

  lemma Remainder(n: nat, d: nat, r: nat)
    requires n == MAX_UINT32 * d + r && r < MAX_UINT32
    ensures n % MAX_UINT32 == r
  {
  }

  /** What one message looks like on the wire, whatever the fragmentation. */
  function Frame(body: Bytes, fds: seq<Descriptor>): seq<Cell> {
    Cells(BigEndian(|body|) + body, fds)
  }

  datatype Received =
    | Message(body: Bytes, fds: seq<Descriptor>, rest: seq<Cell>)
    | EndOfStream
    | Broken

  function First(fds: seq<Descriptor>): seq<Descriptor> {
    if |fds| <= MAX_DESCRIPTORS then fds else fds[..MAX_DESCRIPTORS]
  }

  /** What recv makes of everything the peer ever wrote. */
  function Parse(stream: seq<Cell>): Received {
    if |stream| == 0 then EndOfStream
    else if |stream| < 4 then Broken
    else
      var size := Uint32(BytesOf(stream[..4]));
      if size > MAX_MESSAGE || |stream| < 4 + size then Broken
      else Message(BytesOf(stream[4..4 + size]), First(stream[0].fds), stream[4 + size..])
  }

  /** The header of a frame at the head of a stream. */
  lemma HeaderOf(body: Bytes, fds: seq<Descriptor>, rest: seq<Cell>)
    ensures var stream := Frame(body, fds) + rest;
      && |stream| == 4 + |body| + |rest| && stream[0].fds == fds
      && Uint32(BytesOf(stream[..4])) == |body| % MAX_UINT32
  {
    var stream := Frame(body, fds) + rest;
    assert BytesOf(stream[..4]) == BigEndian(|body|);
    HeadRoundTrip(|body|);
  }

  lemma BodyOf(body: Bytes, fds: seq<Descriptor>, rest: seq<Cell>)
    ensures var stream := Frame(body, fds) + rest;
      BytesOf(stream[4..4 + |body|]) == body && stream[4 + |body|..] == rest
  {
  }

  /** A frame is read back with its own body and descriptors, leaving the rest of
      the stream, exactly when the body is at most maxMessage and the descriptors
      fit the control buffer. A longer body is refused, or, from 4 GiB on where
      the length wraps, can be cut; it is never delivered whole. */
  lemma FrameRoundTrip(body: Bytes, fds: seq<Descriptor>, rest: seq<Cell>)
    ensures Parse(Frame(body, fds) + rest) == Message(body, fds, rest)
       <==> |body| <= MAX_MESSAGE && |fds| <= MAX_DESCRIPTORS
  {
    HeaderOf(body, fds, rest);
    BodyOf(body, fds, rest);
    var stream := Frame(body, fds) + rest;
    if |body| > MAX_MESSAGE {
      assert Parse(stream).Message? ==> |Parse(stream).body| <= MAX_MESSAGE;
    } else {
      assert First(fds) == fds <==> |fds| <= MAX_DESCRIPTORS;
    }
  }

  datatype Packet = Packet(body: Bytes, fds: seq<Descriptor>)

  predicate Sendable(p: Packet) {
    |p.body| <= MAX_MESSAGE && |p.fds| <= MAX_DESCRIPTORS
  }

  function Frames(packets: seq<Packet>): seq<Cell> {
    if packets == [] then [] else Frame(packets[0].body, packets[0].fds) + Frames(packets[1..])
  }

  /** Receiving until the first result that is not a message. */
  function ParseAll(stream: seq<Cell>): (seq<Packet>, Received)
    decreases |stream|
  {
    match Parse(stream)
    case Message(body, fds, rest) =>
      var (more, last) := ParseAll(rest);
      ([Packet(body, fds)] + more, last)
    case other => ([], other)
  }

  lemma ParseAllStep(stream: seq<Cell>, p: Packet, rest: seq<Cell>)
    requires Parse(stream) == Message(p.body, p.fds, rest)
    ensures ParseAll(stream) == ([p] + ParseAll(rest).0, ParseAll(rest).1)
  {
  }

  lemma {:induction false} FramesStep(packets: seq<Packet>, rest: seq<Cell>)
    requires packets != [] && Sendable(packets[0])
    ensures Parse(Frames(packets) + rest)
         == Message(packets[0].body, packets[0].fds, Frames(packets[1..]) + rest)
  {
    var p, tail := packets[0], Frames(packets[1..]) + rest;
    FrameRoundTrip(p.body, p.fds, tail);
    Regroup(Frame(p.body, p.fds), Frames(packets[1..]), rest);
  }

  lemma Regroup(a: seq<Cell>, b: seq<Cell>, c: seq<Cell>)
    ensures (a + b) + c == a + (b + c)
  {
  }

  /** Any list of sendable messages followed by anything: the messages come out
      first, in order, each with its own descriptors. */
  lemma {:induction false} StreamRoundTrip(packets: seq<Packet>, rest: seq<Cell>)
    requires forall i | 0 <= i < |packets| :: Sendable(packets[i])
    ensures ParseAll(Frames(packets) + rest) == (packets + ParseAll(rest).0, ParseAll(rest).1)
  {
    if packets == [] {
      assert Frames(packets) + rest == rest;
      assert packets + ParseAll(rest).0 == ParseAll(rest).0;
    } else {
      FramesStep(packets, rest);
      StreamRoundTrip(packets[1..], rest);
      ParseAllStep(Frames(packets) + rest, packets[0], Frames(packets[1..]) + rest);
      Reassociate(packets, ParseAll(rest).0);
    }
  }

  lemma Reassociate(packets: seq<Packet>, more: seq<Packet>)
    requires packets != []
    ensures [packets[0]] + (packets[1..] + more) == packets + more
  {
  }

  lemma HeaderOfCut(body: Bytes, fds: seq<Descriptor>, cut: nat)
    requires 4 <= cut <= 4 + |body|
    ensures Uint32(BytesOf(Frame(body, fds)[..cut][..4])) == |body| % MAX_UINT32
  {
    assert BytesOf(Frame(body, fds)[..cut][..4]) == BigEndian(|body|);
    HeadRoundTrip(|body|);
  }

  /** What a proper prefix of a frame yields: no message, so that a request whose send failed
      cannot be decoded by the spawner; unless the body has 4 GiB or more, the length wraps
      to one that recv accepts, and that much of the body is there. */
  lemma CutFrameIsNoMessage(p: Packet, cut: nat)
    requires cut < |Frame(p.body, p.fds)|
    ensures Parse(Frame(p.body, p.fds)[..cut]).Message?
       <==> |p.body| % MAX_UINT32 <= MAX_MESSAGE && 4 + |p.body| % MAX_UINT32 <= cut
    ensures |p.body| < MAX_UINT32 ==> Parse(Frame(p.body, p.fds)[..cut]) == if cut == 0 then EndOfStream else Broken
  {
    if 4 <= cut {
      HeaderOfCut(p.body, p.fds, cut);
    }
  }

  /** Truncating a stream anywhere loses whole messages from the end and never
      invents or alters one. */
  lemma TruncationIsDetected(packets: seq<Packet>, p: Packet, cut: nat)
    requires forall i | 0 <= i < |packets| :: Sendable(packets[i])
    requires |p.body| < MAX_UINT32 && cut < |Frame(p.body, p.fds)|
    ensures ParseAll(Frames(packets) + Frame(p.body, p.fds)[..cut])
         == (packets, if cut == 0 then EndOfStream else Broken)
  {
    StreamRoundTrip(packets, Frame(p.body, p.fds)[..cut]);
    CutFrameIsNoMessage(p, cut);
    assert packets + [] == packets;
  }

  /** The encoding of messages: JSON in the program, arbitrary here. */
  datatype Codec<!M> = Codec(encode: M -> Bytes, decode: Bytes -> Decoded<M>)
  datatype Decoded<+M> = Value(value: M) | Malformed

  datatype Choice = Interrupt | Fail | Move(n: nat)
  datatype Status = Ok | Interrupted | Failed
  datatype Outcome<+M> = Delivered(msg: M, fds: seq<Descriptor>) | Eof | Error

  function Clamp(n: nat, lo: nat, hi: nat): (r: nat)
    requires lo <= hi
    ensures lo <= r <= hi
  {
    if n < lo then lo else if n > hi then hi else n
  }

  class Stream {
    /** Bytes written and not yet read. On the reading side, everything the peer
        writes before it closes: a read blocks until a byte or the end arrives. */
    var wire: seq<Cell>
    var schedule: seq<Choice>

    constructor (schedule: seq<Choice>)
      ensures wire == [] && this.schedule == schedule
    {
      wire, this.schedule := [], schedule;
    }

    predicate Reliable()
      reads this`schedule
    {
      Fail !in schedule
    }

    method Decide() returns (c: Choice)
      modifies this`schedule
      ensures |schedule| <= |old(schedule)|
      ensures c.Interrupt? ==> |schedule| < |old(schedule)|
      ensures old(Reliable()) ==> Reliable() && c != Fail
    {
      if schedule == [] {
        return Move(MAX_UINT32);
      }
      c, schedule := schedule[0], schedule[1..];
    }

    /** write(2), and sendmsg(2) when there are descriptors. */
    method SysWrite(b: Bytes, fds: seq<Descriptor>) returns (n: nat, status: Status)
      requires b != []
      modifies this
      ensures status == Ok ==> 1 <= n <= |b| && wire == old(wire) + Cells(b[..n], fds)
      ensures status != Ok ==> n == 0 && wire == old(wire)
      ensures |schedule| <= |old(schedule)|
      ensures status == Interrupted ==> |schedule| < |old(schedule)|
      ensures old(Reliable()) ==> Reliable() && status != Failed
    {
      var c := Decide();
      match c
      case Interrupt => return 0, Interrupted;
      case Fail => return 0, Failed;
      case Move(k) =>
        n, status := Clamp(k, 1, |b|), Ok;
        wire := wire + Cells(b[..n], fds);
    }

    /** read(2) into b from position at; the descriptors of the bytes are lost.
        recvmsg(2) is the same call with the descriptors kept. */
    method SysRead(b: array<Byte>, at: nat) returns (n: nat, fds: seq<Descriptor>, status: Status)
      requires at < b.Length
      modifies this, b
      ensures n <= b.Length - at && n <= |old(wire)| && wire == old(wire)[n..]
      ensures status == Ok ==> (n == 0 <==> old(wire) == [])
      ensures n > 0 && (forall j | 1 <= j < n :: old(wire)[j].fds == []) ==> fds == First(old(wire)[0].fds)
      ensures status != Ok ==> n == 0
      ensures forall j | 0 <= j < b.Length ::
          b[j] == if at <= j < at + n then old(wire)[j - at].b else old(b[j])
      ensures |schedule| <= |old(schedule)|
      ensures status == Interrupted ==> |schedule| < |old(schedule)|
      ensures old(Reliable()) ==> Reliable() && status != Failed
    {
      fds := [];
      var c := Decide();
      match c
      case Interrupt => return 0, [], Interrupted;
      case Fail => return 0, [], Failed;
      case Move(k) =>
        var available := if |wire| < b.Length - at then |wire| else b.Length - at;
        n, status := if available == 0 then 0 else Clamp(k, 1, available), Ok;
        fds := First(AllFds(wire[..n]));
        if n > 0 && forall j | 1 <= j < n :: wire[j].fds == [] {
          OnlyFirstFds(wire[..n]);
        }
        forall i | 0 <= i < n {
          b[at + i] := wire[i].b;
        }
        wire := wire[n..];
    }

    /** Writes all of b, or a proper prefix of it and reports the failure. */
    method Write(b: Bytes) returns (ok: bool, ghost done: nat)
      modifies this
      ensures done <= |b| && (ok <==> done == |b|)
      ensures wire == old(wire) + Cells(b, [])[..done]
      ensures old(Reliable()) ==> Reliable() && ok
    {
      var left := b;
      done := 0;
      while left != []
        invariant done <= |b| && left == b[done..]
        invariant wire == old(wire) + Cells(b, [])[..done]
        invariant old(Reliable()) ==> Reliable()
        decreases |schedule|, |left|
      {
        var n, status := SysWrite(left, []);
        if status == Interrupted {
          continue;
        }
        if status == Failed {
          return false, done;
        }
        assert Cells(b, [])[..done + n] == Cells(b, [])[..done] + Cells(left[..n], []);
        left, done := left[n..], done + n;
      }
      return true, done;
    }

    /** A successful send appends exactly one frame; a failed one leaves a proper
        prefix of it, possibly nothing. */
    method Send<M>(codec: Codec<M>, msg: M, fds: seq<Descriptor>) returns (ok: bool, ghost done: nat)
      modifies this
      ensures var frame := Frame(codec.encode(msg), fds);
          && done <= |frame| && (ok <==> done == |frame|)
          && wire == old(wire) + frame[..done]
      ensures old(Reliable()) ==> Reliable() && ok
    {
      var body := codec.encode(msg);
      var head := BigEndian(|body|);
      ghost var frame := Frame(body, fds);
      done := 0;
      if |fds| > 0 {
        var n, status := SendHead(head, fds);
        if status == Failed {
          return false, 0;
        }
        HeadPart(body, fds, n);
        head, done := head[n..], n;
      }
      HeadRemainder(body, fds, done);
      ghost var k;
      ok, k := Write(head);
      Extend(old(wire), frame, done, 4, k);
      done := done + k;
      if !ok {
        return;
      }
      BodyPart(body, fds);
      ok, k := Write(body);
      Extend(old(wire), frame, 4, |frame|, k);
      done := 4 + k;
    }

    method SendHead(head: Bytes, fds: seq<Descriptor>) returns (n: nat, status: Status)
      requires head != []
      modifies this
      ensures status == Ok || status == Failed
      ensures status == Ok ==> 1 <= n <= |head| && wire == old(wire) + Cells(head[..n], fds)
      ensures status == Failed ==> wire == old(wire)
      ensures old(Reliable()) ==> Reliable() && status == Ok
    {
      n, status := SysWrite(head, fds);
      while status == Interrupted
        invariant old(Reliable()) ==> Reliable() && status != Failed
        invariant status == Ok ==> 1 <= n <= |head| && wire == old(wire) + Cells(head[..n], fds)
        invariant status != Ok ==> wire == old(wire)
        decreases |schedule|, status == Interrupted
      {
        n, status := SysWrite(head, fds);
      }
    }

    /** Fills b from position at, or reports that the stream ended or failed. */
    method Read(b: array<Byte>, at: nat) returns (ok: bool)
      requires at <= b.Length
      modifies this, b
      ensures forall j | 0 <= j < at :: b[j] == old(b[j])
      ensures ok ==> b.Length - at <= |old(wire)| && wire == old(wire)[b.Length - at..]
      ensures ok ==> forall j | at <= j < b.Length :: b[j] == old(wire)[j - at].b
      ensures old(Reliable()) ==> Reliable() && (ok <==> b.Length - at <= |old(wire)|)
    {
      var i := at;
      while i < b.Length
        invariant at <= i <= b.Length && i - at <= |old(wire)|
        invariant wire == old(wire)[i - at..]
        invariant old(Reliable()) ==> Reliable()
        invariant forall j | 0 <= j < at :: b[j] == old(b[j])
        invariant forall j | at <= j < i :: b[j] == old(wire)[j - at].b
        decreases |schedule|, b.Length - i
      {
        var n, _, status := SysRead(b, i);
        if status == Interrupted {
          continue;
        }
        if status == Failed || n == 0 {
          return false;
        }
        i := i + n;
      }
      return true;
    }

    /** One recvmsg(2) at the start of a frame. */
    method RecvStart(head: array<Byte>) returns (n: nat, fds: seq<Descriptor>, status: Status)
      requires head.Length == 4 && AtBoundary(wire)
      modifies this, head
      ensures status != Ok ==> n == 0
      ensures n <= 4 && n <= |old(wire)| && wire == old(wire)[n..]
      ensures status == Ok ==> (n == 0 <==> old(wire) == [])
      ensures forall j | 0 <= j < n :: head[j] == old(wire)[j].b
      ensures n > 0 ==> fds == First(old(wire)[0].fds)
      ensures |schedule| <= |old(schedule)|
      ensures status == Interrupted ==> |schedule| < |old(schedule)|
      ensures old(Reliable()) ==> Reliable() && status != Failed
    {
      n, fds, status := SysRead(head, 0);
    }

    /** The first call of recv, which also returns the descriptors. */
    method RecvHead(head: array<Byte>) returns (n: nat, fds: seq<Descriptor>, status: Status)
      requires head.Length == 4 && AtBoundary(wire)
      modifies this, head
      ensures status == Ok || (status == Failed && !old(Reliable()))
      ensures n <= 4 && n <= |old(wire)| && wire == old(wire)[n..]
      ensures status == Ok ==> (n == 0 <==> old(wire) == [])
      ensures forall j | 0 <= j < n :: head[j] == old(wire)[j].b
      ensures n > 0 ==> fds == First(old(wire)[0].fds)
      ensures old(Reliable()) ==> Reliable()
    {
      while true
        invariant wire == old(wire)
        invariant old(Reliable()) ==> Reliable()
        decreases |schedule|
      {
        n, fds, status := RecvStart(head);
        if status != Interrupted {
          return;
        }
        assert wire == old(wire);
      }
    }

    /** The length of the next message and its descriptors. */
    method RecvHeader() returns (h: Header)
      requires AtBoundary(wire)
      modifies this
      ensures h.Ended? ==> old(wire) == []
      ensures h.Size? ==> 4 <= |old(wire)| && wire == old(wire)[4..]
      ensures h.Size? ==> h.size == Uint32(BytesOf(old(wire)[..4])) && h.fds == First(old(wire)[0].fds)
      ensures old(Reliable()) ==> Reliable()
      ensures old(Reliable()) ==> (h.Ended? <==> old(wire) == []) && (h.Size? <==> |old(wire)| >= 4)
    {
      ghost var stream := wire;
      var head := new Byte[4];
      var n, fds, status := RecvHead(head);
      if status == Failed {
        return Unreadable;
      }
      if n == 0 {
        return Ended;
      }
      var ok := Read(head, n);
      if !ok {
        return Unreadable;
      }
      assert head[..] == BytesOf(stream[..4]);
      return Size(Uint32(head[..]), fds);
    }

    /** recv: a delivered message is what Parse reads off the stream, and the
        bytes after its frame are left. A call that fails can only turn the
        result into an error; with none failing the result is Parse's. */
    method Recv<M>(codec: Codec<M>) returns (r: Outcome<M>)
      requires AtBoundary(wire)
      modifies this
      ensures r.Delivered? ==> Parse(old(wire)).Message?
      ensures r.Delivered? ==> codec.decode(Parse(old(wire)).body) == Value(r.msg)
      ensures r.Delivered? ==> r.fds == Parse(old(wire)).fds && wire == Parse(old(wire)).rest
      ensures r.Eof? ==> Parse(old(wire)) == EndOfStream
      ensures old(Reliable()) ==> Reliable()
      ensures old(Reliable()) && Parse(old(wire)).EndOfStream? ==> r.Eof?
      ensures old(Reliable()) && Parse(old(wire)).Message? && r.Error? ==>
          codec.decode(Parse(old(wire)).body).Malformed?
    {
      ghost var stream := wire;
      var h := RecvHeader();
      if h.Ended? {
        return Eof;
      }
      if h.Unreadable? {
        return Error;
      }
      var size := h.size;
      if size > MAX_MESSAGE {
        return Error;
      }
      var body := new Byte[size];
      var ok := Read(body, 0);
      if !ok {
        return Error;
      }
      assert |stream| >= 4 + size && wire == stream[4 + size..];
      assert body[..] == BytesOf(stream[4..4 + size]);
      match codec.decode(body[..])
      case Malformed => return Error;
      case Value(msg) => return Delivered(msg, h.fds);
    }
  }

  // The whole exchange.

  /** The packet a message travels as. */
  function PacketOf<M>(codec: Codec<M>, m: (M, seq<Descriptor>)): Packet {
    Packet(codec.encode(m.0), m.1)
  }

  function Packets<M>(codec: Codec<M>, msgs: seq<(M, seq<Descriptor>)>): (packets: seq<Packet>)
    ensures |packets| == |msgs| && forall i | 0 <= i < |msgs| :: packets[i] == PacketOf(codec, msgs[i])
  {
    seq(|msgs|, i requires 0 <= i < |msgs| => PacketOf(codec, msgs[i]))
  }

  /** A message within the limits that the codec gives back. */
  ghost predicate Carried<M>(codec: Codec<M>, m: (M, seq<Descriptor>)) {
    Sendable(PacketOf(codec, m)) && codec.decode(codec.encode(m.0)) == Value(m.0)
  }

  ghost predicate AllCarried<M>(codec: Codec<M>, msgs: seq<(M, seq<Descriptor>)>) {
    forall i | 0 <= i < |msgs| :: Carried(codec, msgs[i])
  }

  lemma {:induction false} FramesSnoc(packets: seq<Packet>, p: Packet)
    ensures Frames(packets + [p]) == Frames(packets) + Frame(p.body, p.fds)
  {
    if packets == [] {
      assert packets + [p] == [p] && [p][1..] == [];
      assert Frames([p]) == Frame(p.body, p.fds) + Frames([]);
    } else {
      assert (packets + [p])[1..] == packets[1..] + [p];
      FramesSnoc(packets[1..], p);
    }
  }

  lemma SentOne<M>(codec: Codec<M>, msgs: seq<(M, seq<Descriptor>)>, i: nat)
    requires i < |msgs|
    ensures Frames(Packets(codec, msgs[..i + 1]))
         == Frames(Packets(codec, msgs[..i])) + Frame(codec.encode(msgs[i].0), msgs[i].1)
  {
    assert Packets(codec, msgs[..i + 1]) == Packets(codec, msgs[..i]) + [PacketOf(codec, msgs[i])];
    FramesSnoc(Packets(codec, msgs[..i]), PacketOf(codec, msgs[i]));
  }

  /** Sending a list of messages over a connection on which no call fails. */
  method SendAll<M>(s: Stream, codec: Codec<M>, msgs: seq<(M, seq<Descriptor>)>)
    requires s.wire == [] && s.Reliable()
    modifies s
    ensures s.wire == Frames(Packets(codec, msgs)) && s.Reliable()
  {
    for i := 0 to |msgs|
      invariant s.wire == Frames(Packets(codec, msgs[..i])) && s.Reliable()
    {
      var ok, done := s.Send(codec, msgs[i].0, msgs[i].1);
      SentOne(codec, msgs, i);
      assert Frame(codec.encode(msgs[i].0), msgs[i].1)[..done] == Frame(codec.encode(msgs[i].0), msgs[i].1);
    }
    assert msgs[..|msgs|] == msgs;
  }

  /** The first of the remaining messages is what Parse finds. */
  lemma NextMessage<M>(codec: Codec<M>, msgs: seq<(M, seq<Descriptor>)>, i: nat)
    requires i <= |msgs| && AllCarried(codec, msgs)
    ensures var stream := Frames(Packets(codec, msgs[i..]));
      && AtBoundary(stream) && (i < |msgs| ==> Carried(codec, msgs[i]))
      && Parse(stream) == if i == |msgs| then EndOfStream
                          else Message(codec.encode(msgs[i].0), msgs[i].1, Frames(Packets(codec, msgs[i + 1..])))
  {
    var packets := Packets(codec, msgs[i..]);
    var none := Packet([], []);
    FramesAreAtBoundary(packets, none, 0);
    assert Frames(packets) + Frame(none.body, none.fds)[..0] == Frames(packets);
    if i < |msgs| {
      assert Carried(codec, msgs[i]) && packets[0] == PacketOf(codec, msgs[i]);
      FramesStep(packets, []);
      assert Frames(packets) + [] == Frames(packets);
      assert packets[1..] == Packets(codec, msgs[i + 1..]);
      assert Frames(packets[1..]) + [] == Frames(packets[1..]);
    }
  }

  /** Whatever the two schedules fragment and interrupt, receiving until the first
      result that is not a message gives back the messages sent, in order, each with
      its own descriptors, and then the end. */
  method Exchange<M>(codec: Codec<M>, msgs: seq<(M, seq<Descriptor>)>, sending: seq<Choice>, receiving: seq<Choice>)
    returns (got: seq<(M, seq<Descriptor>)>, last: Outcome<M>)
    requires AllCarried(codec, msgs) && Fail !in sending && Fail !in receiving
    ensures got == msgs && last == Eof
  {
    var s := new Stream(sending);
    SendAll(s, codec, msgs);
    s.schedule := receiving;
    got := [];
    var i := 0;
    assert msgs[0..] == msgs;
    while true
      invariant 0 <= i <= |msgs| && got == msgs[..i]
      invariant s.wire == Frames(Packets(codec, msgs[i..])) && s.Reliable()
      decreases |msgs| - i
    {
      NextMessage(codec, msgs, i);
      last := s.Recv(codec);
      match last {
        case Delivered(msg, fds) =>
          got := got + [(msg, fds)];
          i := i + 1;
        case Eof => return;
        case Error => return;
      }
    }
  }

  datatype Header = Size(size: nat, fds: seq<Descriptor>) | Ended | Unreadable

  /** The stream continues at a frame boundary: descriptors ride only on the first
      byte of a frame, and a frame has at least four bytes. */
  predicate AtBoundary(stream: seq<Cell>) {
    forall i | 1 <= i < 4 && i < |stream| :: stream[i].fds == []
  }

  /** Every stream recv meets is at a boundary: frames, whole or cut. */
  lemma FramesAreAtBoundary(packets: seq<Packet>, p: Packet, cut: nat)
    requires cut <= |Frame(p.body, p.fds)|
    ensures AtBoundary(Frames(packets) + Frame(p.body, p.fds)[..cut])
  {
    if packets != [] {
      var first := Frame(packets[0].body, packets[0].fds);
      assert Frames(packets) + Frame(p.body, p.fds)[..cut]
          == first + (Frames(packets[1..]) + Frame(p.body, p.fds)[..cut]);
    }
  }

  lemma {:induction false} NoFds(cells: seq<Cell>)
    requires forall i | 0 <= i < |cells| :: cells[i].fds == []
    ensures AllFds(cells) == []
  {
    if cells != [] {
      NoFds(cells[1..]);
    }
  }

  lemma OnlyFirstFds(cells: seq<Cell>)
    requires cells != [] && forall i | 1 <= i < |cells| :: cells[i].fds == []
    ensures AllFds(cells) == cells[0].fds
  {
    NoFds(cells[1..]);
  }

  /** Appending the next piece of a frame after its first a cells. */
  lemma Extend(before: seq<Cell>, frame: seq<Cell>, a: nat, b: nat, k: nat)
    requires a <= b <= |frame| && k <= b - a
    ensures before + frame[..a] + frame[a..b][..k] == before + frame[..a + k]
  {
    assert frame[..a] + frame[a..b][..k] == frame[..a + k];
  }

  lemma HeadRemainder(body: Bytes, fds: seq<Descriptor>, n: nat)
    requires n <= 4 && (n == 0 ==> fds == [])
    ensures Cells(BigEndian(|body|)[n..], []) == Frame(body, fds)[n..4]
  {
  }

  lemma HeadPart(body: Bytes, fds: seq<Descriptor>, n: nat)
    requires 1 <= n <= 4
    ensures Cells(BigEndian(|body|)[..n], fds) == Frame(body, fds)[..n]
  {
  }

  lemma BodyPart(body: Bytes, fds: seq<Descriptor>)
    ensures Cells(body, []) == Frame(body, fds)[4..4 + |body|]
  {
  }

  function AllFds(cells: seq<Cell>): seq<Descriptor> {
    if cells == [] then [] else cells[0].fds + AllFds(cells[1..])
  }
}
