/** Length-prefixed frames over a byte stream (agents/stage_agent.py, recv_exactly, read_frame, write_frame). */
module Wire {
  import opened Types

  type Byte = x: int | 0 <= x < 256

  const WORD_LIMIT := 0x1_0000_0000

  /** struct.pack(">I", n). */
  function Pack(n: nat): (r: seq<Byte>)
    requires n < WORD_LIMIT
    ensures |r| == 4
  {
    [LowByte(n / 0x100_0000), LowByte(n / 0x1_0000), LowByte(n / 256), LowByte(n)]
  }

  function LowByte(n: nat): Byte {
    n % 256
  }

  function Unpack(b: seq<Byte>): (n: nat)
    requires |b| == 4
    ensures n < WORD_LIMIT
  {
    var (w: int, x: int, y: int, z: int) := (b[0], b[1], b[2], b[3]);
    ((w * 256 + x) * 256 + y) * 256 + z
  }

  lemma UnpackPack(n: nat)
    requires n < WORD_LIMIT
    ensures Unpack(Pack(n)) == n
  {
    var a, b, d := n / 256, n / 0x1_0000, n / 0x100_0000;
    assert b == a / 256 && d == b / 256 && LowByte(d) == d;
    assert n == a * 256 + LowByte(n) && a == b * 256 + LowByte(a) && b == d * 256 + LowByte(b);
  }

  /** The bytes are in network order: a small number is in the last one, and appending a byte shifts the others forward. */
  lemma PackIsBigEndian(n: nat, low: Byte)
    requires n < 0x100_0000
    ensures Pack(low) == [0, 0, 0, low]
    ensures n * 256 + low < WORD_LIMIT && Pack(n * 256 + low) == Pack(n)[1..] + [low]
  {
    var m := n * 256 + low;
    assert m / 256 == n && m / 0x1_0000 == n / 256 && m / 0x100_0000 == n / 0x1_0000;
  }

  // ---------------------------------------------------------------- frames as values

  /** How headers travel: an encoding that decoding undoes. */
  datatype Codec<!Header> = Codec(encode: Header -> seq<Byte>, decode: seq<Byte> -> Option<Header>)

  ghost predicate Faithful<Header(!new)>(c: Codec<Header>) {
    forall h :: (c.decode)((c.encode)(h)) == Some(h)
  }

  datatype Frame<+Header> = Frame(header: Header, payload: seq<Byte>)

  datatype WireError = ConnectionClosed | TooLong | BadHeader

  predicate Sendable<Header>(c: Codec<Header>, f: Frame<Header>) {
    |(c.encode)(f.header)| < WORD_LIMIT && |f.payload| < WORD_LIMIT
  }

  function FrameBytes<Header>(c: Codec<Header>, f: Frame<Header>): seq<Byte>
    requires Sendable(c, f)
  {
    var body := (c.encode)(f.header);
    Pack(|body|) + body + Pack(|f.payload|) + f.payload
  }

  /** The layout of a frame: length of the header, header, length of the payload, payload. */
  lemma FrameLayout<Header>(c: Codec<Header>, f: Frame<Header>)
    requires Sendable(c, f)
    ensures var s, n, k := FrameBytes(c, f), |(c.encode)(f.header)|, |f.payload|;
      && |s| == 8 + n + k
      && s[..4] == Pack(n) && s[4..4 + n] == (c.encode)(f.header) && s[4 + n..8 + n] == Pack(k) && s[8 + n..] == f.payload
  {
  }

  function StreamOf<Header>(c: Codec<Header>, frames: seq<Frame<Header>>): seq<Byte>
    requires forall i :: 0 <= i < |frames| ==> Sendable(c, frames[i])
  {
    if frames == [] then [] else FrameBytes(c, frames[0]) + StreamOf(c, frames[1..])
  }

  /** A length and that many bytes, if they are all there. */
  function TakeBlock(s: seq<Byte>): Option<(seq<Byte>, seq<Byte>)> {
    if |s| < 4 then None
    else
      var n := Unpack(s[..4]);
      if |s| < 4 + n then None else Some((s[4..4 + n], s[4 + n..]))
  }

  /** What reading one frame from these bytes gives. */
  function ParseFrame<Header>(c: Codec<Header>, s: seq<Byte>): (r: Result<(Frame<Header>, seq<Byte>), WireError>)
    ensures r.Success? ==> |r.value.1| < |s|
  {
    match TakeBlock(s)
    case None => Failure(ConnectionClosed)
    case Some((body, rest)) =>
      match (c.decode)(body)
      case None => Failure(BadHeader)
      case Some(h) =>
        match TakeBlock(rest)
        case None => Failure(ConnectionClosed)
        case Some((payload, after)) => Success((Frame(h, payload), after))
  }

  /** All frames up to the point where the stream ends or cannot be read, and the bytes from there on. */
  function ParseAll<Header>(c: Codec<Header>, s: seq<Byte>): (seq<Frame<Header>>, seq<Byte>)
    decreases |s|
  {
    match ParseFrame(c, s)
    case Failure(_) => ([], s)
    case Success((f, rest)) =>
      var (frames, unread) := ParseAll(c, rest);
      ([f] + frames, unread)
  }

  lemma TakeBlockOfBlock(b: seq<Byte>, rest: seq<Byte>)
    requires |b| < WORD_LIMIT
    ensures TakeBlock(Pack(|b|) + b + rest) == Some((b, rest))
  {
    hide Pack, Unpack;
    UnpackPack(|b|);
    var s := Pack(|b|) + b + rest;
    assert s[..4] == Pack(|b|) && s[4..4 + |b|] == b && s[4 + |b|..] == rest;
  }

  /** A block of which bytes are missing at the end is not mistaken for another one. */
  lemma TakeBlockOfCut(b: seq<Byte>, cut: seq<Byte>)
    requires |b| < WORD_LIMIT
    requires cut <= Pack(|b|) + b && cut != Pack(|b|) + b
    ensures TakeBlock(cut) == None
  {
    hide Pack, Unpack;
    UnpackPack(|b|);
    if |cut| >= 4 {
      assert cut[..4] == (Pack(|b|) + b)[..4] == Pack(|b|);
    }
  }

  lemma ReadsBackOne<Header(!new)>(c: Codec<Header>, f: Frame<Header>, rest: seq<Byte>)
    requires Faithful(c) && Sendable(c, f)
    ensures ParseFrame(c, FrameBytes(c, f) + rest) == Success((f, rest))
  {
    hide TakeBlock, Pack;
    var body := (c.encode)(f.header);
    var tail := Pack(|f.payload|) + f.payload + rest;
    assert FrameBytes(c, f) + rest == Pack(|body|) + body + tail;
    TakeBlockOfBlock(body, tail);
    TakeBlockOfBlock(f.payload, rest);
  }

  /** A frame cut short is reported as a closed connection, wherever the cut falls. */
  lemma CutFrameIsClosed<Header(!new)>(c: Codec<Header>, f: Frame<Header>, cut: seq<Byte>)
    requires Faithful(c) && Sendable(c, f)
    requires cut <= FrameBytes(c, f) && cut != FrameBytes(c, f)
    ensures ParseFrame(c, cut) == Failure(ConnectionClosed)
  {
    hide TakeBlock, Pack;
    var body := (c.encode)(f.header);
    var first, second := Pack(|body|) + body, Pack(|f.payload|) + f.payload;
    assert FrameBytes(c, f) == first + second;
    if |cut| < |first| {
      assert cut == FrameBytes(c, f)[..|cut|] == first[..|cut|];
      TakeBlockOfCut(body, cut);
    } else {
      var rest := cut[|first|..];
      assert cut == FrameBytes(c, f)[..|cut|] == first + second[..|cut| - |first|];
      assert rest == second[..|rest|];
      assert cut == Pack(|body|) + body + rest;
      TakeBlockOfBlock(body, rest);
      TakeBlockOfCut(f.payload, rest);
    }
  }

  /** Frames written one after the other are read back as the same frames, followed by whatever comes after them. */
  lemma {:induction false} StreamReadsBack<Header(!new)>(c: Codec<Header>, frames: seq<Frame<Header>>, rest: seq<Byte>)
    requires Faithful(c) && forall i :: 0 <= i < |frames| ==> Sendable(c, frames[i])
    ensures ParseAll(c, StreamOf(c, frames) + rest) == (frames + ParseAll(c, rest).0, ParseAll(c, rest).1)
  {
    hide FrameBytes, ParseFrame;
    if frames == [] {
      assert [] + rest == rest && [] + ParseAll(c, rest).0 == ParseAll(c, rest).0;
    } else {
      var tail := StreamOf(c, frames[1..]) + rest;
      assert StreamOf(c, frames) + rest == FrameBytes(c, frames[0]) + tail;
      ReadsBackOne(c, frames[0], tail);
      StreamReadsBack(c, frames[1..], rest);
      assert [frames[0]] + (frames[1..] + ParseAll(c, rest).0) == frames + ParseAll(c, rest).0;
    }
  }

  /** So a stream that breaks off inside a frame yields every frame before it, and stops at the broken one. */
  lemma BrokenStreamKeepsWholeFrames<Header(!new)>(
      c: Codec<Header>, frames: seq<Frame<Header>>, last: Frame<Header>, cut: seq<Byte>)
    requires Faithful(c) && (forall i :: 0 <= i < |frames| ==> Sendable(c, frames[i])) && Sendable(c, last)
    requires cut <= FrameBytes(c, last) && cut != FrameBytes(c, last)
    ensures ParseAll(c, StreamOf(c, frames) + cut) == (frames, cut)
  {
    hide FrameBytes, ParseFrame;
    StreamReadsBack(c, frames, cut);
    CutFrameIsClosed(c, last, cut);
    assert frames + [] == frames;
  }

  /** A whole stream is read back with nothing left over. */
  lemma WrittenIsRead<Header(!new)>(c: Codec<Header>, frames: seq<Frame<Header>>)
    requires Faithful(c) && forall i :: 0 <= i < |frames| ==> Sendable(c, frames[i])
    ensures ParseAll(c, StreamOf(c, frames)) == (frames, [])
  {
    hide FrameBytes, StreamOf, ParseFrame;
    StreamReadsBack(c, frames, []);
    NothingToRead(c);
    assert StreamOf(c, frames) + [] == StreamOf(c, frames) && frames + [] == frames;
  }

  lemma NothingToRead<Header>(c: Codec<Header>)
    ensures ParseAll(c, []) == ([], [])
  {
  }

  lemma {:induction false} StreamOfAppend<Header>(c: Codec<Header>, frames: seq<Frame<Header>>, f: Frame<Header>)
    requires (forall i :: 0 <= i < |frames| ==> Sendable(c, frames[i])) && Sendable(c, f)
    ensures StreamOf(c, frames + [f]) == StreamOf(c, frames) + FrameBytes(c, f)
  {
    hide FrameBytes;
    if frames == [] {
      assert [f][1..] == [];
    } else {
      StreamOfAppend(c, frames[1..], f);
      assert (frames + [f])[1..] == frames[1..] + [f];
    }
  }

  // ---------------------------------------------------------------- sockets

  /** One end of a connection: the bytes the peer sends before it closes, and the bytes sent to it. */
  class Socket {
    var incoming: seq<Byte>
    var outgoing: seq<Byte>

    constructor (incoming: seq<Byte>)
      ensures this.incoming == incoming && outgoing == []
    {
      this.incoming := incoming;
      outgoing := [];
    }

    /** recv: some of the next bytes, as many as happen to be there; none only when the peer has closed. */
    method Recv(count: nat) returns (chunk: seq<Byte>)
      requires count > 0
      modifies this`incoming
      ensures old(incoming) == chunk + incoming && |chunk| <= count
      ensures chunk == [] <==> old(incoming) == []
    {
      if incoming == [] {
        return [];
      }
      var most := if |incoming| < count then |incoming| else count;
      var k :| 1 <= k <= most;
      chunk := incoming[..k];
      incoming := incoming[k..];
    }

    method SendAll(bytes: seq<Byte>)
      modifies this`outgoing
      ensures outgoing == old(outgoing) + bytes
    {
      outgoing := outgoing + bytes;
    }
  }

  /** recv_exactly: the next `count` bytes, however they are fragmented. */
  method RecvExactly(sock: Socket, count: nat) returns (r: Result<seq<Byte>, WireError>)
    modifies sock`incoming
    ensures if |old(sock.incoming)| >= count
      then r == Success(old(sock.incoming)[..count]) && sock.incoming == old(sock.incoming)[count..]
      else r == Failure(ConnectionClosed) && sock.incoming == []
  {
    var chunks := [];
    while |chunks| < count
      invariant old(sock.incoming) == chunks + sock.incoming && |chunks| <= count
      decreases count - |chunks|
    {
      var chunk := sock.Recv(count - |chunks|);
      if chunk == [] {
        return Failure(ConnectionClosed);
      }
      chunks := chunks + chunk;
    }
    return Success(chunks);
  }

  /** A length prefix and the bytes it announces. */
  method RecvBlock(sock: Socket) returns (r: Result<seq<Byte>, WireError>)
    modifies sock`incoming
    ensures match TakeBlock(old(sock.incoming))
      case None => r == Failure(ConnectionClosed) && sock.incoming == []
      case Some((b, rest)) => r == Success(b) && sock.incoming == rest
  {
    var prefix := RecvExactly(sock, 4);
    if prefix.Failure? {
      return prefix;
    }
    var n := Unpack(prefix.value);
    if n == 0 {
      assert old(sock.incoming)[4..4] == [];
      return Success([]);
    }
    r := RecvExactly(sock, n);
    assert |old(sock.incoming)| >= 4 + n ==>
      old(sock.incoming)[4..][..n] == old(sock.incoming)[4..4 + n] && old(sock.incoming)[4..][n..] == old(sock.incoming)[4 + n..];
  }

  /** read_frame. */
  method ReadFrame<Header>(sock: Socket, c: Codec<Header>) returns (r: Result<Frame<Header>, WireError>)
    modifies sock`incoming
    ensures match ParseFrame(c, old(sock.incoming))
      case Failure(e) => r == Failure(e) && (e.ConnectionClosed? ==> sock.incoming == [])
      case Success((f, rest)) => r == Success(f) && sock.incoming == rest
  {
    hide TakeBlock;
    var body := RecvBlock(sock);
    if body.Failure? {
      return Failure(body.error);
    }
    var header := (c.decode)(body.value);
    if header.None? {
      return Failure(BadHeader);
    }
    var payload := RecvBlock(sock);
    if payload.Failure? {
      return Failure(payload.error);
    }
    return Success(Frame(header.value, payload.value));
  }

  /** write_frame: a length that does not fit the prefix is refused before anything is sent. */
  method WriteFrame<Header>(sock: Socket, c: Codec<Header>, f: Frame<Header>) returns (r: Result<(), WireError>)
    modifies sock`outgoing
    ensures if Sendable(c, f) then r.Success? && sock.outgoing == old(sock.outgoing) + FrameBytes(c, f)
      else r == Failure(TooLong) && sock.outgoing == old(sock.outgoing)
  {
    var body := (c.encode)(f.header);
    if |body| >= WORD_LIMIT || |f.payload| >= WORD_LIMIT {
      return Failure(TooLong);
    }
    sock.SendAll(Pack(|body|) + body + Pack(|f.payload|) + f.payload);
    return Success(());
  }

  /** Frames written one after the other; it stops at the first one that is too long. */
  method WriteFrames<Header>(sock: Socket, c: Codec<Header>, frames: seq<Frame<Header>>) returns (r: Result<(), WireError>)
    modifies sock`outgoing
    ensures r.Success? <==> forall i :: 0 <= i < |frames| ==> Sendable(c, frames[i])
    ensures r.Success? ==> sock.outgoing == old(sock.outgoing) + StreamOf(c, frames)
  {
    hide FrameBytes, StreamOf;
    assert StreamOf(c, frames[..0]) == [] by {
      NothingToStream(c, frames[..0]);
    }
    for i := 0 to |frames|
      invariant forall j :: 0 <= j < i ==> Sendable(c, frames[j])
      invariant sock.outgoing == old(sock.outgoing) + StreamOf(c, frames[..i])
    {
      r := WriteFrame(sock, c, frames[i]);
      if r.Failure? {
        return;
      }
      StreamOfAppend(c, frames[..i], frames[i]);
      assert frames[..i] + [frames[i]] == frames[..i + 1];
    }
    assert frames[..|frames|] == frames;
    return Success(());
  }

  lemma NothingToStream<Header>(c: Codec<Header>, frames: seq<Frame<Header>>)
    requires frames == []
    ensures StreamOf(c, frames) == []
  {
  }

  /** The reading half of the agent's loop: frames until the connection ends, which leaves nothing unread. */
  method ReadUntilClosed<Header>(sock: Socket, c: Codec<Header>) returns (frames: seq<Frame<Header>>)
    modifies sock`incoming
    ensures frames == ParseAll(c, old(sock.incoming)).0
    ensures ParseFrame(c, ParseAll(c, old(sock.incoming)).1) == Failure(ConnectionClosed) ==> sock.incoming == []
  {
    hide ParseFrame, ParseAll;
    frames := [];
    while true
      invariant ParseAll(c, old(sock.incoming)).0 == frames + ParseAll(c, sock.incoming).0
      invariant ParseAll(c, old(sock.incoming)).1 == ParseAll(c, sock.incoming).1
      decreases |sock.incoming|
    {
      ParseAllStep(c, sock.incoming);
      var r := ReadFrame(sock, c);
      if r.Failure? {
        return;
      }
      frames := frames + [r.value];
    }
  }

  lemma ParseAllStep<Header>(c: Codec<Header>, s: seq<Byte>)
    ensures ParseFrame(c, s).Failure? ==> ParseAll(c, s) == ([], s)
    ensures ParseFrame(c, s).Success? ==>
      var (f, rest) := ParseFrame(c, s).value;
      ParseAll(c, s).0 == [f] + ParseAll(c, rest).0 && ParseAll(c, s).1 == ParseAll(c, rest).1
  {
    hide ParseFrame;
  }
}
