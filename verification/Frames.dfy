/** Length-prefixed IPC frames: a 4-byte big-endian length, then the body.

    Bodies are byte sequences; turning them into JSON values and back is not
    modelled. */
module Frames {

  type byte = x: int | 0 <= x < 256

  const MAX_WRITE: nat := 0xFFFF_FFFF
  const MAX_READ: nat := 8 * 1024 * 1024

  datatype FrameError = TooLarge | UnexpectedEof
  datatype FrameResult = Ok(body: seq<byte>) | Err(error: FrameError)

  function BigEndian(n: nat): (b: seq<byte>)
    requires n <= MAX_WRITE
    ensures |b| == 4
  {
    [n / 0x100_0000 % 256, n / 0x1_0000 % 256, n / 0x100 % 256, n % 256]
  }

  function FromBigEndian(b: seq<byte>): nat
    requires |b| == 4
  {
    (b[0] as int) * 0x100_0000 + (b[1] as int) * 0x1_0000 + (b[2] as int) * 0x100 + b[3] as int
  }

  lemma BigEndianRoundTrip(n: nat)
    requires n <= MAX_WRITE
    ensures FromBigEndian(BigEndian(n)) == n
  {
    assert n / 0x100 / 0x100 == n / 0x1_0000;
    assert n / 0x1_0000 / 0x100 == n / 0x100_0000;
  }

  /** The bytes of one frame. */
  function Frame(body: seq<byte>): seq<byte>
    requires |body| <= MAX_WRITE
  {
    BigEndian(|body|) + body
  }

  /** A frame starts with the length of its body, most significant byte first. */
  lemma FrameIs(body: seq<byte>)
    requires |body| <= 0xFFFF_FFFF
    ensures var f := Frame(body);
            && |f| == 4 + |body| && f[4..] == body
            && (f[0] as int) * 16_777_216 + (f[1] as int) * 65_536 + (f[2] as int) * 256 + f[3] as int == |body|
  {
    BigEndianRoundTrip(|body|);
  }

  /** What reading one frame from `s` yields, and the bytes left unread. An
      oversized length is refused after the prefix, a short stream is drained. */
  function ReadFrom(s: seq<byte>): (FrameResult, seq<byte>) {
    if |s| < 4 then (Err(UnexpectedEof), [])
    else
      var len := FromBigEndian(s[..4]);
      if len > MAX_READ then (Err(TooLarge), s[4..])
      else if |s| - 4 < len then (Err(UnexpectedEof), [])
      else (Ok(s[4..4 + len]), s[4 + len..])
  }

  /** A byte stream: what was written and not yet read. */
  class Stream {
    var bytes: seq<byte>

    constructor (content: seq<byte>)
      ensures bytes == content
    {
      bytes := content;
    }

    method WriteFrame(body: seq<byte>) returns (r: FrameResult)
      modifies this
      ensures |body| > 0xFFFF_FFFF ==> r == Err(TooLarge) && bytes == old(bytes)
      ensures |body| <= 0xFFFF_FFFF ==> r == Ok(body) && bytes == old(bytes) + Frame(body)
    {
      if |body| > MAX_WRITE {
        return Err(TooLarge);
      }
      bytes := bytes + BigEndian(|body|);
      bytes := bytes + body;
      r := Ok(body);
    }

    /** `read_exact`: all of the buffer or an error that drained the stream. */
    method ReadExact(n: nat) returns (ok: bool, buf: seq<byte>)
      modifies this
      ensures ok <==> n <= |old(bytes)|
      ensures ok ==> buf == old(bytes)[..n] && bytes == old(bytes)[n..]
      ensures !ok ==> bytes == []
    {
      if n <= |bytes| {
        ok, buf := true, bytes[..n];
        bytes := bytes[n..];
      } else {
        ok, buf := false, [];
        bytes := [];
      }
    }

    method ReadFrame() returns (r: FrameResult)
      modifies this
      ensures (r, bytes) == ReadFrom(old(bytes))
    {
      var ok, lenBuf := ReadExact(4);
      if !ok {
        return Err(UnexpectedEof);
      }
      var len := FromBigEndian(lenBuf);
      if len > MAX_READ {
        return Err(TooLarge);
      }
      var ok', buf := ReadExact(len);
      if !ok' {
        return Err(UnexpectedEof);
      }
      assert old(bytes)[4..][..len] == old(bytes)[4..4 + len];
      assert old(bytes)[4..][len..] == old(bytes)[4 + len..];
      r := Ok(buf);
    }
  }

  /** Frames written one after another. */
  function FrameAll(bodies: seq<seq<byte>>): seq<byte>
    requires forall i :: 0 <= i < |bodies| ==> |bodies[i]| <= MAX_WRITE
  {
    if bodies == [] then [] else Frame(bodies[0]) + FrameAll(bodies[1..])
  }

  /** Reading frames until the first error: the bodies, the error, the rest. */
  function ReadAll(s: seq<byte>): (seq<seq<byte>>, FrameError, seq<byte>)
    decreases |s|
  {
    var (r, rest) := ReadFrom(s);
    match r
    case Err(e) => ([], e, rest)
    case Ok(body) =>
      var (bodies, e, left) := ReadAll(rest);
      ([body] + bodies, e, left)
  }

  /** One frame in front of arbitrary bytes is read back exactly when its body
      fits the reader's 8 MiB limit; the writer alone allows 4 GiB. */
  lemma FrameIsReadIffItFits(body: seq<byte>, tail: seq<byte>)
    requires |body| <= MAX_WRITE
    ensures ReadFrom(Frame(body) + tail) == (Ok(body), tail) <==> |body| <= 8_388_608
    ensures |body| > 8_388_608 ==> ReadFrom(Frame(body) + tail) == (Err(TooLarge), body + tail)
  {
    var s := Frame(body) + tail;
    BigEndianRoundTrip(|body|);
    assert s[..4] == BigEndian(|body|);
    assert s[4..] == body + tail;
    if |body| <= MAX_READ {
      assert s[4..4 + |body|] == body;
      assert s[4 + |body|..] == tail;
    }
  }

  ghost predicate Readable(bodies: seq<seq<byte>>) {
    forall i :: 0 <= i < |bodies| ==> |bodies[i]| <= MAX_READ
  }

  /** Reading what was written yields exactly the bodies, and only then runs
      into the end of the stream with every byte consumed. */
  lemma {:induction false} FramesRoundTrip(bodies: seq<seq<byte>>)
    requires Readable(bodies)
    ensures ReadAll(FrameAll(bodies)) == (bodies, UnexpectedEof, [])
  {
    if bodies != [] {
      FrameIsReadIffItFits(bodies[0], FrameAll(bodies[1..]));
      FramesRoundTrip(bodies[1..]);
      assert bodies == [bodies[0]] + bodies[1..];
    }
  }

  /** How many leading frames fit completely in the first `n` bytes. */
  function CompleteFrames(bodies: seq<seq<byte>>, n: nat): (k: nat)
    ensures k <= |bodies|
  {
    if bodies == [] || n < 4 + |bodies[0]| then 0
    else 1 + CompleteFrames(bodies[1..], n - 4 - |bodies[0]|)
  }

  /** A stream cut at any byte yields the complete leading frames and nothing
      of the one that was cut. */
  lemma {:induction false} TruncatedStream(bodies: seq<seq<byte>>, n: nat)
    requires Readable(bodies) && n <= |FrameAll(bodies)|
    ensures ReadAll(FrameAll(bodies)[..n]) == (bodies[..CompleteFrames(bodies, n)], UnexpectedEof, [])
  {
    if bodies != [] {
      var body, all := bodies[0], FrameAll(bodies);
      var rest := FrameAll(bodies[1..]);
      if n >= 4 + |body| {
        var m := n - 4 - |body|;
        assert all[..n] == Frame(body) + rest[..m];
        FrameIsReadIffItFits(body, rest[..m]);
        TruncatedStream(bodies[1..], m);
        assert bodies[..CompleteFrames(bodies, n)]
            == [body] + bodies[1..][..CompleteFrames(bodies[1..], m)];
      } else {
        CutFrame(body, rest, n);
      }
    }
  }

  lemma CutFrame(body: seq<byte>, rest: seq<byte>, n: nat)
    requires |body| <= MAX_READ && n < 4 + |body|
    ensures ReadAll((Frame(body) + rest)[..n]) == ([], UnexpectedEof, [])
  {
    var s := (Frame(body) + rest)[..n];
    if n >= 4 {
      BigEndianRoundTrip(|body|);
      assert s[..4] == BigEndian(|body|);
    }
  }
}
