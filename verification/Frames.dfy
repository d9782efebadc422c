/** Length-prefixed framing (frame.go) over a byte stream that arrives in arbitrary chunks. */
module Frames {
  type Byte = b: int | 0 <= b < 256
  type Bytes = seq<Byte>

  const MAX_FRAME_SIZE := 65536

  datatype Error = EOF | UnexpectedEOF | FrameTooLarge | WriteFailed

  datatype Result<T> = Ok(value: T) | Err(error: Error)

  /** binary.BigEndian.PutUint32 and Uint32. */
  function Header(n: int): Bytes
    requires 0 <= n < 0x1_0000_0000
  {
    [n / 256 / 256 / 256, n / 256 / 256 % 256, n / 256 % 256, n % 256]
  }

  function HeaderValue(h: Bytes): int
    requires |h| == 4
  {
    (((h[0] as int) * 256 + h[1] as int) * 256 + h[2] as int) * 256 + h[3] as int
  }

  lemma {:induction false} DivideByte(high: int, low: int)
    requires 0 <= low < 256
    ensures (high * 256 + low) / 256 == high && (high * 256 + low) % 256 == low
  {
  }

  lemma {:induction false} HeaderRoundTrip(n: int)
    requires 0 <= n < 0x1_0000_0000
    ensures HeaderValue(Header(n)) == n
  {
  }

  lemma {:induction false} HeaderCanonical(h: Bytes)
    requires |h| == 4
    ensures 0 <= HeaderValue(h) < 0x1_0000_0000 && Header(HeaderValue(h)) == h
  {
    var high := (h[0] as int) * 256 + h[1] as int;
    var upper := high * 256 + h[2] as int;
    DivideByte(upper, h[3] as int);
    DivideByte(high, h[2] as int);
    DivideByte(h[0] as int, h[1] as int);
  }

  /** The most significant byte comes first. */
  lemma {:induction false} BigEndian(n: int)
    requires 0 <= n < 0x1_0000_0000
    ensures var h := Header(n);
            |h| == 4 && n == h[0] as int * 0x100_0000 + h[1] as int * 0x1_0000 + h[2] as int * 0x100 + h[3] as int
  {
    HeaderRoundTrip(n);
  }

  predicate Sendable(p: Bytes) { |p| <= MAX_FRAME_SIZE }

  function EncodeFrame(p: Bytes): Bytes
    requires Sendable(p)
  {
    Header(|p|) + p
  }

  function EncodeAll(ps: seq<Bytes>): Bytes
    requires forall p :: p in ps ==> Sendable(p)
  {
    if ps == [] then [] else EncodeFrame(ps[0]) + EncodeAll(ps[1..])
  }

  /** io.ReadFull of `n` bytes: nothing consumed is an EOF, a partial read an unexpected one. */
  function TakeFull(s: Bytes, n: nat): (Result<Bytes>, Bytes) {
    if n <= |s| then (Ok(s[..n]), s[n..])
    else (Err(if s == [] then EOF else UnexpectedEOF), [])
  }

  /** What ReadFrame returns on a stream, and what it leaves unread. */
  function DecodeFrame(s: Bytes): (r: (Result<Bytes>, Bytes))
    ensures r.0.Ok? ==> |r.1| < |s|
  {
    var (header, body) := TakeFull(s, 4);
    if header.Err? then (header, body)
    else
      var n := HeaderValue(header.value);
      if n > MAX_FRAME_SIZE then (Err(FrameTooLarge), body) else TakeFull(body, n)
  }

  /** A header that announces more than 65536 bytes is refused before any of the body is read. */
  lemma {:induction false} OversizedRefused(h: Bytes, rest: Bytes)
    requires |h| == 4
    ensures DecodeFrame(h + rest) == (Err(FrameTooLarge), rest) <==> HeaderValue(h) > 65536
  {
    assert (h + rest)[..4] == h && (h + rest)[4..] == rest;
  }

  /** Reading until the first error. */
  function DecodeAll(s: Bytes): (seq<Bytes>, Error)
    decreases |s|
  {
    match DecodeFrame(s)
    case (Err(e), _) => ([], e)
    case (Ok(p), rest) =>
      var (ps, e) := DecodeAll(rest);
      ([p] + ps, e)
  }

  lemma {:induction false} DecodeEncoded(p: Bytes, rest: Bytes)
    requires Sendable(p)
    ensures DecodeFrame(EncodeFrame(p) + rest) == (Ok(p), rest)
  {
    var s := EncodeFrame(p) + rest;
    HeaderRoundTrip(|p|);
    assert s[..4] == Header(|p|);
    assert s[4..] == p + rest;
    assert (p + rest)[..|p|] == p && (p + rest)[|p|..] == rest;
  }

  /** Frames written back to back are read back exactly, followed by a clean end of file. */
  lemma {:induction false} StreamRoundTrip(ps: seq<Bytes>)
    requires forall p :: p in ps ==> Sendable(p)
    ensures DecodeAll(EncodeAll(ps)) == (ps, EOF)
  {
    if ps != [] {
      DecodeEncoded(ps[0], EncodeAll(ps[1..]));
      StreamRoundTrip(ps[1..]);
      assert ps == [ps[0]] + ps[1..];
    }
  }

  /** How many frames lie completely within the first `k` bytes. */
  function CompleteFrames(ps: seq<Bytes>, k: int): (c: nat)
    requires forall p :: p in ps ==> Sendable(p)
    ensures c <= |ps|
  {
    if ps == [] || k < 4 + |ps[0]| then 0 else 1 + CompleteFrames(ps[1..], k - 4 - |ps[0]|)
  }

  lemma {:induction false} DecodeCutFrame(p: Bytes, rest: Bytes, k: nat)
    requires Sendable(p) && k < 4 + |p|
    ensures DecodeFrame((EncodeFrame(p) + rest)[..k]) == (Err(if k == 0 || k == 4 then EOF else UnexpectedEOF), [])
  {
    var s := (EncodeFrame(p) + rest)[..k];
    if k >= 4 {
      assert s[..4] == Header(|p|);
      HeaderRoundTrip(|p|);
    }
  }

  lemma {:induction false} FirstFrames(ps: seq<Bytes>, c: nat)
    requires (forall p :: p in ps ==> Sendable(p)) && c < |ps|
    ensures ps[..c + 1] == [ps[0]] + ps[1..][..c]
    ensures EncodeAll(ps[..c + 1]) == EncodeFrame(ps[0]) + EncodeAll(ps[1..][..c])
  {
    assert ps[..c + 1][1..] == ps[1..][..c];
  }

  lemma {:induction false} CutBeyond(frame: Bytes, rest: Bytes, k: nat)
    requires |frame| <= k <= |frame| + |rest|
    ensures (frame + rest)[..k] == frame + rest[..k - |frame|]
  {
  }

  /** Reading a stream that starts with a frame. */
  lemma {:induction false} DecodeAllStep(p: Bytes, rest: Bytes)
    requires Sendable(p)
    ensures DecodeAll(EncodeFrame(p) + rest) == ([p] + DecodeAll(rest).0, DecodeAll(rest).1)
  {
    hide DecodeFrame, EncodeFrame;
    DecodeEncoded(p, rest);
  }

  function ErrorAfter(left: int): Error { if left == 0 || left == 4 then EOF else UnexpectedEOF }

  /** The cut falls into the first frame. */
  lemma {:induction false} CutInFirst(p: Bytes, rest: Bytes, k: nat)
    requires Sendable(p) && k < 4 + |p|
    ensures DecodeAll((EncodeFrame(p) + rest)[..k]) == ([], ErrorAfter(k))
  {
    DecodeCutFrame(p, rest, k);
  }

  /**
   Cutting the stream anywhere yields exactly the frames complete before the cut. The error is a clean
   EOF when the cut falls between frames, and also when it falls between a header and its body.
   */
  lemma {:induction false} CutStream(ps: seq<Bytes>, k: nat)
    requires (forall p :: p in ps ==> Sendable(p)) && k <= |EncodeAll(ps)|
    ensures var done := ps[..CompleteFrames(ps, k)];
            DecodeAll(EncodeAll(ps)[..k]) == (done, ErrorAfter(k - |EncodeAll(done)|))
  {
    hide DecodeFrame, DecodeAll;
    if ps == [] {
      CutOfNothing();
    } else {
      var p, rest := ps[0], EncodeAll(ps[1..]);
      var whole := 4 + |p|;
      assert |EncodeFrame(p)| == whole;
      if k < whole {
        CutInFirst(p, rest, k);
        assert ps[..0] == [];
      } else {
        CutBeyond(EncodeFrame(p), rest, k);
        DecodeAllStep(p, rest[..k - whole]);
        CutStream(ps[1..], k - whole);
        FirstFrames(ps, CompleteFrames(ps[1..], k - whole));
      }
    }
  }

  lemma {:induction false} CutOfNothing()
    ensures DecodeAll([]) == ([], EOF)
  {
  }

  /** Whatever bytes arrive, the frames read are the frames that were written at the front of them. */
  lemma {:induction false} DecodeSound(s: Bytes)
    ensures forall p :: p in DecodeAll(s).0 ==> Sendable(p)
    ensures EncodeAll(DecodeAll(s).0) <= s
    decreases |s|
  {
    var (r, rest) := DecodeFrame(s);
    if r.Ok? {
      HeaderCanonical(s[..4]);
      assert s == EncodeFrame(r.value) + rest;
      DecodeSound(rest);
      var ps := DecodeAll(rest).0;
      assert ([r.value] + ps)[1..] == ps;
    }
  }

  // ---------------------------------------------------------------------------------------------
  // The reader and the writer

  function Concat(chunks: seq<Bytes>): Bytes {
    if chunks == [] then [] else chunks[0] + Concat(chunks[1..])
  }

  /** A connection whose remaining bytes arrive in these chunks, some of them possibly empty. */
  class Reader {
    var chunks: seq<Bytes>

    constructor (arriving: seq<Bytes>)
      ensures chunks == arriving
    {
      chunks := arriving;
    }

    ghost function Rest(): Bytes
      reads this
    {
      Concat(chunks)
    }

    /** One Read call: part or all of the next chunk. */
    method Read(max: nat) returns (data: Bytes, eof: bool)
      modifies this
      ensures old(Rest()) == data + Rest() && |data| <= max
      ensures eof == (old(chunks) == []) && (eof ==> data == [] && chunks == [])
      ensures !eof ==> |chunks| < |old(chunks)| || (|chunks| == |old(chunks)| && |data| == max)
    {
      if chunks == [] {
        return [], true;
      }
      var first := chunks[0];
      eof := false;
      if |first| <= max {
        data, chunks := first, chunks[1..];
      } else {
        data := first[..max];
        var left := [first[max..]] + chunks[1..];
        assert left[1..] == chunks[1..];
        assert first == data + first[max..];
        chunks := left;
      }
    }

    /** io.ReadFull. */
    method ReadFull(n: nat) returns (r: Result<Bytes>)
      modifies this
      ensures (r, Rest()) == TakeFull(old(Rest()), n)
    {
      var buf: Bytes := [];
      while |buf| < n
        invariant |buf| <= n && old(Rest()) == buf + Rest()
        decreases |chunks|, n - |buf|
      {
        ghost var was := Rest();
        var data, eof := Read(n - |buf|);
        if eof {
          assert buf + [] == buf;
          return Err(if buf == [] then EOF else UnexpectedEOF);
        }
        assert buf + was == (buf + data) + Rest();
        buf := buf + data;
      }
      assert old(Rest())[..n] == buf && old(Rest())[n..] == Rest();
      return Ok(buf);
    }

    /** ReadFrame: its result depends on the bytes and not on how they are chunked. */
    method ReadFrame() returns (r: Result<Bytes>)
      modifies this
      ensures (r, Rest()) == DecodeFrame(old(Rest()))
    {
      var header := ReadFull(4);
      if header.Err? {
        return header;
      }
      var n := HeaderValue(header.value);
      if n > MAX_FRAME_SIZE {
        return Err(FrameTooLarge);
      }
      r := ReadFull(n);
    }

    /** The read loops of client and server. */
    method ReadAll() returns (ps: seq<Bytes>, error: Error)
      modifies this
      ensures (ps, error) == DecodeAll(old(Rest()))
    {
      ps := [];
      assert [] + DecodeAll(Rest()).0 == DecodeAll(Rest()).0;
      while true
        invariant var (tail, e) := DecodeAll(Rest()); DecodeAll(old(Rest())) == (ps + tail, e)
        decreases |Rest()|
      {
        ghost var was := Rest();
        var r := ReadFrame();
        if r.Err? {
          assert ps + [] == ps;
          return ps, r.error;
        }
        assert ps + ([r.value] + DecodeAll(Rest()).0) == (ps + [r.value]) + DecodeAll(Rest()).0;
        ps := ps + [r.value];
      }
    }
  }

  /** A connection that accepts `room` more bytes and then fails. */
  class Writer {
    var sent: Bytes
    var room: nat

    constructor (capacity: nat)
      ensures sent == [] && room == capacity
    {
      sent, room := [], capacity;
    }

    method Write(data: Bytes) returns (ok: bool)
      modifies this
      ensures ok == (|data| <= old(room))
      ensures ok ==> sent == old(sent) + data && room == old(room) - |data|
      ensures !ok ==> sent == old(sent) + data[..old(room)] && room == 0
    {
      ok := |data| <= room;
      if ok {
        sent, room := sent + data, room - |data|;
      } else {
        sent, room := sent + data[..room], 0;
      }
    }

    /** WriteFrame: an oversized payload sends nothing; a failing connection sends a prefix of the frame. */
    method WriteFrame(p: Bytes) returns (error: Result<()>)
      modifies this
      ensures !Sendable(p) ==> error == Err(FrameTooLarge) && sent == old(sent) && room == old(room)
      ensures Sendable(p) ==> error.Ok? == (4 + |p| <= old(room))
      ensures error.Ok? ==> sent == old(sent) + EncodeFrame(p)
      ensures Sendable(p) && error.Err? ==> sent == old(sent) + EncodeFrame(p)[..old(room)]
    {
      if |p| > MAX_FRAME_SIZE {
        return Err(FrameTooLarge);
      }
      var ok := Write(Header(|p|));
      if !ok {
        assert EncodeFrame(p)[..old(room)] == Header(|p|)[..old(room)];
        return Err(WriteFailed);
      }
      ok := Write(p);
      if !ok {
        assert EncodeFrame(p)[..old(room)] == Header(|p|) + p[..old(room) - 4];
        return Err(WriteFailed);
      }
      assert old(sent) + Header(|p|) + p == old(sent) + EncodeFrame(p);
      return Ok(());
    }
  }
}
