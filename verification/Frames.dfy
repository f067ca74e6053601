/** The binary framing: one type byte, four length bytes in big-endian order, the payload. */
module Frames {
  import opened Results
  import opened Text

  type Byte = b: int | 0 <= b < 256

  const HEADER_SIZE: nat := 5

  datatype Error = ShortHeader | ShortPayload

  datatype Frame = Frame(frameType: Byte, payload: seq<Byte>)

  // ---------------------------------------------------------------------------
  // The codec on values

  /** The last `k` bytes of `n` in big-endian order. */
  function BigEndian(n: nat, k: nat): (r: seq<Byte>)
    ensures |r| == k
  {
    if k == 0 then [] else BigEndian(n / 256, k - 1) + [n % 256]
  }

  function FromBigEndian(b: seq<Byte>): nat {
    if b == [] then 0 else 256 * FromBigEndian(b[..|b| - 1]) + b[|b| - 1] as nat
  }

  function Pow256(k: nat): nat {
    if k == 0 then 1 else 256 * Pow256(k - 1)
  }

  /** `EncodeFrame`: the length field holds what uint32 leaves of the length. */
  function Encode(f: Frame): (r: seq<Byte>)
    ensures |r| == HEADER_SIZE + |f.payload|
  {
    [f.frameType] + BigEndian(|f.payload| % UINT32, 4) + f.payload
  }

  /** `DecodeFrame` on the bytes left in a reader: the frame, and the bytes left after it. */
  function Decode(s: seq<Byte>): Result<(Frame, seq<Byte>), Error> {
    if |s| < HEADER_SIZE then Err(ShortHeader)
    else
      var n := FromBigEndian(s[1..HEADER_SIZE]);
      if |s| < HEADER_SIZE + n then Err(ShortPayload)
      else Ok((Frame(s[0], s[HEADER_SIZE..HEADER_SIZE + n]), s[HEADER_SIZE + n..]))
  }

  // ---------------------------------------------------------------------------
  // Round trips

  lemma {:induction false} BigEndianRoundTrip(n: nat, k: nat)
    requires n < Pow256(k)
    ensures FromBigEndian(BigEndian(n, k)) == n
    decreases k
  {
    if k == 0 {
    } else {
      BigEndianRoundTrip(n / 256, k - 1);
      assert BigEndian(n, k)[..k - 1] == BigEndian(n / 256, k - 1);
    }
  }

  lemma {:induction false} FromBigEndianRoundTrip(b: seq<Byte>)
    ensures BigEndian(FromBigEndian(b), |b|) == b
    ensures FromBigEndian(b) < Pow256(|b|)
    decreases |b|
  {
    if b == [] {
    } else {
      FromBigEndianRoundTrip(b[..|b| - 1]);
      assert b == b[..|b| - 1] + [b[|b| - 1]];
    }
  }

  lemma FourBytes(n: nat)
    requires n < UINT32
    ensures FromBigEndian(BigEndian(n, 4)) == n
  {
    assert Pow256(4) == 256 * Pow256(3) == 256 * 256 * Pow256(2) == UINT32;
    BigEndianRoundTrip(n, 4);
  }

  lemma DivTwice(n: nat)
    ensures n / 256 / 256 == n / 0x1_0000
  {
  }

  lemma DivThrice(n: nat)
    ensures n / 256 / 256 / 256 == n / 0x100_0000
  {
  }

  lemma FourBytesStacked(n: nat, a: nat, b: nat, c: nat)
    requires a == n / 256 && b == a / 256 && c == b / 256 && c < 256
    ensures BigEndian(n, 4) == [c, b % 256, a % 256, n % 256]
  {
    assert BigEndian(c, 1) == BigEndian(c / 256, 0) + [c % 256] == [c];
    assert BigEndian(b, 2) == [c] + [b % 256];
    assert BigEndian(a, 3) == [c] + [b % 256] + [a % 256];
    assert BigEndian(n, 4) == [c] + [b % 256] + [a % 256] + [n % 256];
  }

  /** The four bytes as `binary.BigEndian.PutUint32` stores them. */
  lemma FourBytesLayout(n: nat)
    requires n < UINT32
    ensures BigEndian(n, 4) == [n / 0x100_0000, n / 0x1_0000 % 0x100, n / 0x100 % 0x100, n % 0x100]
  {
    DivTwice(n);
    DivThrice(n);
    FourBytesStacked(n, n / 256, n / 256 / 256, n / 256 / 256 / 256);
  }

  /** The three parts of a frame are where the decoder looks for them, in every long enough prefix. */
  lemma Parts(frameType: Byte, length: seq<Byte>, payload: seq<Byte>)
    requires |length| == 4
    ensures var s := [frameType] + length + payload;
            && s[0] == frameType && s[HEADER_SIZE..] == payload
            && (forall k | HEADER_SIZE <= k <= |s| :: s[..k][1..HEADER_SIZE] == length)
            && s[1..HEADER_SIZE] == length
  {
    var s := [frameType] + length + payload;
    assert s[1..HEADER_SIZE] == length;
    forall k | HEADER_SIZE <= k <= |s|
      ensures s[..k][1..HEADER_SIZE] == length
    {
      assert s[..k][1..HEADER_SIZE] == s[1..HEADER_SIZE];
    }
  }

  lemma HeaderOfEncoding(f: Frame, rest: seq<Byte>)
    ensures var s := Encode(f) + rest;
            && |s| >= HEADER_SIZE && s[0] == f.frameType
            && s[1..HEADER_SIZE] == BigEndian(|f.payload| % UINT32, 4) && s[HEADER_SIZE..] == f.payload + rest
  {
    Parts(f.frameType, BigEndian(|f.payload| % UINT32, 4), f.payload + rest);
    Parts(f.frameType, BigEndian(|f.payload| % UINT32, 4), f.payload);
    assert Encode(f) + rest == [f.frameType] + BigEndian(|f.payload| % UINT32, 4) + (f.payload + rest);
  }

  /** A frame is read back, with nothing of what follows, exactly when its payload is shorter than 2^32 bytes. */
  lemma DecodeOfEncodeIff(f: Frame, rest: seq<Byte>)
    ensures Decode(Encode(f) + rest) == Ok((f, rest)) <==> |f.payload| < UINT32
  {
    var s := Encode(f) + rest;
    HeaderOfEncoding(f, rest);
    FourBytes(|f.payload| % UINT32);
    var n := |f.payload| % UINT32;
    if |f.payload| < UINT32 {
      assert s[HEADER_SIZE..HEADER_SIZE + n] == f.payload && s[HEADER_SIZE + n..] == rest;
    } else {
      assert |s[HEADER_SIZE..HEADER_SIZE + n]| == n != |f.payload|;
    }
  }

  /** Four bytes, highest first. */
  function Uint32(a: int, b: int, c: int, d: int): int {
    a * 0x100_0000 + b * 0x1_0000 + c * 0x100 + d
  }

  lemma FourBytesValue(b: seq<Byte>)
    requires |b| == 4
    ensures FromBigEndian(b) == Uint32(b[0], b[1], b[2], b[3])
  {
    assert b[..3][..2] == b[..2] && b[..2][..1] == b[..1] && b[..1][..0] == [];
    assert FromBigEndian(b[..1]) == b[0] as nat;
    assert FromBigEndian(b[..2]) == 256 * FromBigEndian(b[..1]) + b[1] as nat;
    assert FromBigEndian(b[..3]) == 256 * FromBigEndian(b[..2]) + b[2] as nat;
  }

  /** The layout on the wire: the type, the length in four bytes, highest first, the payload, and what follows. */
  lemma DecodesIff(s: seq<Byte>, f: Frame, rest: seq<Byte>)
    ensures Decode(s) == Ok((f, rest))
            <==> && |s| >= 5 && s[0] == f.frameType && s[5..] == f.payload + rest
                 && |f.payload| == Uint32(s[1], s[2], s[3], s[4])
  {
    if |s| >= 5 {
      var n := FromBigEndian(s[1..5]);
      FourBytesValue(s[1..5]);
      if |f.payload| == n && s[5..] == f.payload + rest {
        assert s[5..][..n] == f.payload && s[5..][n..] == rest;
        assert s[5..5 + n] == s[5..][..n] && s[5 + n..] == s[5..][n..];
      }
      if |s| >= 5 + n {
        assert s[5..] == s[5..5 + n] + s[5 + n..];
      }
    }
  }

  /** What decoding consumes is the encoding of what it returns. */
  lemma EncodeOfDecode(s: seq<Byte>)
    ensures Decode(s).Ok? ==> Encode(Decode(s).value.0) + Decode(s).value.1 == s
  {
    if Decode(s).Ok? {
      var n := FromBigEndian(s[1..HEADER_SIZE]);
      FromBigEndianRoundTrip(s[1..HEADER_SIZE]);
      assert Pow256(4) == 256 * Pow256(3) == 256 * 256 * Pow256(2) == UINT32;
      assert s == [s[0]] + s[1..HEADER_SIZE] + s[HEADER_SIZE..HEADER_SIZE + n] + s[HEADER_SIZE + n..];
    }
  }

  lemma ShortOfPayload(frameType: Byte, length: seq<Byte>, payload: seq<Byte>, k: nat)
    requires |length| == 4 && FromBigEndian(length) == |payload| && HEADER_SIZE <= k < HEADER_SIZE + |payload|
    ensures Decode(([frameType] + length + payload)[..k]) == Err(ShortPayload)
  {
    Parts(frameType, length, payload);
  }

  lemma LengthIsKept(f: Frame)
    requires |f.payload| < UINT32
    ensures Encode(f) == [f.frameType] + BigEndian(|f.payload|, 4) + f.payload
  {
  }

  /** No strict prefix of a frame is taken for one. */
  lemma PrefixesRejected(f: Frame, k: nat)
    requires |f.payload| < UINT32 && k < |Encode(f)|
    ensures Decode(Encode(f)[..k]) == Err(if k < HEADER_SIZE then ShortHeader else ShortPayload)
  {
    if k >= HEADER_SIZE {
      LengthIsKept(f);
      FourBytes(|f.payload|);
      ShortOfPayload(f.frameType, BigEndian(|f.payload|, 4), f.payload, k);
    }
  }

  // ---------------------------------------------------------------------------
  // Streams of frames

  function EncodeAll(fs: seq<Frame>): seq<Byte> {
    if fs == [] then [] else Encode(fs[0]) + EncodeAll(fs[1..])
  }

  /** Frames until the bytes run out or do not decode; the bytes left are returned. */
  function DecodeAll(s: seq<Byte>): (seq<Frame>, seq<Byte>)
    decreases |s|
  {
    match Decode(s)
    case Err(_) => ([], s)
    case Ok((f, rest)) =>
      var r := DecodeAll(rest);
      ([f] + r.0, r.1)
  }

  /** A concatenation of frames decodes to the same frames and leaves no byte. */
  lemma {:induction false} FramesRoundTrip(fs: seq<Frame>)
    requires forall i | 0 <= i < |fs| :: |fs[i].payload| < UINT32
    ensures DecodeAll(EncodeAll(fs)) == (fs, [])
    decreases |fs|
  {
    if fs == [] {
    } else {
      DecodeOfEncodeIff(fs[0], EncodeAll(fs[1..]));
      FramesRoundTrip(fs[1..]);
      assert fs == [fs[0]] + fs[1..];
    }
  }

  /** Whatever the bytes, the frames decoded from them encode to exactly the bytes consumed. */
  lemma {:induction false} DecodeAllConsumes(s: seq<Byte>)
    ensures EncodeAll(DecodeAll(s).0) + DecodeAll(s).1 == s
    decreases |s|
  {
    if Decode(s).Err? {
    } else {
      var f, rest := Decode(s).value.0, Decode(s).value.1;
      EncodeOfDecode(s);
      DecodeAllConsumes(rest);
      var r := DecodeAll(rest);
      assert ([f] + r.0)[1..] == r.0;
      assert Encode(f) + EncodeAll(r.0) + r.1 == Encode(f) + (EncodeAll(r.0) + r.1);
    }
  }

  // ---------------------------------------------------------------------------
  // The codec on buffers

  method EncodeFrame(frameType: Byte, payload: array<Byte>) returns (frame: array<Byte>)
    ensures fresh(frame) && frame[..] == Encode(Frame(frameType, payload[..]))
  {
    frame := new Byte[HEADER_SIZE + payload.Length](_ => 0);
    frame[0] := frameType;
    var n := payload.Length % UINT32;
    FourBytesLayout(n);
    frame[1], frame[2], frame[3], frame[4] := n / 0x100_0000, n / 0x1_0000 % 0x100, n / 0x100 % 0x100, n % 0x100;
    for i := 0 to payload.Length
      invariant frame[..HEADER_SIZE] == [frameType] + BigEndian(n, 4)
      invariant frame[HEADER_SIZE..HEADER_SIZE + i] == payload[..i]
      invariant payload[..] == old(payload[..])
    {
      frame[HEADER_SIZE + i] := payload[i];
    }
    assert frame[..] == frame[..HEADER_SIZE] + frame[HEADER_SIZE..HEADER_SIZE + payload.Length];
    assert payload[..payload.Length] == payload[..];
  }

  /** An `io.Reader` over a byte slice. */
  class Reader {
    const data: seq<Byte>
    var pos: nat

    ghost predicate Valid()
      reads this
    {
      pos <= |data|
    }

    function Rest(): seq<Byte>
      requires pos <= |data|
      reads this
    {
      data[pos..]
    }

    constructor (data: seq<Byte>)
      ensures Valid() && this.data == data && Rest() == data
    {
      this.data := data;
      pos := 0;
    }

    /** `io.ReadFull`: fills the buffer, or fails after taking whatever is left. */
    method ReadFull(n: nat) returns (buf: seq<Byte>, ok: bool)
      requires Valid()
      modifies this
      ensures Valid()
      ensures ok <==> n <= |old(Rest())|
      ensures ok ==> buf == old(Rest())[..n] && Rest() == old(Rest())[n..]
      ensures !ok ==> Rest() == []
    {
      if |data| - pos < n {
        pos := |data|;
        return [], false;
      }
      buf := data[pos..pos + n];
      pos := pos + n;
      ok := true;
    }

    method DecodeFrame() returns (r: Result<Frame, Error>)
      requires Valid()
      modifies this
      ensures Valid()
      ensures match Decode(old(Rest()))
              case Ok((f, rest)) => r == Ok(f) && Rest() == rest
              case Err(e) => r == Err(e) && Rest() == []
    {
      ghost var start := Rest();
      var header, ok := ReadFull(HEADER_SIZE);
      if !ok {
        return Err(ShortHeader);
      }
      assert header[1..HEADER_SIZE] == start[1..HEADER_SIZE];
      var length := FromBigEndian(header[1..HEADER_SIZE]);
      var payload: seq<Byte> := [];
      if length > 0 {
        payload, ok := ReadFull(length);
        if !ok {
          return Err(ShortPayload);
        }
      }
      assert payload == start[HEADER_SIZE..HEADER_SIZE + length];
      return Ok(Frame(header[0], payload));
    }
  }
}
