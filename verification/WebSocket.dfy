/**
 * Text frames over a byte stream, after sections 5.2 and 5.3 of RFC 6455: the
 * server's unmasked writer and the reader that also unmasks client frames.
 */
module WebSocket {
  import opened Words
  import opened Wrappers

  type Byte = b: int | 0 <= b < 256

  /** The mask bit and the seven bits below it, the low nibble, and the exclusive or of two bytes. */
  predicate MaskBit(b: Byte) { b >= 0x80 }

  function Low7(b: Byte): Byte { b % 0x80 }

  function WithMaskBit(b: Byte): Byte { if b >= 0x80 then b else b + 0x80 }

  function Opcode(b: Byte): Byte { b % 0x10 }

  function Pow2(k: nat): nat {
    if k == 0 then 1 else 2 * Pow2(k - 1)
  }

  function XorBit(a: nat, b: nat): nat {
    if a == b then 0 else 1
  }

  /** Bit by bit, lowest bit first, over the low k bits. */
  function XorBits(a: nat, b: nat, k: nat): nat {
    if k == 0 then 0 else 2 * XorBits(a / 2, b / 2, k - 1) + XorBit(a % 2, b % 2)
  }

  function Xor(a: Byte, b: Byte): Byte {
    ByteWidth();
    XorBitsBound(a, b, 8);
    XorBits(a, b, 8)
  }

  lemma ByteWidth()
    ensures Pow2(8) == 256
  {
    assert Pow2(4) == 16;
  }

  lemma {:induction false} XorBitsBound(a: nat, b: nat, k: nat)
    ensures XorBits(a, b, k) < Pow2(k)
  {
    if k > 0 {
      XorBitsBound(a / 2, b / 2, k - 1);
    }
  }

  /** Bit i of n, the lowest first. */
  function Bit(n: nat, i: nat): nat {
    if i == 0 then n % 2 else Bit(n / 2, i - 1)
  }

  /** Each of the k bits is set exactly where the two numbers differ, and none above them is. */
  lemma {:induction false} XorBitAt(a: nat, b: nat, k: nat, i: nat)
    ensures Bit(XorBits(a, b, k), i) == 1 <==> i < k && Bit(a, i) != Bit(b, i)
    ensures Bit(XorBits(a, b, k), i) < 2
    decreases k, i
  {
    if k > 0 {
      var high, bit := XorBits(a / 2, b / 2, k - 1), XorBit(a % 2, b % 2);
      Halves(high, bit);
      if i > 0 {
        XorBitAt(a / 2, b / 2, k - 1, i - 1);
      }
    } else if i > 0 {
      XorBitAt(0, 0, 0, i - 1);
    }
  }

  /** The operation on bytes is exclusive or: a bit of the result is set exactly where the operands differ. */
  lemma XorIsExclusiveOr(a: Byte, b: Byte, i: nat)
    requires i < 8
    ensures Bit(Xor(a, b), i) == 1 <==> Bit(a, i) != Bit(b, i)
  {
    XorBitAt(a, b, 8, i);
  }

  lemma {:induction false} XorBitsZero(a: nat, k: nat)
    requires a < Pow2(k)
    ensures XorBits(a, 0, k) == a
  {
    if k > 0 {
      XorBitsZero(a / 2, k - 1);
    }
  }

  lemma Halves(high: nat, bit: nat)
    requires bit < 2
    ensures (2 * high + bit) / 2 == high && (2 * high + bit) % 2 == bit
  {
  }

  lemma {:induction false} XorBitsTwice(a: nat, b: nat, k: nat)
    requires a < Pow2(k)
    ensures XorBits(XorBits(a, b, k), b, k) == a
  {
    if k > 0 {
      var high, bit := XorBits(a / 2, b / 2, k - 1), XorBit(a % 2, b % 2);
      XorBitsTwice(a / 2, b / 2, k - 1);
      Halves(high, bit);
      XorBitsStep(2 * high + bit, b, k, high, bit);
      assert XorBit(bit, b % 2) == a % 2;
    }
  }

  /** One unfolding, with the halves of the first argument known. */
  lemma XorBitsStep(x: nat, b: nat, k: nat, high: nat, bit: nat)
    requires k > 0 && x / 2 == high && x % 2 == bit
    ensures XorBits(x, b, k) == 2 * XorBits(high, b / 2, k - 1) + XorBit(bit, b % 2)
  {
  }

  // ---------- network byte order ----------

  function Pow256(k: nat): nat {
    if k == 0 then 1 else 256 * Pow256(k - 1)
  }

  /** The low k bytes of n, most significant first. */
  function BigEndian(n: nat, k: nat): (bs: seq<Byte>)
    ensures |bs| == k
  {
    if k == 0 then [] else BigEndian(n / 256, k - 1) + [n % 256]
  }

  function Value(bs: seq<Byte>): nat {
    if bs == [] then 0 else Value(bs[..|bs| - 1]) * 256 + bs[|bs| - 1]
  }

  lemma {:induction false} ValueOfBigEndian(n: nat, k: nat)
    requires n < Pow256(k)
    ensures Value(BigEndian(n, k)) == n
  {
    if k > 0 {
      ValueOfBigEndian(n / 256, k - 1);
      var front, low := BigEndian(n / 256, k - 1), n % 256;
      ValueAppend(front, low);
    }
  }

  lemma ValueAppend(bs: seq<Byte>, b: Byte)
    ensures Value(bs + [b]) == Value(bs) * 256 + b
  {
    assert (bs + [b])[..|bs|] == bs;
  }

  lemma WordSizes()
    ensures Pow256(2) == 0x1_0000 && Pow256(8) == 0x1_0000_0000_0000_0000
  {
    assert Pow256(4) == 0x1_0000_0000;
  }

  // ---------- the frame ----------

  /** FIN and opcode 1, then the length in the shortest of the three forms; no mask. */
  function Header(n: nat): seq<Byte> {
    if n <= 125 then [0x81, n]
    else if n <= 0xFFFF then [0x81, 126] + BigEndian(n, 2)
    else [0x81, 127] + BigEndian(n, 8)
  }

  function Frame(payload: seq<Byte>): seq<Byte> {
    Header(|payload|) + payload
  }

  /** The payload with byte i combined with byte i mod 4 of the key. */
  function Masked(payload: seq<Byte>, key: seq<Byte>): (m: seq<Byte>)
    requires |key| == 4
    ensures |m| == |payload| && forall i :: 0 <= i < |payload| ==> m[i] == Xor(payload[i], key[i % 4])
  {
    seq(|payload|, i requires 0 <= i < |payload| => Xor(payload[i], key[i % 4]))
  }

  /** The same frame as a client sends it: mask bit set, key after the length, payload masked. */
  function MaskedFrame(payload: seq<Byte>, key: seq<Byte>): seq<Byte>
    requires |key| == 4
  {
    var h := Header(|payload|);
    [h[0], WithMaskBit(h[1])] + h[2..] + key + Masked(payload, key)
  }

  // ---------- reading ----------

  datatype ReadError = Truncated | Closed | LengthOverflow

  /** Takes n bytes off the front of the stream. */
  function Take(s: seq<Byte>, n: nat): Result<(seq<Byte>, seq<Byte>), ReadError> {
    if |s| < n then Err(Truncated) else Ok((s[..n], s[n..]))
  }

  /** The length and whether a mask follows, with the rest of the stream. */
  function ReadLength(b: Byte, s: seq<Byte>): Result<(nat, seq<Byte>), ReadError> {
    var short := Low7(b);
    if short == 126 then
      match Take(s, 2)
      case Err(e) => Err(e)
      case Ok((ext, rest)) => Ok((Value(ext), rest))
    else if short == 127 then
      match Take(s, 8)
      case Err(e) => Err(e)
      case Ok((ext, rest)) => if Value(ext) >= TWO_63 then Err(LengthOverflow) else Ok((Value(ext), rest))
    else Ok((short, s))
  }

  function ReadKey(b: Byte, s: seq<Byte>): Result<(seq<Byte>, seq<Byte>), ReadError> {
    if MaskBit(b) then Take(s, 4) else Ok(([0, 0, 0, 0], s))
  }

  /** One frame off the stream.  A close frame ends it; pings and pongs read as empty payloads. */
  function ReadFrame(s: seq<Byte>): Result<(seq<Byte>, seq<Byte>), ReadError> {
    if |s| < 2 then Err(Truncated)
    else
      var opcode := Opcode(s[0]);
      match ReadLength(s[1], s[2..])
      case Err(e) => Err(e)
      case Ok((n, s1)) =>
        match ReadKey(s[1], s1)
        case Err(e) => Err(e)
        case Ok((key, s2)) =>
          match Take(s2, n)
          case Err(e) => Err(e)
          case Ok((raw, rest)) =>
            var payload := if MaskBit(s[1]) then Masked(raw, key) else raw;
            if opcode == 8 then Err(Closed)
            else if opcode == 9 || opcode == 10 then Ok(([], rest))
            else Ok((payload, rest))
  }

  // ---------- what is written is read back ----------

  lemma TakeBack(a: seq<Byte>, b: seq<Byte>)
    ensures Take(a + b, |a|) == Ok((a, b))
  {
    assert (a + b)[..|a|] == a && (a + b)[|a|..] == b;
  }

  /** Both forms of a header, plain and with the mask bit, announce the length. */
  lemma HeaderAnnounces(n: nat, mask: bool, rest: seq<Byte>)
    requires n < TWO_63
    ensures var h := Header(n);
      var b := if mask then WithMaskBit(h[1]) else h[1];
      |h| >= 2 && h[0] == 0x81 && (MaskBit(b) <==> mask) && ReadLength(b, h[2..] + rest) == Ok((n, rest))
  {
    var h := Header(n);
    WordSizes();
    if n <= 125 {
      assert h[2..] + rest == rest;
    } else if n <= 0xFFFF {
      ValueOfBigEndian(n, 2);
      assert h[2..] == BigEndian(n, 2);
      TakeBack(BigEndian(n, 2), rest);
    } else {
      ValueOfBigEndian(n, 8);
      assert h[2..] == BigEndian(n, 8);
      TakeBack(BigEndian(n, 8), rest);
    }
  }

  lemma WrittenFrameReadsBack(payload: seq<Byte>, rest: seq<Byte>)
    requires |payload| < TWO_63
    ensures ReadFrame(Frame(payload) + rest) == Ok((payload, rest))
  {
    hide Header, ReadLength;
    var h := Header(|payload|);
    var s := Frame(payload) + rest;
    HeaderAnnounces(|payload|, false, payload + rest);
    assert s[0] == h[0] && s[1] == h[1];
    assert s[2..] == h[2..] + (payload + rest);
    TakeBack(payload, rest);
  }

  /** Combining with the key twice gives the payload back. */
  lemma UnmaskMasked(payload: seq<Byte>, key: seq<Byte>)
    requires |key| == 4
    ensures Masked(Masked(payload, key), key) == payload
  {
    forall i | 0 <= i < |payload|
      ensures Masked(Masked(payload, key), key)[i] == payload[i]
    {
      XorTwice(payload[i], key[i % 4]);
    }
  }

  lemma XorTwice(a: Byte, b: Byte)
    ensures Xor(Xor(a, b), b) == a
  {
    ByteWidth();
    XorBitsTwice(a, b, 8);
  }

  lemma MaskedFrameReadsBack(payload: seq<Byte>, key: seq<Byte>, rest: seq<Byte>)
    requires |payload| < TWO_63 && |key| == 4
    ensures ReadFrame(MaskedFrame(payload, key) + rest) == Ok((payload, rest))
  {
    hide Header, ReadLength, Masked;
    var h := Header(|payload|);
    var masked := Masked(payload, key);
    var s := MaskedFrame(payload, key) + rest;
    HeaderAnnounces(|payload|, true, key + (masked + rest));
    assert s[0] == h[0] && s[1] == WithMaskBit(h[1]);
    assert s[2..] == h[2..] + (key + (masked + rest));
    TakeBack(key, masked + rest);
    TakeBack(masked, rest);
    UnmaskMasked(payload, key);
  }

  function Concat(frames: seq<seq<Byte>>): seq<Byte> {
    if frames == [] then [] else Frame(frames[0]) + Concat(frames[1..])
  }

  /** Reads n frames in a row. */
  function ReadMany(s: seq<Byte>, n: nat): Result<(seq<seq<Byte>>, seq<Byte>), ReadError> {
    if n == 0 then Ok(([], s))
    else
      match ReadFrame(s)
      case Err(e) => Err(e)
      case Ok((payload, rest)) =>
        match ReadMany(rest, n - 1)
        case Err(e) => Err(e)
        case Ok((more, end)) => Ok(([payload] + more, end))
  }

  /**
   * Reading the concatenation of any list of written frames returns exactly the
   * payloads, in order, with nothing left over and nothing more to read.
   */
  lemma {:induction false} StreamReadsBack(frames: seq<seq<Byte>>)
    requires forall p :: p in frames ==> |p| < TWO_63
    ensures ReadMany(Concat(frames), |frames|) == Ok((frames, []))
    ensures ReadMany(Concat(frames), |frames| + 1).Err?
  {
    if frames != [] {
      WrittenFrameReadsBack(frames[0], Concat(frames[1..]));
      StreamReadsBack(frames[1..]);
      assert frames == [frames[0]] + frames[1..];
    }
  }

  lemma {:induction false} ValueBound(bs: seq<Byte>)
    ensures Value(bs) < Pow256(|bs|)
  {
    if bs != [] {
      ValueBound(bs[..|bs| - 1]);
    }
  }

  /** A key of zeros masks nothing. */
  lemma ZeroKeyMasksNothing(payload: seq<Byte>)
    ensures Masked(payload, [0, 0, 0, 0]) == payload
  {
    forall i | 0 <= i < |payload|
      ensures Masked(payload, [0, 0, 0, 0])[i] == payload[i]
    {
      ByteWidth();
      XorBitsZero(payload[i], 8);
    }
  }

  /**
   * What the first byte does: only its low four bits count.  A close frame ends the
   * stream, a ping or a pong reads as empty, and any other frame, a text frame's
   * continuation included, as its payload.
   */
  lemma OpcodeDecides(first: Byte, t: seq<Byte>)
    ensures ReadFrame([first] + t) ==
              match ReadFrame([0x81] + t)
              case Err(e) => Err(e)
              case Ok((payload, rest)) =>
                if first % 16 == 8 then Err(Closed)
                else if first % 16 == 9 || first % 16 == 10 then Ok(([], rest))
                else Ok((payload, rest))
  {
    assert ([first] + t)[1..] == t && ([0x81] + t)[1..] == t;
    if |t| > 0 {
      assert ([first] + t)[2..] == t[1..] && ([0x81] + t)[2..] == t[1..];
    }
  }

  /** A stream that ends inside a written frame reads as truncated, wherever it ends. */
  lemma PrefixIsTruncated(payload: seq<Byte>, n: nat)
    requires |payload| < TWO_63 && n < |Frame(payload)|
    ensures ReadFrame(Frame(payload)[..n]) == Err(Truncated)
  {
    var s := Frame(payload)[..n];
    var h := Header(|payload|);
    WordSizes();
    if n >= 2 {
      assert s[0] == h[0] && s[1] == h[1];
      if n < |h| {
        assert |s[2..]| < |h| - 2;
      } else {
        assert s == h + payload[..n - |h|];
        HeaderAnnounces(|payload|, false, payload[..n - |h|]);
        assert s[2..] == h[2..] + payload[..n - |h|];
      }
    }
  }

  /** An announced length of 2^63 or more is refused. */
  lemma HugeLengthIsRefused(first: Byte, mask: bool, n: nat, rest: seq<Byte>)
    requires TWO_63 <= n < TWO_64
    ensures ReadFrame([first, if mask then 0xFF else 0x7F] + BigEndian(n, 8) + rest) == Err(LengthOverflow)
  {
    WordSizes();
    var s := [first, if mask then 0xFF else 0x7F] + BigEndian(n, 8) + rest;
    assert s[2..] == BigEndian(n, 8) + rest;
    ValueOfBigEndian(n, 8);
    TakeBack(BigEndian(n, 8), rest);
  }

  // ---------- the examples of section 5.7 of RFC 6455 ----------

  const HELLO: seq<Byte> := [0x48, 0x65, 0x6c, 0x6c, 0x6f]

  /** A single-frame unmasked text message. */
  lemma UnmaskedHello()
    ensures Frame(HELLO) == [0x81, 0x05, 0x48, 0x65, 0x6c, 0x6c, 0x6f]
  {
  }

  lemma HelloUnmasks()
    ensures Xor(0x7f, 0x37) == 0x48 && Xor(0x9f, 0xfa) == 0x65 && Xor(0x4d, 0x21) == 0x6c
    ensures Xor(0x51, 0x3d) == 0x6c && Xor(0x58, 0x37) == 0x6f
  {
    hide XorBits;
    HelloByte0();
    HelloByte1();
    HelloByte2();
    HelloByte3();
    HelloByte4();
  }

  lemma HelloByte0()
    ensures XorBits(0x7f, 0x37, 8) == 0x48
  {
    assert XorBits(0x1, 0x0, 2) == 0x1 && XorBits(0x3, 0x1, 3) == 0x2;
    assert XorBits(0x7, 0x3, 4) == 0x4 && XorBits(0xf, 0x6, 5) == 0x9;
    assert XorBits(0x1f, 0xd, 6) == 0x12 && XorBits(0x3f, 0x1b, 7) == 0x24;
  }

  lemma HelloByte1()
    ensures XorBits(0x9f, 0xfa, 8) == 0x65
  {
    assert XorBits(0x2, 0x3, 2) == 0x1 && XorBits(0x4, 0x7, 3) == 0x3;
    assert XorBits(0x9, 0xf, 4) == 0x6 && XorBits(0x13, 0x1f, 5) == 0xc;
    assert XorBits(0x27, 0x3e, 6) == 0x19 && XorBits(0x4f, 0x7d, 7) == 0x32;
  }

  lemma HelloByte2()
    ensures XorBits(0x4d, 0x21, 8) == 0x6c
  {
    assert XorBits(0x1, 0x0, 2) == 0x1 && XorBits(0x2, 0x1, 3) == 0x3;
    assert XorBits(0x4, 0x2, 4) == 0x6 && XorBits(0x9, 0x4, 5) == 0xd;
    assert XorBits(0x13, 0x8, 6) == 0x1b && XorBits(0x26, 0x10, 7) == 0x36;
  }

  lemma HelloByte3()
    ensures XorBits(0x51, 0x3d, 8) == 0x6c
  {
    assert XorBits(0x1, 0x0, 2) == 0x1 && XorBits(0x2, 0x1, 3) == 0x3;
    assert XorBits(0x5, 0x3, 4) == 0x6 && XorBits(0xa, 0x7, 5) == 0xd;
    assert XorBits(0x14, 0xf, 6) == 0x1b && XorBits(0x28, 0x1e, 7) == 0x36;
  }

  lemma HelloByte4()
    ensures XorBits(0x58, 0x37, 8) == 0x6f
  {
    assert XorBits(0x1, 0x0, 2) == 0x1 && XorBits(0x2, 0x1, 3) == 0x3;
    assert XorBits(0x5, 0x3, 4) == 0x6 && XorBits(0xb, 0x6, 5) == 0xd;
    assert XorBits(0x16, 0xd, 6) == 0x1b && XorBits(0x2c, 0x1b, 7) == 0x37;
  }

  lemma HelloPayload()
    ensures Masked([0x7f, 0x9f, 0x4d, 0x51, 0x58], [0x37, 0xfa, 0x21, 0x3d]) == HELLO
  {
    hide Xor;
    HelloUnmasks();
  }

  /** A single-frame masked text message. */
  lemma MaskedHello()
    ensures ReadFrame([0x81, 0x85, 0x37, 0xfa, 0x21, 0x3d, 0x7f, 0x9f, 0x4d, 0x51, 0x58]) == Ok((HELLO, []))
  {
    hide Xor, Masked;
    var key: seq<Byte> := [0x37, 0xfa, 0x21, 0x3d];
    var raw: seq<Byte> := [0x7f, 0x9f, 0x4d, 0x51, 0x58];
    var s: seq<Byte> := [0x81, 0x85, 0x37, 0xfa, 0x21, 0x3d, 0x7f, 0x9f, 0x4d, 0x51, 0x58];
    HelloPayload();
    assert s[2..] == key + raw;
    TakeBack(key, raw);
    assert raw + [] == raw;
    TakeBack(raw, []);
  }

  /** The two longer length forms, in network order. */
  lemma LongerLengths()
    ensures Header(256) == [0x81, 0x7E, 0x01, 0x00]
    ensures Header(65536) == [0x81, 0x7F, 0x00, 0x00, 0x00, 0x00, 0x00, 0x01, 0x00, 0x00]
  {
    assert BigEndian(256, 2) == BigEndian(1, 1) + [0];
    BytesOf65536();
  }

  lemma BytesOf65536()
    ensures BigEndian(65536, 8) == [0, 0, 0, 0, 0, 1, 0, 0]
  {
    assert BigEndian(1, 6) == [0, 0, 0, 0, 0, 1] by {
      assert BigEndian(0, 5) == [0, 0, 0, 0, 0] by {
        assert BigEndian(0, 2) == [0, 0];
        assert BigEndian(0, 3) == [0, 0, 0];
        assert BigEndian(0, 4) == [0, 0, 0, 0];
      }
    }
    assert BigEndian(256, 7) == BigEndian(1, 6) + [0];
  }

  /** No unmasked frame the reader accepts carries this payload in fewer bytes than the writer uses. */
  lemma WriterIsShortest(payload: seq<Byte>, s: seq<Byte>, rest: seq<Byte>)
    requires ReadFrame(s) == Ok((payload, rest))
    ensures |Frame(payload)| <= |s| - |rest|
  {
    WordSizes();
    var short := Low7(s[1]);
    if short == 126 {
      ValueBound(s[2..][..2]);
    } else if short == 127 {
    } else {
    }
  }

  // ---------- the connection ----------

  /** The sending side: what has gone out. */
  class Conn {
    var written: seq<Byte>

    constructor ()
      ensures written == []
    {
      written := [];
    }

    /** Writes up to `room` bytes; anything less than all of them is an error. */
    method Write(data: seq<Byte>, room: nat) returns (ok: bool)
      modifies this
      ensures ok <==> |data| <= room
      ensures written == old(written) + (if ok then data else data[..room])
    {
      ok := |data| <= room;
      written := written + (if ok then data else data[..room]);
    }

    /**
     * Header and payload as two writes.  Reports success exactly when the whole
     * frame went out; a failure leaves a prefix of it.
     */
    method SendFrame(payload: seq<Byte>, headerRoom: nat, payloadRoom: nat) returns (ok: bool)
      requires |payload| < TWO_63
      modifies this
      ensures ok ==> written == old(written) + Frame(payload)
      ensures !ok ==> exists n: nat :: n < |Frame(payload)| && written == old(written) + Frame(payload)[..n]
    {
      hide Header, BigEndian;
      var n := |payload|;
      var hdr, size := FillHeader(n);
      ok := Write(hdr[..size], headerRoom);
      if !ok {
        assert Frame(payload)[..headerRoom] == Header(n)[..headerRoom];
        return false;
      }
      assert written == old(written) + Header(n);
      ok := Write(payload, payloadRoom);
      if ok {
        assert written == old(written) + (Header(n) + payload);
      } else {
        assert Frame(payload)[..size + payloadRoom] == Header(n) + payload[..payloadRoom];
        assert written == old(written) + Frame(payload)[..size + payloadRoom];
      }
    }
  }

  /** A ten-byte header buffer and how much of it is used. */
  method FillHeader(n: nat) returns (hdr: array<Byte>, size: nat)
    ensures fresh(hdr) && size <= hdr.Length && hdr[..size] == Header(n)
  {
    hdr := new Byte[10](_ => 0);
    hdr[0] := 0x81;
    size := 2;
    if n <= 125 {
      hdr[1] := n;
    } else if n <= 0xFFFF {
      hdr[1] := 126;
      PutBigEndian(hdr, 2, 2, n);
      size := 4;
      assert hdr[..4] == hdr[..2] + hdr[2..4];
    } else {
      hdr[1] := 127;
      PutBigEndian(hdr, 2, 8, n);
      size := 10;
      assert hdr[..10] == hdr[..2] + hdr[2..10];
    }
  }

  /** Stores the low k bytes of n at `at`, most significant first. */
  method PutBigEndian(buf: array<Byte>, at: nat, k: nat, n: nat)
    requires at + k <= buf.Length
    modifies buf
    ensures buf[..at] == old(buf[..at])
    ensures buf[at..at + k] == BigEndian(n, k)
    ensures buf[at + k..] == old(buf[at + k..])
  {
    var i, v := k, n;
    while i > 0
      invariant 0 <= i <= k
      invariant buf[..at] == old(buf[..at]) && buf[at + k..] == old(buf[at + k..])
      invariant BigEndian(n, k) == BigEndian(v, i) + buf[at + i..at + k]
    {
      i := i - 1;
      buf[at + i] := v % 256;
      v := v / 256;
      assert buf[at + i..at + k] == [buf[at + i]] + buf[at + i + 1..at + k];
    }
  }

  /** The receiving side: what has not been read yet. */
  class Reader {
    var data: seq<Byte>

    constructor (data: seq<Byte>)
      ensures this.data == data
    {
      this.data := data;
    }

    /** Fills a buffer of n bytes; a stream that ends early is used up. */
    method ReadFull(n: nat) returns (buf: Option<seq<Byte>>)
      modifies this
      ensures match Take(old(data), n)
              case Ok((bytes, rest)) => buf == Some(bytes) && data == rest
              case Err(_) => buf == None && data == []
    {
      if |data| < n {
        data := [];
        return None;
      }
      buf := Some(data[..n]);
      data := data[n..];
    }

    /** The length: the second byte's own, or the two or eight bytes after it. */
    method TakeLength(b: Byte) returns (n: Result<nat, ReadError>)
      modifies this
      ensures match ReadLength(b, old(data))
              case Ok((len, rest)) => n == Ok(len) && data == rest
              case Err(e) => n == Err(e)
    {
      var short := Low7(b);
      if short == 126 {
        var ext := ReadFull(2);
        if ext.None? {
          return Err(Truncated);
        }
        return Ok(Value(ext.value));
      }
      if short == 127 {
        var ext := ReadFull(8);
        if ext.None? {
          return Err(Truncated);
        }
        var len := Value(ext.value);
        if len >= TWO_63 {
          return Err(LengthOverflow);
        }
        return Ok(len);
      }
      return Ok(short);
    }

    method TakeKey(masked: bool) returns (key: Option<seq<Byte>>)
      modifies this
      ensures !masked ==> key == Some([0, 0, 0, 0]) && data == old(data)
      ensures masked ==> match Take(old(data), 4)
                         case Ok((bytes, rest)) => key == Some(bytes) && data == rest
                         case Err(_) => key == None
    {
      if !masked {
        return Some([0, 0, 0, 0]);
      }
      key := ReadFull(4);
    }

    /** Reads one frame; on success the stream stands right behind it. */
    method ReadWSFrame() returns (payload: Result<seq<Byte>, ReadError>)
      modifies this
      ensures match ReadFrame(old(data))
              case Ok((p, rest)) => payload == Ok(p) && data == rest
              case Err(e) => payload == Err(e)
    {
      hide Masked, ReadLength, Value;
      var hdr := ReadFull(2);
      if hdr.None? {
        return Err(Truncated);
      }
      var opcode := Opcode(hdr.value[0]);
      var masked := MaskBit(hdr.value[1]);
      var n := TakeLength(hdr.value[1]);
      if n.Err? {
        return Err(n.error);
      }
      var key := TakeKey(masked);
      if key.None? {
        return Err(Truncated);
      }
      var raw := ReadFull(n.value);
      if raw.None? {
        return Err(Truncated);
      }
      var bytes := raw.value;
      if masked {
        var buf := new Byte[|bytes|](i requires 0 <= i < |bytes| => bytes[i]);
        assert buf[..] == bytes;
        Unmask(buf, key.value);
        bytes := buf[..];
      }
      if opcode == 8 {
        return Err(Closed);
      }
      if opcode == 9 || opcode == 10 {
        return Ok([]);
      }
      return Ok(bytes);
    }
  }

  /** In place, byte by byte. */
  method Unmask(payload: array<Byte>, key: seq<Byte>)
    requires |key| == 4
    modifies payload
    ensures payload[..] == Masked(old(payload[..]), key)
  {
    for i := 0 to payload.Length
      invariant forall j :: 0 <= j < i ==> payload[j] == Xor(old(payload[j]), key[j % 4])
      invariant forall j :: i <= j < payload.Length ==> payload[j] == old(payload[j])
    {
      payload[i] := Xor(payload[i], key[i % 4]);
    }
  }
}
