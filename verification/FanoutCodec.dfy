/** The frame a hub exchanges with its peers (internal/adapter/outbound/hub/redis/hub.go, `encode` and `decode`). */
module FanoutCodec {
  import opened Basics

  type Byte = x: int | 0 <= x < 256
  type Bytes = seq<Byte>

  datatype Frame = Frame(instance: Bytes, source: Bytes, payload: Bytes)

  /** The bound `encode` puts on both identifiers. */
  const MAX_ID_LENGTH := 0x1_0000

  const LENGTH_LIMIT := 0x1_0000_0000

  /** A 32-bit length, most significant byte first. */
  function PutLength(n: nat): (b: Bytes)
    requires n < LENGTH_LIMIT
    ensures |b| == 4
  {
    [n / 0x100_0000, n / 0x1_0000 % 256, n / 0x100 % 256, n % 256]
  }

  function GetLength(b: Bytes): (n: nat)
    requires |b| == 4
    ensures n < LENGTH_LIMIT
  {
    var b0: int, b1: int, b2: int, b3: int := b[0], b[1], b[2], b[3];
    b0 * 0x100_0000 + b1 * 0x1_0000 + b2 * 0x100 + b3
  }

  function Capped(id: Bytes): (capped: Bytes)
    ensures |capped| <= MAX_ID_LENGTH
  {
    if |id| > MAX_ID_LENGTH then id[..MAX_ID_LENGTH] else id
  }

  function Encode(instance: Bytes, source: Bytes, payload: Bytes): Bytes {
    var i, s := Capped(instance), Capped(source);
    PutLength(|i|) + i + PutLength(|s|) + s + payload
  }

  function Decode(frame: Bytes): Option<Frame> {
    if |frame| < 4 then None
    else
      var instanceLength := GetLength(frame[..4]);
      if |frame| < 4 + instanceLength + 4 then None
      else
        var rest := frame[4 + instanceLength..];
        var sourceLength := GetLength(rest[..4]);
        if |rest| < 4 + sourceLength then None
        else Some(Frame(frame[4..4 + instanceLength], rest[4..4 + sourceLength], rest[4 + sourceLength..]))
  }

  /** Most significant byte first: one more digit in base 256 shifts the bytes to the left. */
  lemma LengthDigits(n: nat, digit: Byte)
    requires n < 0x100_0000
    ensures PutLength(0) == [0, 0, 0, 0]
    ensures PutLength(n * 0x100 + digit) == PutLength(n)[1..] + [digit]
  {
    var m := n * 0x100 + digit;
    assert m / 0x100 == n && m % 0x100 == digit;
    assert m / 0x1_0000 == n / 0x100 && m / 0x100_0000 == n / 0x1_0000;
    assert n / 0x1_0000 < 0x100;
  }

  lemma LengthRoundTrip(n: nat)
    requires n < LENGTH_LIMIT
    ensures GetLength(PutLength(n)) == n
  {
    assert n == n / 0x100 * 0x100 + n % 0x100;
    assert n / 0x100 == n / 0x1_0000 * 0x100 + n / 0x100 % 0x100;
    assert n / 0x1_0000 == n / 0x100_0000 * 0x100 + n / 0x1_0000 % 0x100;
  }

  lemma LengthBytesRoundTrip(b: Bytes)
    requires |b| == 4
    ensures PutLength(GetLength(b)) == b
  {
    var n := GetLength(b);
    var b0: int, b1: int, b2: int := b[0], b[1], b[2];
    assert n / 0x100 == b0 * 0x1_0000 + b1 * 0x100 + b2;
    assert n / 0x1_0000 == b0 * 0x100 + b1;
    assert n / 0x100_0000 == b[0];
  }

  /** The layout, with identifiers of any representable length. */
  function Layout(f: Frame): Bytes
    requires |f.instance| < LENGTH_LIMIT && |f.source| < LENGTH_LIMIT
  {
    PutLength(|f.instance|) + (f.instance + (PutLength(|f.source|) + (f.source + f.payload)))
  }

  lemma DecodeLayout(f: Frame)
    requires |f.instance| < LENGTH_LIMIT && |f.source| < LENGTH_LIMIT
    ensures Decode(Layout(f)) == Some(f)
  {
    var frame := Layout(f);
    LengthRoundTrip(|f.instance|);
    LengthRoundTrip(|f.source|);
    var tail := PutLength(|f.source|) + (f.source + f.payload);
    assert frame[..4] == PutLength(|f.instance|);
    assert frame[4..] == f.instance + tail;
    assert frame[4..4 + |f.instance|] == frame[4..][..|f.instance|] == f.instance;
    assert frame[4 + |f.instance|..] == frame[4..][|f.instance|..] == tail;
    assert tail[..4] == PutLength(|f.source|);
    assert tail[4..] == f.source + f.payload;
    assert tail[4..4 + |f.source|] == tail[4..][..|f.source|] == f.source;
    assert tail[4 + |f.source|..] == tail[4..][|f.source|..] == f.payload;
  }

  lemma SplitTwice(b: Bytes, n: nat)
    requires 4 + n <= |b|
    ensures b == b[..4] + (b[4..4 + n] + b[4 + n..])
  {
    assert b[4..] == b[4..4 + n] + b[4 + n..];
  }

  lemma LayoutOfDecoded(frame: Bytes)
    requires Decode(frame).Some?
    ensures var f := Decode(frame).value;
            |f.instance| < LENGTH_LIMIT && |f.source| < LENGTH_LIMIT && Layout(f) == frame
  {
    var i := GetLength(frame[..4]);
    var rest := frame[4 + i..];
    var j := GetLength(rest[..4]);
    LengthBytesRoundTrip(frame[..4]);
    LengthBytesRoundTrip(rest[..4]);
    SplitTwice(frame, i);
    SplitTwice(rest, j);
  }

  /** Which byte strings are frames, and of what: `Decode` accepts exactly the layouts, each as the one frame it lays out. */
  lemma DecodesExactlyTheLayouts(frame: Bytes, f: Frame)
    ensures Decode(frame) == Some(f) <==>
              |f.instance| < LENGTH_LIMIT && |f.source| < LENGTH_LIMIT && Layout(f) == frame
  {
    if Decode(frame) == Some(f) {
      LayoutOfDecoded(frame);
    }
    if |f.instance| < LENGTH_LIMIT && |f.source| < LENGTH_LIMIT && Layout(f) == frame {
      DecodeLayout(f);
    }
  }

  lemma EncodeIsLayout(instance: Bytes, source: Bytes, payload: Bytes)
    ensures Encode(instance, source, payload) == Layout(Frame(Capped(instance), Capped(source), payload))
  {}

  /** What is sent is what is received, up to the cap on identifiers; no identifier can pass for another. */
  lemma RoundTrip(instance: Bytes, source: Bytes, payload: Bytes)
    ensures Decode(Encode(instance, source, payload)) ==
              Some(Frame(if |instance| > 65536 then instance[..65536] else instance,
                         if |source| > 65536 then source[..65536] else source,
                         payload))
  {
    EncodeIsLayout(instance, source, payload);
    DecodeLayout(Frame(Capped(instance), Capped(source), payload));
  }

  /** An accepted frame encodes back to itself exactly when both its identifiers are within the cap. */
  lemma ReencodeIdentity(frame: Bytes)
    requires Decode(frame).Some?
    ensures var f := Decode(frame).value;
            Encode(f.instance, f.source, f.payload) == frame <==> |f.instance| <= MAX_ID_LENGTH && |f.source| <= MAX_ID_LENGTH
  {
    var f := Decode(frame).value;
    LayoutOfDecoded(frame);
    EncodeIsLayout(f.instance, f.source, f.payload);
    RoundTrip(f.instance, f.source, f.payload);
  }
}
