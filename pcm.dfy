/** Framing of captured microphone audio for the live session: every sample is
    scaled to the 16-bit range, stored through an Int16Array (so converted by
    ToInt16, section 7.1.8 of ECMA-262) and sent as the little-endian bytes of
    that array, text-encoded, with a fixed MIME type. */
module Pcm {
  import opened Common

  /** The values an Int16Array element can hold. */
  type Int16 = x: int | -32768 <= x < 32768

  const Scale: real := 32768.0
  const MimeType: string := "audio/pcm;rate=16000"

  /** The envelope of one captured frame as sent to the live session. */
  datatype Blob = Blob(data: string, mimeType: string)

  /** Rounding toward zero, as ECMA-262's truncate does. */
  function Truncate(x: real): (n: int)
    ensures 0.0 <= x ==> 0 <= n && n as real <= x < n as real + 1.0
    ensures x < 0.0 ==> n <= 0 && n as real - 1.0 < x <= n as real
  {
    if x >= 0.0 then x.Floor else -((-x).Floor)
  }

  /** ECMA-262 ToInt16 of a finite number: the one 16-bit signed value that is
      congruent, modulo 2^16, to the number truncated toward zero. */
  function ToInt16(x: real): (r: Int16)
    ensures (r - Truncate(x)) % 65536 == 0
  {
    var m := Truncate(x) % 65536;
    if m >= 32768 then m - 65536 else m
  }

  /** The value an Int16Array stores for one captured sample (`data[i] * 32768`). */
  function SampleValue(x: real): Int16
  {
    ToInt16(x * Scale)
  }

  /** The Int16Array that createBlob fills from the captured samples. */
  function Quantise(samples: seq<real>): seq<Int16>
  {
    seq(|samples|, i requires 0 <= i < |samples| => SampleValue(samples[i]))
  }

  /** The two little-endian bytes of one stored value. */
  function Int16Bytes(v: Int16): seq<Byte>
  {
    var u := v % 65536;
    [u % 256, u / 256]
  }

  /** The Uint8Array view of an Int16Array's buffer, on a little-endian platform:
      two bytes per element, low byte first. */
  function ByteView(vs: seq<Int16>): (r: seq<Byte>)
    ensures |r| == 2 * |vs|
  {
    if vs == [] then [] else Int16Bytes(vs[0]) + ByteView(vs[1..])
  }

  /** Reading element i of an Int16Array over a little-endian byte buffer. */
  function Int16At(bytes: seq<Byte>, i: nat): Int16
    requires 2 * i + 1 < |bytes|
  {
    var lo: int, hi: int := bytes[2 * i], bytes[2 * i + 1];
    var u := lo + 256 * hi;
    if u >= 32768 then u - 65536 else u
  }

  /** Every stored value reads back unchanged from the byte view: the framing
      loses nothing and keeps sample order. */
  lemma {:induction false} ByteViewReadsBack(vs: seq<Int16>, i: nat)
    requires i < |vs|
    ensures Int16At(ByteView(vs), i) == vs[i]
  {
    var b := ByteView(vs);
    assert b == Int16Bytes(vs[0]) + ByteView(vs[1..]);
    if i == 0 {
      assert b[0] == Int16Bytes(vs[0])[0] && b[1] == Int16Bytes(vs[0])[1];
    } else {
      ByteViewReadsBack(vs[1..], i - 1);
      assert b[2 * i] == ByteView(vs[1..])[2 * (i - 1)];
      assert b[2 * i + 1] == ByteView(vs[1..])[2 * (i - 1) + 1];
    }
  }

  /** Integers already in the 16-bit range are stored unchanged. */
  lemma ToInt16OfInt16(n: Int16)
    ensures ToInt16(n as real) == n
  {
    assert Truncate(n as real) == n;
  }

  /** A sample in [-1, 1) is stored as its scaled value truncated toward zero,
      which is within one quantisation step (1/32768) of the sample. */
  lemma SampleWithinOneStep(x: real)
    requires -1.0 <= x < 1.0
    ensures SampleValue(x) == Truncate(x * Scale)
    ensures -1.0 / Scale < x - SampleValue(x) as real / Scale < 1.0 / Scale
  {
    var t := Truncate(x * Scale);
    assert -32768 <= t < 32768;
    assert t % 65536 == (if t >= 0 then t else t + 65536);
  }

  /** A full-scale positive sample, 1.0, scales to 32768, which does not fit and
      wraps to the most negative value. */
  lemma FullScaleSampleWraps()
    ensures SampleValue(1.0) == -32768
  {
    assert Truncate(1.0 * Scale) == 32768;
  }

  /** createBlob: one 16-bit value (two bytes) per captured sample, value i being
      sample i scaled and converted by ToInt16, encoded as text, with the fixed
      MIME type. */
  method CreateBlob(data: array<real>, encode: seq<Byte> -> string) returns (blob: Blob)
    ensures blob.mimeType == MimeType
    ensures blob.data == encode(ByteView(Quantise(data[..])))
  {
    var l := data.Length;
    var int16 := new Int16[l];
    for i := 0 to l
      invariant forall k :: 0 <= k < i ==> int16[k] == SampleValue(data[k])
    {
      int16[i] := SampleValue(data[i]);
    }
    assert int16[..] == Quantise(data[..]);
    blob := Blob(encode(ByteView(int16[..])), MimeType);
  }
}
