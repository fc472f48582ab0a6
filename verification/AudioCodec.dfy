/**
 * The PCM helpers of components/ChatWindow.tsx: `decode` (base64 to
 * bytes), `encode` (bytes to base64), the 16-bit view `new Int16Array(buffer)`
 * and the de-interleaving loop of `decodeAudioData`. The browser builtins
 * `atob` and `btoa` are parameters: `atob` is `None` where it throws.
 */
module AudioCodec {
  import opened Wrappers

  /** A value held by a `Uint8Array` cell. */
  type Byte = x: int | 0 <= x < 256

  /** A value held by an `Int16Array` cell. */
  type Int16 = x: int | -32768 <= x < 32768

  /** A string whose characters all have codes below 256: what `atob` produces and `btoa` accepts. */
  predicate IsBinaryString(s: string) {
    forall i :: 0 <= i < |s| ==> (s[i] as int) < 256
  }

  /**
   * The bytes a `Uint8Array` holds after `bytes[i] = s.charCodeAt(i)` for
   * every index: each code is reduced modulo 256 when stored.
   */
  function BytesOf(s: string): (b: seq<Byte>)
    ensures |b| == |s|
  {
    seq(|s|, i requires 0 <= i < |s| => (s[i] as int) % 256)
  }

  /** The string of `String.fromCharCode(bytes[i])` over all bytes, in order. */
  function BinaryOf(bytes: seq<Byte>): (s: string)
    ensures |s| == |bytes|
  {
    seq(|bytes|, i requires 0 <= i < |bytes| => bytes[i] as char)
  }

  /** Turning bytes into a binary string and back gives the same bytes. */
  lemma BytesOfBinary(bytes: seq<Byte>)
    ensures IsBinaryString(BinaryOf(bytes))
    ensures BytesOf(BinaryOf(bytes)) == bytes
  {
    assert forall i :: 0 <= i < |bytes| ==> BytesOf(BinaryOf(bytes))[i] == bytes[i];
  }

  /** On a binary string, reading its codes and writing them back gives the same string. */
  lemma BinaryOfBytes(s: string)
    requires IsBinaryString(s)
    ensures BinaryOf(BytesOf(s)) == s
  {
    assert forall i :: 0 <= i < |s| ==> BinaryOf(BytesOf(s))[i] == s[i];
  }

  /**
   * `decode(base64)`: a fresh byte array as long as `atob(base64)`,
   * byte `i` holding the code of character `i`. When `atob` throws, so
   * does `decode` (`None`).
   */
  method Decode(base64: string, atob: string -> Option<string>) returns (r: Option<array<Byte>>)
    ensures r.None? <==> atob(base64).None?
    ensures r.Some? ==> fresh(r.value) && r.value[..] == BytesOf(atob(base64).value)
  {
    var binary := atob(base64);
    if binary.None? {
      return None;
    }
    var text := binary.value;
    var bytes := new Byte[|text|];
    var i := 0;
    while i < |text|
      invariant 0 <= i <= |text|
      invariant forall j :: 0 <= j < i ==> bytes[j] == (text[j] as int) % 256
    {
      bytes[i] := (text[i] as int) % 256;
      i := i + 1;
    }
    assert bytes[..] == BytesOf(text);
    return Some(bytes);
  }

  /**
   * `encode(bytes)`: the characters with codes `bytes[0]`, `bytes[1]`, ...
   * accumulated in order, then passed through `btoa`.
   */
  method Encode(bytes: array<Byte>, btoa: string -> string) returns (s: string)
    ensures s == btoa(BinaryOf(bytes[..]))
  {
    var binary := "";
    var i := 0;
    while i < bytes.Length
      invariant 0 <= i <= bytes.Length
      invariant binary == BinaryOf(bytes[..i])
    {
      binary := binary + [bytes[i] as char];
      i := i + 1;
    }
    assert bytes[..i] == bytes[..];
    s := btoa(binary);
  }

  /**
   * With `atob` inverting `btoa` on binary strings, what `Encode` produces
   * `Decode` turns back into the same bytes.
   */
  lemma Base64RoundTrip(bytes: seq<Byte>, atob: string -> Option<string>, btoa: string -> string)
    requires forall s :: IsBinaryString(s) ==> atob(btoa(s)) == Some(s)
    ensures atob(btoa(BinaryOf(bytes))).Some?
    ensures BytesOf(atob(btoa(BinaryOf(bytes))).value) == bytes
  {
    BytesOfBinary(bytes);
  }

  /** The signed value of the little-endian 16-bit word with bytes `lo`, `hi`. */
  function Int16At(lo: Byte, hi: Byte): (v: Int16)
    ensures v % 65536 == lo + 256 * hi
  {
    var u := lo + 256 * hi;
    if u >= 32768 then u - 65536 else u
  }

  /** The two little-endian bytes of a 16-bit sample. */
  function BytesOfSample(v: Int16): (b: seq<Byte>)
    ensures |b| == 2
  {
    var u := if v < 0 then v + 65536 else v;
    [u % 256, u / 256]
  }

  lemma SampleRoundTrip(v: Int16)
    ensures Int16At(BytesOfSample(v)[0], BytesOfSample(v)[1]) == v
  {
  }

  lemma WordRoundTrip(lo: Byte, hi: Byte)
    ensures BytesOfSample(Int16At(lo, hi)) == [lo, hi]
  {
  }

  /**
   * `new Int16Array(bytes.buffer)` on a little-endian platform: one sample
   * per pair of bytes, and a RangeError (`None`) when the byte length is odd.
   */
  function Int16View(bytes: seq<Byte>): (r: Option<seq<Int16>>)
    ensures r.None? <==> |bytes| % 2 == 1
    ensures r.Some? ==> |r.value| == |bytes| / 2
  {
    if |bytes| % 2 == 1 then None
    else Some(seq(|bytes| / 2, i requires 0 <= i < |bytes| / 2 => Int16At(bytes[2 * i], bytes[2 * i + 1])))
  }

  /** The bytes of a sequence of samples, as the `Int16Array` buffer holds them. */
  function BytesOfSamples(samples: seq<Int16>): (b: seq<Byte>)
    ensures |b| == 2 * |samples|
  {
    if |samples| == 0 then [] else BytesOfSamples(samples[..|samples| - 1]) + BytesOfSample(samples[|samples| - 1])
  }

  lemma {:induction false} BytesOfSamplesAt(samples: seq<Int16>, i: nat)
    requires i < |samples|
    ensures BytesOfSamples(samples)[2 * i] == BytesOfSample(samples[i])[0]
    ensures BytesOfSamples(samples)[2 * i + 1] == BytesOfSample(samples[i])[1]
  {
    var n := |samples| - 1;
    if i < n {
      BytesOfSamplesAt(samples[..n], i);
    }
  }

  /** Viewing the bytes of some samples as 16-bit words gives back those samples. */
  lemma ViewOfSampleBytes(samples: seq<Int16>)
    ensures Int16View(BytesOfSamples(samples)) == Some(samples)
  {
    var b := BytesOfSamples(samples);
    assert |b| % 2 == 0 && |b| / 2 == |samples|;
    var view := Int16View(b).value;
    forall i | 0 <= i < |samples|
      ensures view[i] == samples[i]
    {
      assert view[i] == Int16At(b[2 * i], b[2 * i + 1]);
      BytesOfSamplesAt(samples, i);
      SampleRoundTrip(samples[i]);
    }
    assert view == samples;
  }

  /** An even-length byte buffer is exactly the bytes of its 16-bit view. */
  lemma SampleBytesOfView(bytes: seq<Byte>)
    requires |bytes| % 2 == 0
    ensures BytesOfSamples(Int16View(bytes).value) == bytes
  {
    var samples := Int16View(bytes).value;
    var b := BytesOfSamples(samples);
    forall j | 0 <= j < |bytes|
      ensures b[j] == bytes[j]
    {
      var i := j / 2;
      assert j == 2 * i || j == 2 * i + 1;
      assert samples[i] == Int16At(bytes[2 * i], bytes[2 * i + 1]);
      BytesOfSamplesAt(samples, i);
      WordRoundTrip(bytes[2 * i], bytes[2 * i + 1]);
    }
  }

  /**
   * The interleaved index of frame `i` of channel `c` stays inside the
   * sample buffer for every frame below `frameCount = length / channels`.
   */
  lemma {:induction false} FrameIndexInBounds(length: nat, channels: nat, i: nat, c: nat)
    requires channels > 0 && c < channels && i < length / channels
    ensures i * channels + c < length
  {
    assert i + 1 <= length / channels;
    assert (i + 1) * channels <= (length / channels) * channels <= length;
  }

  lemma {:induction false} MulMonotone(a: nat, b: nat, n: nat)
    requires a <= b
    ensures a * n <= b * n
  {
    if a < b {
      MulMonotone(a, b - 1, n);
      assert b * n == (b - 1) * n + n;
    }
  }

  /** Two different (frame, channel) pairs never read the same sample. */
  lemma FrameIndexInjective(channels: nat, i: nat, c: nat, i': nat, c': nat)
    requires c < channels && c' < channels
    requires i * channels + c == i' * channels + c'
    ensures i == i' && c == c'
  {
    if i < i' {
      assert (i + 1) * channels == i * channels + channels;
      MulMonotone(i + 1, i', channels);
    } else if i' < i {
      assert (i' + 1) * channels == i' * channels + channels;
      MulMonotone(i' + 1, i, channels);
    }
  }

  /** Sample `i * channels + c` of an interleaved buffer: frame `i` of channel `c`. */
  function FrameSample(samples: seq<Int16>, channels: nat, c: nat, i: nat): Int16
    requires channels > 0 && c < channels && i < |samples| / channels
  {
    FrameIndexInBounds(|samples|, channels, i, c);
    samples[i * channels + c]
  }

  /**
   * `decodeAudioData(bytes, ctx, rate, channels)`, keeping each sample as
   * its 16-bit value: a fresh `channels` by `frameCount` buffer whose
   * channel `c`, frame `i` is sample `i * channels + c`. It throws
   * (`None`) when the byte length is odd, and when `createBuffer` refuses
   * no channels or a length that truncates to zero.
   */
  method DecodeAudioData(bytes: array<Byte>, channels: nat) returns (r: Option<array2<Int16>>)
    ensures r.None? <==> bytes.Length % 2 == 1 || channels == 0 || (bytes.Length / 2) / channels == 0
    ensures r.Some? ==>
              var samples := Int16View(bytes[..]).value;
              && fresh(r.value)
              && r.value.Length0 == channels
              && r.value.Length1 == |samples| / channels
              && forall c, i :: 0 <= c < channels && 0 <= i < |samples| / channels ==>
                   r.value[c, i] == FrameSample(samples, channels, c, i)
  {
    var view := Int16View(bytes[..]);
    if view.None? || channels == 0 {
      return None;
    }
    var samples := view.value;
    var frameCount := |samples| / channels;
    if frameCount == 0 {
      return None;
    }
    var buffer := new Int16[channels, frameCount];
    var c := 0;
    while c < channels
      invariant 0 <= c <= channels
      invariant forall c', i :: 0 <= c' < c && 0 <= i < frameCount ==> buffer[c', i] == FrameSample(samples, channels, c', i)
    {
      var i := 0;
      while i < frameCount
        invariant 0 <= i <= frameCount
        invariant forall c', i' :: 0 <= c' < c && 0 <= i' < frameCount ==> buffer[c', i'] == FrameSample(samples, channels, c', i')
        invariant forall i' :: 0 <= i' < i ==> buffer[c, i'] == FrameSample(samples, channels, c, i')
      {
        buffer[c, i] := FrameSample(samples, channels, c, i);
        i := i + 1;
      }
      c := c + 1;
    }
    return Some(buffer);
  }

  /** The sample rate every clip is decoded at (`decodeAudioData(..., 24000, 1)`), in frames per second. */
  const SampleRate: nat := 24000

  /**
   * How long the clip with base64 payload `data` plays: its 16-bit mono
   * frames at 24 kHz. `None` where decoding throws: `atob` fails, the byte
   * length is odd, or there is not a single frame for `createBuffer`.
   */
  function ClipDuration(data: string, atob: string -> Option<string>): (d: Option<real>)
    ensures atob(data).None? ==> d.None?
    ensures atob(data).Some? ==>
              var n := |BytesOf(atob(data).value)|;
              && (d.None? <==> n % 2 == 1 || n < 2)
              && (d.Some? ==> d.value == (n / 2) as real / SampleRate as real)
    ensures d.Some? ==> d.value > 0.0
  {
    match atob(data)
    case None => None
    case Some(binary) =>
      var view := Int16View(BytesOf(binary));
      if view.None? || |view.value| == 0 then None
      else Some(|view.value| as real / SampleRate as real)
  }
}
