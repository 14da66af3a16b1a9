/** `audioBufferToWav` and `writeString` (createSampleAudio.ts:70-131): a
    Web Audio buffer written out as a 16-bit PCM WAV file, as a 44-byte
    RIFF header followed by the interleaved samples, two bytes each, low
    byte first. */
module Wav {

  newtype byte = x: int | 0 <= x < 0x100
  newtype int16 = x: int | -0x8000 <= x < 0x8000

  /** An `AudioBuffer`: its sample rate, its length in sample frames and one
      sequence of samples per channel. */
  datatype AudioBuffer = AudioBuffer(sampleRate: nat, length: nat, channels: seq<seq<real>>)

  /** Every channel holds `length` samples, as Web Audio guarantees. */
  predicate WellFormed(b: AudioBuffer)
  {
    forall c :: 0 <= c < |b.channels| ==> |b.channels[c]| == b.length
  }

  // ---- little-endian fields ----

  /** The number a byte sequence spells, least significant byte first. */
  function Unsigned(b: seq<byte>): (n: nat)
    ensures |b| == 1 ==> n < 0x100
    ensures |b| == 2 ==> n < 0x1_0000
    ensures |b| == 3 ==> n < 0x100_0000
    ensures |b| == 4 ==> n < 0x1_0000_0000
  {
    if b == [] then 0 else b[0] as nat + 0x100 * Unsigned(b[1..])
  }

  /** `DataView.setUint16(_, v, true)`: `v` modulo 2^16, low byte first. */
  function Le16(v: int): (b: seq<byte>)
    ensures |b| == 2
  {
    var w := v % 0x1_0000;
    [(w % 0x100) as byte, (w / 0x100) as byte]
  }

  /** `DataView.setUint32(_, v, true)`: `v` modulo 2^32, low byte first. */
  function Le32(v: int): (b: seq<byte>)
    ensures |b| == 4
  {
    var w := v % 0x1_0000_0000;
    [(w % 0x100) as byte, (w / 0x100 % 0x100) as byte, (w / 0x1_0000 % 0x100) as byte, (w / 0x100_0000) as byte]
  }

  /** A 16-bit field reads back as the value written, modulo 2^16. */
  lemma {:induction false} Le16Decodes(v: int)
    ensures Unsigned(Le16(v)) == v % 0x1_0000
  {
    var b := Le16(v);
    assert Unsigned(b[1..][1..]) == 0;
  }

  /** A 32-bit field reads back as the value written, modulo 2^32. */
  lemma {:induction false} Le32Decodes(v: int)
    ensures Unsigned(Le32(v)) == v % 0x1_0000_0000
  {
    var b := Le32(v);
    var w := v % 0x1_0000_0000;
    assert b[1..][1..][1..][1..] == [];
    assert Unsigned(b[1..][1..][1..]) == w / 0x100_0000;
    assert Unsigned(b[1..][1..]) == w / 0x1_0000 % 0x100 + 0x100 * (w / 0x100_0000);
    assert w / 0x1_0000 == w / 0x1_0000 % 0x100 + 0x100 * (w / 0x100_0000);
    assert w / 0x100 == w / 0x100 % 0x100 + 0x100 * (w / 0x1_0000);
  }

  /** Two bytes read as a two's-complement 16-bit sample. */
  function Signed16(b: seq<byte>): (v: int)
    requires |b| == 2
    ensures -0x8000 <= v < 0x8000
    ensures v < 0 <==> b[1] >= 0x80
  {
    assert b[1..][1..] == [] && b[1..][0] == b[1];
    assert Unsigned(b[1..]) == b[1] as int;
    var u := Unsigned(b);
    assert u == b[0] as int + 0x100 * b[1] as int;
    if u < 0x8000 then u else u - 0x1_0000
  }

  /** A 16-bit sample reads back as itself. */
  lemma {:induction false} Int16RoundTrip(v: int16)
    ensures Signed16(Le16(v as int)) == v as int
  {
    Le16Decodes(v as int);
  }

  /** `writeString`'s bytes: each character's code through `setUint8`,
      which keeps its low eight bits.  One byte per Dafny character: a
      character outside the Basic Multilingual Plane, two UTF-16 code units
      for `charCodeAt`, is not split here. */
  function Ascii(s: string): (b: seq<byte>)
    ensures |b| == |s|
    ensures forall i :: 0 <= i < |s| && (s[i] as int) < 0x100 ==> b[i] as int == s[i] as int
  {
    seq(|s|, i requires 0 <= i < |s| => ((s[i] as int) % 0x100) as byte)
  }

  /** `a` with `b` written over it from position `offset`. */
  function Put(a: seq<byte>, offset: nat, b: seq<byte>): (r: seq<byte>)
    requires offset + |b| <= |a|
    ensures |r| == |a|
    ensures forall j :: 0 <= j < |a| ==> r[j] == if offset <= j < offset + |b| then b[j - offset] else a[j]
  {
    a[..offset] + b + a[offset + |b|..]
  }

  // ---- the header ----

  /** The RIFF chunk descriptor: the tag, the size of the rest of the file
      (36 header bytes after this field, plus the samples) and the format. */
  function RiffChunk(length: nat): (r: seq<byte>)
    ensures |r| == 12
  {
    Ascii("RIFF") + Le32(36 + length) + Ascii("WAVE")
  }

  /** The `fmt ` sub-chunk: 16 bytes of PCM format (1), the channel count,
      the sample rate, the byte rate, the block alignment and 16 bits per
      sample. */
  function FmtChunk(numOfChannels: nat, sampleRate: nat): (r: seq<byte>)
    ensures |r| == 24
  {
    Ascii("fmt ") + Le32(16) + Le16(1) + Le16(numOfChannels) + Le32(sampleRate)
    + Le32(sampleRate * numOfChannels * 2) + Le16(numOfChannels * 2) + Le16(16)
  }

  /** The `data` sub-chunk's header: the tag and the size of the samples. */
  function DataHeader(length: nat): (r: seq<byte>)
    ensures |r| == 8
  {
    Ascii("data") + Le32(length)
  }

  /** The 44-byte header for `numOfChannels` channels, `length` bytes of
      samples and `sampleRate` frames per second. */
  function Header(numOfChannels: nat, length: nat, sampleRate: nat): (h: seq<byte>)
    ensures |h| == 44
  {
    RiffChunk(length) + FmtChunk(numOfChannels, sampleRate) + DataHeader(length)
  }

  /** The RIFF descriptor's fields: "RIFF", the size modulo 2^32, "WAVE". */
  lemma {:induction false} RiffFields(length: nat)
    ensures var r := RiffChunk(length);
      && r[0..4] == [0x52, 0x49, 0x46, 0x46]
      && Unsigned(r[4..8]) == (36 + length) % 0x1_0000_0000
      && r[8..12] == [0x57, 0x41, 0x56, 0x45]
  {
    var r := RiffChunk(length);
    assert r[4..8] == Le32(36 + length);
    Le32Decodes(36 + length);
  }

  /** The spelling of the `fmt ` tag. */
  lemma {:induction false} FmtTag()
    ensures Ascii("fmt ") == [0x66, 0x6d, 0x74, 0x20]
  {
  }

  /** Where each of the `fmt ` sub-chunk's pieces lies. */
  lemma {:induction false} FmtSlices(numOfChannels: nat, sampleRate: nat)
    ensures var r := FmtChunk(numOfChannels, sampleRate);
      && r[0..4] == Ascii("fmt ")
      && r[4..8] == Le32(16)
      && r[8..10] == Le16(1)
      && r[10..12] == Le16(numOfChannels)
      && r[12..16] == Le32(sampleRate)
      && r[16..20] == Le32(sampleRate * numOfChannels * 2)
      && r[20..22] == Le16(numOfChannels * 2)
      && r[22..24] == Le16(16)
  {
  }

  /** The `fmt ` sub-chunk's fields, each modulo the width of its field. */
  lemma {:induction false} FmtFields(numOfChannels: nat, sampleRate: nat)
    ensures var r := FmtChunk(numOfChannels, sampleRate);
      && r[0..4] == [0x66, 0x6d, 0x74, 0x20]
      && Unsigned(r[4..8]) == 16
      && Unsigned(r[8..10]) == 1
      && Unsigned(r[10..12]) == numOfChannels % 0x1_0000
      && Unsigned(r[12..16]) == sampleRate % 0x1_0000_0000
      && Unsigned(r[16..20]) == sampleRate * numOfChannels * 2 % 0x1_0000_0000
      && Unsigned(r[20..22]) == numOfChannels * 2 % 0x1_0000
      && Unsigned(r[22..24]) == 16
  {
    FmtSlices(numOfChannels, sampleRate);
    FmtTag();
    Le32Decodes(16);
    Le16Decodes(1);
    Le16Decodes(numOfChannels);
    Le32Decodes(sampleRate);
    Le32Decodes(sampleRate * numOfChannels * 2);
    Le16Decodes(numOfChannels * 2);
    Le16Decodes(16);
  }

  /** The `data` header's fields: "data" and the size modulo 2^32. */
  lemma {:induction false} DataFields(length: nat)
    ensures var r := DataHeader(length);
      && r[0..4] == [0x64, 0x61, 0x74, 0x61]
      && Unsigned(r[4..8]) == length % 0x1_0000_0000
  {
    var r := DataHeader(length);
    assert r[4..8] == Le32(length);
    Le32Decodes(length);
  }

  /** The header's fields at the offsets the RIFF WAVE format fixes. */
  lemma {:induction false} HeaderFields(numOfChannels: nat, length: nat, sampleRate: nat)
    ensures var h := Header(numOfChannels, length, sampleRate);
      && h[0..4] == [0x52, 0x49, 0x46, 0x46]
      && Unsigned(h[4..8]) == (36 + length) % 0x1_0000_0000
      && h[8..12] == [0x57, 0x41, 0x56, 0x45]
      && h[12..16] == [0x66, 0x6d, 0x74, 0x20]
      && Unsigned(h[16..20]) == 16
      && Unsigned(h[20..22]) == 1
      && Unsigned(h[22..24]) == numOfChannels % 0x1_0000
      && Unsigned(h[24..28]) == sampleRate % 0x1_0000_0000
      && Unsigned(h[28..32]) == sampleRate * numOfChannels * 2 % 0x1_0000_0000
      && Unsigned(h[32..34]) == numOfChannels * 2 % 0x1_0000
      && Unsigned(h[34..36]) == 16
      && h[36..40] == [0x64, 0x61, 0x74, 0x61]
      && Unsigned(h[40..44]) == length % 0x1_0000_0000
  {
    var h := Header(numOfChannels, length, sampleRate);
    var r, f, d := RiffChunk(length), FmtChunk(numOfChannels, sampleRate), DataHeader(length);
    RiffFields(length);
    FmtFields(numOfChannels, sampleRate);
    DataFields(length);
    assert h[..12] == r;
    assert h[12..36] == f;
    assert h[36..] == d;
    assert h[0..4] == r[0..4] && h[4..8] == r[4..8] && h[8..12] == r[8..12];
    assert h[12..16] == f[0..4] && h[16..20] == f[4..8] && h[20..22] == f[8..10] && h[22..24] == f[10..12];
    assert h[24..28] == f[12..16] && h[28..32] == f[16..20] && h[32..34] == f[20..22] && h[34..36] == f[22..24];
    assert h[36..40] == d[0..4] && h[40..44] == d[4..8];
  }

  // ---- the samples ----

  /** `Math.max(-1, Math.min(1, x))`. */
  function Clip(x: real): (s: real)
    ensures -1.0 <= s <= 1.0
    ensures -1.0 <= x <= 1.0 ==> s == x
  {
    var m := if x < 1.0 then x else 1.0;
    if m > -1.0 then m else -1.0
  }

  /** A real truncated toward zero, as storing into an integer typed array
      does. */
  function Trunc(x: real): (t: int)
    ensures x >= 0.0 ==> t as real <= x < t as real + 1.0
    ensures x < 0.0 ==> t as real - 1.0 < x <= t as real
  {
    if x >= 0.0 then x.Floor else -((-x).Floor)
  }

  /** Storing a number into an `Int16Array`: truncated toward zero, then
      wrapped into [-2^15, 2^15). */
  function ToInt16(x: real): (v: int16)
    ensures (v as int - Trunc(x)) % 0x1_0000 == 0
    ensures -0x8000 <= Trunc(x) < 0x8000 ==> v as int == Trunc(x)
  {
    var t := Trunc(x) % 0x1_0000;
    (if t < 0x8000 then t else t - 0x1_0000) as int16
  }

  /** The sample's 16-bit value: clipped to [-1, 1], scaled by 0x8000 below
      zero and by 0x7FFF from zero up, and truncated toward zero. */
  function Pcm16(x: real): (v: int16)
    ensures x < 0.0 ==> v <= 0
    ensures x >= 0.0 ==> v >= 0
  {
    var s := Clip(x);
    var t := if s < 0.0 then Trunc(s * 32768.0) else Trunc(s * 32767.0);
    t as int16
  }

  /** The clip keeps the typed-array store from wrapping: it stores exactly
      the sample's 16-bit value. */
  lemma {:induction false} StoreIsPcm(x: real)
    ensures var s := Clip(x); ToInt16(if s < 0.0 then s * 0x8000 as real else s * 0x7FFF as real) == Pcm16(x)
  {
    var s := Clip(x);
    if s < 0.0 {
      var t := Trunc(s * 32768.0);
      assert -0x8000 <= t <= 0;
      assert t % 0x1_0000 == (if t == 0 then 0 else t + 0x1_0000);
    } else {
      var t := Trunc(s * 32767.0);
      assert 0 <= t <= 0x7FFF;
    }
  }

  /** Full scale saturates: 1 and above give 32767, -1 and below -32768,
      and silence gives 0. */
  lemma {:induction false} Pcm16Saturates(x: real)
    ensures x >= 1.0 ==> Pcm16(x) == 0x7FFF
    ensures x <= -1.0 ==> Pcm16(x) == -0x8000
    ensures x == 0.0 ==> Pcm16(x) == 0
  {
  }

  /** Louder samples never give smaller values, and the sign is kept. */
  lemma {:induction false} Pcm16Monotone(x: real, y: real)
    requires x <= y
    ensures Pcm16(x) <= Pcm16(y)
    ensures (x < 0.0 ==> Pcm16(x) <= 0) && (x >= 0.0 ==> Pcm16(x) >= 0)
  {
    var s, t := Clip(x), Clip(y);
    assert s <= t;
    if s < 0.0 && t < 0.0 {
      assert s * 32768.0 <= t * 32768.0;
    } else if s >= 0.0 && t >= 0.0 {
      assert s * 32767.0 <= t * 32767.0;
    }
  }

  /** The samples of frames 0 to `m` - 1, each frame's channels in order. */
  function Frames(b: AudioBuffer, m: nat): (a: seq<real>)
    requires WellFormed(b) && m <= b.length
    ensures |a| == m * |b.channels|
  {
    if m == 0 then []
    else Frames(b, m - 1) + seq(|b.channels|, c requires 0 <= c < |b.channels| => b.channels[c][m - 1])
  }

  /** The samples of all channels, frame by frame. */
  function Interleaved(b: AudioBuffer): (a: seq<real>)
    requires WellFormed(b)
    ensures |a| == b.length * |b.channels|
  {
    Frames(b, b.length)
  }

  lemma {:induction false} MulMono(x: nat, y: nat, n: nat)
    requires x <= y
    ensures x * n <= y * n
    decreases y - x
  {
    if x < y {
      MulMono(x, y - 1, n);
    }
  }

  /** Frame `i`, channel `c` of `m` frames of `n` channels lies below
      `m * n`. */
  lemma {:induction false} Position(i: nat, c: nat, n: nat, m: nat)
    requires c < n && i < m
    ensures i * n + c < m * n
  {
    MulMono(i + 1, m, n);
  }

  /** No two (frame, channel) pairs share a position. */
  lemma {:induction false} PositionUnique(i: nat, c: nat, i': nat, c': nat, n: nat)
    requires c < n && c' < n && i * n + c == i' * n + c'
    ensures i == i' && c == c'
  {
    if i' < i {
      MulMono(i' + 1, i, n);
    } else if i < i' {
      MulMono(i + 1, i', n);
    }
  }

  /** Every position below `m * n` is some frame's channel. */
  lemma {:induction false} PositionOf(j: nat, m: nat, n: nat) returns (i: nat, c: nat)
    requires j < m * n
    ensures i < m && c < n && j == i * n + c
    decreases m
  {
    if j < (m - 1) * n {
      i, c := PositionOf(j, m - 1, n);
    } else {
      i, c := m - 1, j - (m - 1) * n;
    }
  }

  /** Channel `c` of frame `i` is at `i * numOfChannels + c` in the
      interleaved samples. */
  lemma {:induction false} FramesAt(b: AudioBuffer, m: nat, i: nat, c: nat)
    requires WellFormed(b) && m <= b.length && i < m && c < |b.channels|
    ensures i * |b.channels| + c < |Frames(b, m)| && Frames(b, m)[i * |b.channels| + c] == b.channels[c][i]
    decreases m
  {
    var n := |b.channels|;
    Position(i, c, n, m);
    if i < m - 1 {
      FramesAt(b, m - 1, i, c);
      Position(i, c, n, m - 1);
    }
  }

  /** The 16-bit values of the samples. */
  function Pcm(a: seq<real>): (v: seq<int16>)
    ensures |v| == |a|
  {
    seq(|a|, i requires 0 <= i < |a| => Pcm16(a[i]))
  }

  /** The bytes of the samples: two per sample, low byte first. */
  function Samples(xs: seq<int16>): (b: seq<byte>)
    ensures |b| == 2 * |xs|
  {
    if xs == [] then [] else Samples(xs[..|xs| - 1]) + Le16(xs[|xs| - 1] as int)
  }

  /** Sample `i` occupies bytes `2i` and `2i + 1`. */
  lemma {:induction false} SampleBytes(xs: seq<int16>, i: nat)
    requires i < |xs|
    ensures Samples(xs)[2 * i..2 * i + 2] == Le16(xs[i] as int)
    decreases |xs|
  {
    var init := xs[..|xs| - 1];
    if i < |xs| - 1 {
      SampleBytes(init, i);
      assert init[i] == xs[i];
      assert Samples(xs)[2 * i..2 * i + 2] == Samples(init)[2 * i..2 * i + 2];
    }
  }

  /** The whole file. */
  function Wav(b: AudioBuffer): seq<byte>
    requires WellFormed(b)
  {
    var numOfChannels := |b.channels|;
    Header(numOfChannels, b.length * numOfChannels * 2, b.sampleRate) + Samples(Pcm(Interleaved(b)))
  }

  /** The file is the 44-byte header and two bytes per sample; its RIFF size
      is the file's size less 8 and its data size the sample bytes, modulo
      2^32. */
  lemma {:induction false} WavSizes(b: AudioBuffer)
    requires WellFormed(b)
    ensures var w := Wav(b);
      && |w| == 44 + b.length * |b.channels| * 2
      && w[..44] == Header(|b.channels|, b.length * |b.channels| * 2, b.sampleRate)
      && Unsigned(w[4..8]) == (|w| - 8) % 0x1_0000_0000
      && Unsigned(w[40..44]) == (|w| - 44) % 0x1_0000_0000
  {
    var n := |b.channels|;
    var h := Header(n, b.length * n * 2, b.sampleRate);
    HeaderFields(n, b.length * n * 2, b.sampleRate);
    var xs := Pcm(Interleaved(b));
    var w := Wav(b);
    assert w == h + Samples(xs);
    assert |Samples(xs)| == 2 * (b.length * n);
    assert |w| == 44 + b.length * n * 2;
    assert w[..44] == h;
    assert w[4..8] == h[4..8] && w[40..44] == h[40..44];
  }

  /** Channel `c` of frame `i` reads back, from the two bytes at
      44 + 2(i * numOfChannels + c), as that sample's 16-bit value. */
  lemma {:induction false} WavSample(b: AudioBuffer, i: nat, c: nat)
    requires WellFormed(b) && i < b.length && c < |b.channels|
    ensures var at := 44 + 2 * (i * |b.channels| + c);
      at + 2 <= |Wav(b)| && Signed16(Wav(b)[at..at + 2]) == Pcm16(b.channels[c][i]) as int
  {
    var n := |b.channels|;
    var xs := Pcm(Interleaved(b));
    FramesAt(b, b.length, i, c);
    var k := i * n + c;
    SampleBytes(xs, k);
    var h := Header(n, b.length * n * 2, b.sampleRate);
    assert Wav(b) == h + Samples(xs);
    assert Wav(b)[44 + 2 * k..44 + 2 * k + 2] == Samples(xs)[2 * k..2 * k + 2];
    Int16RoundTrip(xs[k]);
  }

  // ---- the encoder ----

  /** `writeString`: the string's bytes written into `view` from `offset`. */
  method WriteString(view: array<byte>, offset: nat, s: string)
    requires offset + |s| <= view.Length
    modifies view
    ensures view[..] == Put(old(view[..]), offset, Ascii(s))
  {
    for i := 0 to |s|
      invariant forall j :: 0 <= j < view.Length ==>
        view[j] == if offset <= j < offset + i then Ascii(s)[j - offset] else old(view[j])
    {
      view[offset + i] := ((s[i] as int) % 0x100) as byte;
    }
  }

  /** `view.setUint16(offset, v, true)`. */
  method SetUint16(view: array<byte>, offset: nat, v: int)
    requires offset + 2 <= view.Length
    modifies view
    ensures view[..] == Put(old(view[..]), offset, Le16(v))
  {
    var b := Le16(v);
    view[offset] := b[0];
    view[offset + 1] := b[1];
  }

  /** `view.setUint32(offset, v, true)`. */
  method SetUint32(view: array<byte>, offset: nat, v: int)
    requires offset + 4 <= view.Length
    modifies view
    ensures view[..] == Put(old(view[..]), offset, Le32(v))
  {
    var b := Le32(v);
    view[offset] := b[0];
    view[offset + 1] := b[1];
    view[offset + 2] := b[2];
    view[offset + 3] := b[3];
  }

  /** Two writes, the second just after the first, are one write of both. */
  lemma {:induction false} PutPut(a: seq<byte>, offset: nat, x: seq<byte>, y: seq<byte>)
    requires offset + |x| + |y| <= |a|
    ensures Put(Put(a, offset, x), offset + |x|, y) == Put(a, offset, x + y)
  {
  }

  /** A write that covers the whole buffer leaves just what was written. */
  lemma {:induction false} PutWhole(a: seq<byte>, b: seq<byte>)
    requires |b| == |a|
    ensures Put(a, 0, b) == b
  {
  }

  /** The RIFF chunk descriptor written through the view at offset 0. */
  method WriteRiff(header: array<byte>, length: nat)
    requires 12 <= header.Length
    modifies header
    ensures header[..] == Put(old(header[..]), 0, RiffChunk(length))
  {
    ghost var a := header[..];
    WriteString(header, 0, "RIFF");
    SetUint32(header, 4, 36 + length);
    PutPut(a, 0, Ascii("RIFF"), Le32(36 + length));
    WriteString(header, 8, "WAVE");
    PutPut(a, 0, Ascii("RIFF") + Le32(36 + length), Ascii("WAVE"));
  }

  /** The `fmt ` sub-chunk written through the view at offset 12. */
  method WriteFmt(header: array<byte>, numOfChannels: nat, sampleRate: nat)
    requires 36 <= header.Length
    modifies header
    ensures header[..] == Put(old(header[..]), 12, FmtChunk(numOfChannels, sampleRate))
  {
    ghost var a := header[..];
    WriteString(header, 12, "fmt ");
    ghost var f := Ascii("fmt ");
    SetUint32(header, 16, 16);
    PutPut(a, 12, f, Le32(16));
    f := f + Le32(16);
    SetUint16(header, 20, 1);
    PutPut(a, 12, f, Le16(1));
    f := f + Le16(1);
    SetUint16(header, 22, numOfChannels);
    PutPut(a, 12, f, Le16(numOfChannels));
    f := f + Le16(numOfChannels);
    SetUint32(header, 24, sampleRate);
    PutPut(a, 12, f, Le32(sampleRate));
    f := f + Le32(sampleRate);
    SetUint32(header, 28, sampleRate * numOfChannels * 2);
    PutPut(a, 12, f, Le32(sampleRate * numOfChannels * 2));
    f := f + Le32(sampleRate * numOfChannels * 2);
    SetUint16(header, 32, numOfChannels * 2);
    PutPut(a, 12, f, Le16(numOfChannels * 2));
    f := f + Le16(numOfChannels * 2);
    SetUint16(header, 34, 16);
    PutPut(a, 12, f, Le16(16));
  }

  /** The `data` sub-chunk's header written through the view at offset 36. */
  method WriteDataHeader(header: array<byte>, length: nat)
    requires 44 <= header.Length
    modifies header
    ensures header[..] == Put(old(header[..]), 36, DataHeader(length))
  {
    ghost var a := header[..];
    WriteString(header, 36, "data");
    SetUint32(header, 40, length);
    PutPut(a, 36, Ascii("data"), Le32(length));
  }

  /** The header as the source builds it: a zeroed 44-byte buffer and the
      fields written in order through a `DataView`. */
  method WavHeader(numOfChannels: nat, length: nat, sampleRate: nat) returns (header: array<byte>)
    ensures fresh(header) && header[..] == Header(numOfChannels, length, sampleRate)
  {
    header := new byte[44](_ => 0);
    ghost var zeros := header[..];
    ghost var r, f, d := RiffChunk(length), FmtChunk(numOfChannels, sampleRate), DataHeader(length);
    WriteRiff(header, length);
    WriteFmt(header, numOfChannels, sampleRate);
    PutPut(zeros, 0, r, f);
    assert header[..] == Put(zeros, 0, r + f);
    WriteDataHeader(header, length);
    PutPut(zeros, 0, r + f, d);
    PutWhole(zeros, r + f + d);
  }

  /** Channel `c` of frame `i` is in its interleaved place in `a`. */
  predicate Placed(a: seq<real>, b: AudioBuffer, i: nat, c: nat)
    requires WellFormed(b) && i < b.length && c < |b.channels|
  {
    i * |b.channels| + c < |a| && a[i * |b.channels| + c] == b.channels[c][i]
  }

  /** The channels copied into one `Float32Array`, frame by frame: channel
      by channel, each sample `i` of channel `c` to `i * numOfChannels + c`.
      The channels already hold 32-bit floats, so the copy is exact. */
  method Interleave(b: AudioBuffer) returns (audioData: array<real>)
    requires WellFormed(b)
    ensures fresh(audioData) && audioData[..] == Interleaved(b)
  {
    var numOfChannels := |b.channels|;
    audioData := new real[b.length * numOfChannels](_ => 0.0);
    for channel := 0 to numOfChannels
      invariant forall i, c :: 0 <= i < b.length && 0 <= c < channel ==> Placed(audioData[..], b, i, c)
    {
      var channelData := b.channels[channel];
      for i := 0 to b.length
        invariant forall i', c :: 0 <= i' < b.length && 0 <= c < channel ==> Placed(audioData[..], b, i', c)
        invariant forall i' :: 0 <= i' < i ==> Placed(audioData[..], b, i', channel)
      {
        ghost var before := audioData[..];
        Position(i, channel, numOfChannels, b.length);
        audioData[i * numOfChannels + channel] := channelData[i];
        forall i', c | 0 <= i' < b.length && 0 <= c <= channel && (c < channel || i' < i)
          ensures Placed(audioData[..], b, i', c)
        {
          assert Placed(before, b, i', c);
          if i' * numOfChannels + c == i * numOfChannels + channel {
            PositionUnique(i', c, i, channel, numOfChannels);
          }
        }
      }
    }
    forall j | 0 <= j < audioData.Length
      ensures audioData[j] == Interleaved(b)[j]
    {
      var i, c := PositionOf(j, b.length, numOfChannels);
      assert Placed(audioData[..], b, i, c);
      FramesAt(b, b.length, i, c);
    }
  }

  /** Each sample clipped to [-1, 1], scaled and stored into an
      `Int16Array`. */
  method ToPcm(audioData: array<real>) returns (outputData: array<int16>)
    ensures fresh(outputData) && outputData[..] == Pcm(audioData[..])
  {
    outputData := new int16[audioData.Length];
    for i := 0 to audioData.Length
      invariant forall j :: 0 <= j < i ==> outputData[j] == Pcm16(audioData[j])
    {
      var s := Clip(audioData[i]);
      StoreIsPcm(audioData[i]);
      outputData[i] := ToInt16(if s < 0.0 then s * 0x8000 as real else s * 0x7FFF as real);
    }
  }

  /** `target.set(source, offset)` on a `Uint8Array`: the bytes copied in
      one by one from `offset`. */
  method SetBytes(target: array<byte>, offset: nat, source: seq<byte>)
    requires offset + |source| <= target.Length
    modifies target
    ensures target[..] == Put(old(target[..]), offset, source)
  {
    for k := 0 to |source|
      invariant forall j :: 0 <= j < target.Length ==>
        target[j] == if offset <= j < offset + k then source[j - offset] else old(target[j])
    {
      target[offset + k] := source[k];
    }
  }

  /** `audioBufferToWav`: the header, then the bytes of the interleaved
      16-bit samples, low byte first. */
  method AudioBufferToWav(buffer: AudioBuffer) returns (wavData: array<byte>)
    requires WellFormed(buffer)
    ensures fresh(wavData) && wavData[..] == Wav(buffer)
  {
    var numOfChannels := |buffer.channels|;
    var length := buffer.length * numOfChannels * 2;
    var header := WavHeader(numOfChannels, length, buffer.sampleRate);
    var audioData := Interleave(buffer);
    var outputData := ToPcm(audioData);
    wavData := new byte[header.Length + 2 * outputData.Length](_ => 0);
    ghost var zeros := wavData[..];
    ghost var bytes := Samples(outputData[..]);
    SetBytes(wavData, 0, header[..]);
    SetBytes(wavData, header.Length, Samples(outputData[..]));
    PutPut(zeros, 0, header[..], bytes);
    PutWhole(zeros, header[..] + bytes);
  }
}
