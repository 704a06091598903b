/** Reading a growing recording poll by poll against decoding it once (modules/telephony/voice-agent.py). */
module WavGrowth {
  import opened Wrappers
  import opened GrowingWav

  // ----- the header

  lemma Unpack16(v: nat, b: Bytes, i: nat)
    requires v < TWO16 && i + 2 <= |b| && b[i..i + 2] == Pack16(v)
    ensures U16At(b, i) == v
  {
    assert b[i] == b[i..i + 2][0] && b[i + 1] == b[i..i + 2][1];
  }

  lemma FieldSlices(
    h: Bytes, size: nat, rate: nat, byteRate: nat, align: nat, bits: nat, format: nat, channels: nat)
    requires Fits(size, rate, byteRate, align, bits, format, channels)
    requires h == Fields(size, rate, byteRate, align, bits, format, channels)
    ensures |h| == 44 && h[0..4] == RIFF && h[4..8] == Pack32(36 + size) && h[8..12] == WAVE && h[12..16] == FMT
    ensures h[16..20] == Pack32(16) && h[20..22] == Pack16(format) && h[22..24] == Pack16(channels)
    ensures h[24..28] == Pack32(rate) && h[28..32] == Pack32(byteRate) && h[32..34] == Pack16(align)
    ensures h[34..36] == Pack16(bits) && h[36..40] == DATA && h[40..44] == Pack32(size)
  {
  }

  lemma FrontSlices(h: Bytes, p: Bytes)
    ensures forall i, j :: 0 <= i <= j <= |h| ==> (h + p)[i..j] == h[i..j]
  {
  }

  /** What wav_header computes, by name. */
  lemma FieldsOf(h: Bytes, samples: nat, rate: nat, bits: nat, format: nat, channels: nat)
      returns (size: nat, byteRate: nat, align: nat)
    requires WavHeader(samples, rate, bits, format, channels) == Some(h)
    ensures align == Align(channels, bits) && size == Size(samples, align) && byteRate == ByteRate(rate, channels, bits)
    ensures Fits(size, rate, byteRate, align, bits, format, channels)
    ensures h == Fields(size, rate, byteRate, align, bits, format, channels)
  {
    align, byteRate := Align(channels, bits), ByteRate(rate, channels, bits);
    size := Size(samples, align);
    PackedFields(h, size, rate, byteRate, align, bits, format, channels);
  }

  lemma PackedFields(
    h: Bytes, size: nat, rate: nat, byteRate: nat, align: nat, bits: nat, format: nat, channels: nat)
    requires Packed(size, rate, byteRate, align, bits, format, channels) == Some(h)
    ensures Fits(size, rate, byteRate, align, bits, format, channels)
    ensures h == Fields(size, rate, byteRate, align, bits, format, channels)
  {
  }

  /** Parsing inverts wav_header, whatever audio follows. */
  lemma HeaderRoundTrip(h: Bytes, p: Bytes, samples: nat, rate: nat, bits: nat, format: nat, channels: nat)
    requires WavHeader(samples, rate, bits, format, channels) == Some(h)
    ensures Parse(h + p, 1, 16) == Header(Some(44), channels, bits)
  {
    var size, byteRate, align := FieldsOf(h, samples, rate, bits, format, channels);
    FieldsRoundTrip(h, p, size, rate, byteRate, align, bits, format, channels);
  }

  lemma FieldsRoundTrip(
    h: Bytes, p: Bytes, size: nat, rate: nat, byteRate: nat, align: nat, bits: nat, format: nat, channels: nat)
    requires Fits(size, rate, byteRate, align, bits, format, channels)
    requires h == Fields(size, rate, byteRate, align, bits, format, channels)
    ensures Parse(h + p, 1, 16) == Header(Some(44), channels, bits)
  {
    var b := h + p;
    FieldSlices(h, size, rate, byteRate, align, bits, format, channels);
    FrontSlices(h, p);
    assert h[16..18] == h[16..20][..2] && h[18..20] == h[16..20][2..];
    Unpack16(16, b, 16);
    Unpack16(0, b, 18);
    Unpack16(channels, b, 22);
    Unpack16(bits, b, 34);
    TwoChunks(b, channels, bits);
  }

  /** The bytes of the header, one by one: little-endian fields at their places, whatever reads them back. */
  lemma HeaderBytes(h: Bytes, samples: nat, rate: nat, bits: nat, format: nat, channels: nat)
    requires WavHeader(samples, rate, bits, format, channels) == Some(h)
    ensures |h| == 44 && h[0..4] == [82, 73, 70, 70] && h[8..12] == [87, 65, 86, 69]
    ensures h[12..16] == [102, 109, 116, 32] && h[36..40] == [100, 97, 116, 97]
    ensures Number(h[16..20]) == 16 && Number(h[20..22]) == format && Number(h[22..24]) == channels
    ensures Number(h[24..28]) == rate && Number(h[28..32]) == rate * channels * bits / 8
    ensures Number(h[32..34]) == channels * bits / 8 && Number(h[34..36]) == bits
    ensures Number(h[40..44]) == samples * (channels * bits / 8) && Number(h[4..8]) == 36 + Number(h[40..44])
  {
    var size, byteRate, align := FieldsOf(h, samples, rate, bits, format, channels);
    FieldBytes(h, size, rate, byteRate, align, bits, format, channels);
  }

  lemma FieldBytes(
    h: Bytes, size: nat, rate: nat, byteRate: nat, align: nat, bits: nat, format: nat, channels: nat)
    requires Fits(size, rate, byteRate, align, bits, format, channels)
    requires h == Fields(size, rate, byteRate, align, bits, format, channels)
    ensures |h| == 44 && h[0..4] == [82, 73, 70, 70] && h[8..12] == [87, 65, 86, 69]
    ensures h[12..16] == [102, 109, 116, 32] && h[36..40] == [100, 97, 116, 97]
    ensures Number(h[16..20]) == 16 && Number(h[20..22]) == format && Number(h[22..24]) == channels
    ensures Number(h[24..28]) == rate && Number(h[28..32]) == byteRate && Number(h[32..34]) == align
    ensures Number(h[34..36]) == bits && Number(h[40..44]) == size && Number(h[4..8]) == 36 + size
  {
    FieldSlices(h, size, rate, byteRate, align, bits, format, channels);
    Packed16(format);
    Packed16(channels);
    Packed16(align);
    Packed16(bits);
    Packed32(16);
    Packed32(rate);
    Packed32(byteRate);
    Packed32(size);
    Packed32(36 + size);
  }

  /** A little-endian number: the last byte counts most. */
  function Number(b: Bytes): nat {
    if b == [] then 0
    else
      var low: int := b[0];
      low + 256 * Number(b[1..])
  }

  lemma TwoBytes(b: Bytes)
    requires |b| == 2
    ensures Number(b) == b[0] as int + 256 * (b[1] as int)
  {
    assert b[1..] == [b[1]] && [b[1]][1..] == [];
    assert Number([b[1]]) == b[1] as int;
  }

  lemma FourBytes(x: Bytes, y: Bytes)
    requires |x| == 2 && |y| == 2
    ensures Number(x + y) == Number(x) + 65536 * Number(y)
  {
    var b := x + y;
    assert b[1..] == [x[1]] + y && ([x[1]] + y)[1..] == y;
    TwoBytes(x);
  }

  lemma Packed16(v: nat)
    requires v < TWO16
    ensures Number(Pack16(v)) == v
  {
    TwoBytes(Pack16(v));
  }

  lemma Packed32(v: nat)
    requires v < TWO32
    ensures Number(Pack32(v)) == v
  {
    Packed16(v % TWO16);
    Packed16(v / TWO16);
    FourBytes(Pack16(v % TWO16), Pack16(v / TWO16));
  }

  lemma ReadsNumber16(b: Bytes, i: nat)
    requires i + 2 <= |b|
    ensures U16At(b, i) == Number(b[i..i + 2])
  {
    TwoBytes(b[i..i + 2]);
  }

  lemma ReadsNumber32(b: Bytes, i: nat)
    requires i + 4 <= |b|
    ensures U32At(b, i) == Number(b[i..i + 4])
  {
    ReadsNumber16(b, i);
    ReadsNumber16(b, i + 2);
    FourBytes(b[i..i + 2], b[i + 2..i + 4]);
    assert b[i..i + 4] == b[i..i + 2] + b[i + 2..i + 4];
  }

  // ----- any file of chunks

  /** A chunk in front of the audio, and the bytes it takes: name, size, body, and a pad byte after an odd body. */
  datatype Chunk = Chunk(id: Bytes, size: Bytes, body: Bytes)

  predicate ChunkOk(c: Chunk) { |c.id| == 4 && c.id != DATA && |c.size| == 4 && Number(c.size) == |c.body| }

  function Laid(cs: seq<Chunk>): Bytes {
    if cs == [] then []
    else cs[0].id + cs[0].size + cs[0].body + (if |cs[0].body| % 2 == 1 then [0] else []) + Laid(cs[1..])
  }

  /** A format chunk has sixteen bytes at least. */
  predicate IsFormat(c: Chunk) { c.id == FMT && |c.body| >= 16 }

  /** Channels and bits after the chunks: those of the last format chunk, if there is one. */
  function FormatOf(cs: seq<Chunk>, channels: nat, bits: nat): (nat, nat) {
    if cs == [] then (channels, bits)
    else
      var last := cs[|cs| - 1];
      if IsFormat(last) then (Number(last.body[2..4]), Number(last.body[14..16]))
      else FormatOf(cs[..|cs| - 1], channels, bits)
  }

  lemma {:induction false} FormatFromFront(cs: seq<Chunk>, channels: nat, bits: nat)
    requires cs != []
    ensures FormatOf(cs, channels, bits)
         == var f := FormatOf(cs[..1], channels, bits); FormatOf(cs[1..], f.0, f.1)
    decreases |cs|
  {
    if |cs| == 1 {
      assert cs[..1] == cs && cs[1..] == [];
    } else {
      var front := cs[..|cs| - 1];
      FormatFromFront(front, channels, bits);
      assert front[..1] == cs[..1] && front[1..] == cs[1..][..|cs| - 2];
    }
  }

  /** What one chunk of the walk comes to. */
  lemma OneChunk(b: Bytes, position: nat, c: Chunk, rest: Bytes)
    requires ChunkOk(c) && position <= |b|
    requires b[position..] == c.id + c.size + c.body + (if |c.body| % 2 == 1 then [0] else []) + rest
    ensures position + 8 <= |b| && b[position..position + 4] == c.id
    ensures FormatAt(b, position) <==> IsFormat(c)
    ensures IsFormat(c) ==>
              U16At(b, position + 10) == Number(c.body[2..4]) && U16At(b, position + 22) == Number(c.body[14..16])
    ensures Next(b, position) <= |b| && b[Next(b, position)..] == rest
  {
    var t := b[position..];
    SlicesOfChunk(t, c, rest);
    assert b[position..position + 4] == t[..4];
    assert b[position + 4..position + 8] == t[4..8];
    ReadsNumber32(b, position + 4);
    if IsFormat(c) {
      assert b[position + 10..position + 12] == t[10..12];
      assert b[position + 22..position + 24] == t[22..24];
      ReadsNumber16(b, position + 10);
      ReadsNumber16(b, position + 22);
    }
    var n := 8 + |c.body| + |c.body| % 2;
    assert Next(b, position) == position + n;
    assert b[position + n..] == t[n..];
  }

  lemma SlicesOfChunk(t: Bytes, c: Chunk, rest: Bytes)
    requires ChunkOk(c) && t == c.id + c.size + c.body + (if |c.body| % 2 == 1 then [0] else []) + rest
    ensures |t| >= 8 + |c.body| + |c.body| % 2 && t[..4] == c.id && t[4..8] == c.size
    ensures |c.body| >= 16 ==> t[10..12] == c.body[2..4] && t[22..24] == c.body[14..16]
    ensures t[8 + |c.body| + |c.body| % 2..] == rest
  {
    CutInFive(c.id, c.size, c.body, if |c.body| % 2 == 1 then [0] else [], rest, t);
    if |c.body| >= 16 {
      assert t[10..12] == t[8..8 + |c.body|][2..4];
      assert t[22..24] == t[8..8 + |c.body|][14..16];
    }
  }

  lemma CutInFive(a: Bytes, b: Bytes, c: Bytes, d: Bytes, e: Bytes, t: Bytes)
    requires t == a + b + c + d + e && |a| == 4 && |b| == 4
    ensures |t| == 8 + |c| + |d| + |e| && t[..4] == a && t[4..8] == b
    ensures t[8..8 + |c|] == c && t[8 + |c| + |d|..] == e
  {
  }

  lemma {:induction false} WalkLaid(b: Bytes, position: nat, cs: seq<Chunk>, tail: Bytes, channels: nat, bits: nat)
    requires position <= |b| && b[position..] == Laid(cs) + tail && (forall c :: c in cs ==> ChunkOk(c))
    requires |tail| >= 8 && tail[..4] == DATA
    ensures var f := FormatOf(cs, channels, bits);
            Walk(b, position, channels, bits) == Header(Some(|b| - |tail| + 8), f.0, f.1)
    decreases |cs|
  {
    if cs == [] {
      AtData(b, position, tail, channels, bits);
    } else {
      var c, later := cs[0], Laid(cs[1..]) + tail;
      assert c in cs;
      LaidCons(cs, tail);
      OneChunk(b, position, c, later);
      var f := FormatOf(cs[..1], channels, bits);
      assert cs[..1] == [c];
      OneFormat(c, channels, bits);
      forall x | x in cs[1..] ensures ChunkOk(x) { assert x in cs; }
      WalkLaid(b, Next(b, position), cs[1..], tail, f.0, f.1);
      FormatFromFront(cs, channels, bits);
      OneStepOfWalk(b, position, c, channels, bits, f.0, f.1);
    }
  }

  lemma LaidCons(cs: seq<Chunk>, tail: Bytes)
    requires cs != []
    ensures var c := cs[0];
            Laid(cs) + tail
            == c.id + c.size + c.body + (if |c.body| % 2 == 1 then [0] else []) + (Laid(cs[1..]) + tail)
    ensures |Laid(cs) + tail| >= |cs[0].id| + |cs[0].size|
  {
  }

  lemma AtData(b: Bytes, position: nat, tail: Bytes, channels: nat, bits: nat)
    requires position <= |b| && b[position..] == [] + tail && |tail| >= 8 && tail[..4] == DATA
    ensures Walk(b, position, channels, bits) == Header(Some(|b| - |tail| + 8), channels, bits)
  {
    assert b[position..position + 4] == b[position..][..4] == tail[..4];
    assert DATA != FMT by { assert DATA[0] != FMT[0]; }
  }

  lemma OneStepOfWalk(b: Bytes, position: nat, c: Chunk, channels: nat, bits: nat, ch: nat, bt: nat)
    requires position + 8 <= |b| && b[position..position + 4] == c.id && c.id != DATA
    requires FormatAt(b, position) <==> IsFormat(c)
    requires if IsFormat(c) then ch == U16At(b, position + 10) && bt == U16At(b, position + 22)
             else ch == channels && bt == bits
    ensures Walk(b, position, channels, bits) == Walk(b, Next(b, position), ch, bt)
  {
  }

  lemma OneFormat(c: Chunk, channels: nat, bits: nat)
    ensures FormatOf([c], channels, bits)
         == if IsFormat(c) then (Number(c.body[2..4]), Number(c.body[14..16])) else (channels, bits)
  {
    assert [c][..0] == [];
  }

  /**
   * Whatever chunks come before the audio, of odd length or not, it is found behind them, with the
   * channels and bits of the last format chunk.
   */
  lemma ChunksAreRead(cs: seq<Chunk>, size: Bytes, audio: Bytes)
    requires |size| == 4 && (forall c :: c in cs ==> ChunkOk(c)) && |audio| >= 4
    ensures var b := [82, 73, 70, 70] + size + [87, 65, 86, 69] + Laid(cs) + [100, 97, 116, 97] + audio;
            Parse(b, 1, 16) == Header(Some(|b| - |audio| + 4), FormatOf(cs, 1, 16).0, FormatOf(cs, 1, 16).1)
  {
    var tail: Bytes := [100, 97, 116, 97] + audio;
    var b: Bytes := [82, 73, 70, 70] + size + [87, 65, 86, 69] + Laid(cs) + [100, 97, 116, 97] + audio;
    assert b == ([82, 73, 70, 70] + size + [87, 65, 86, 69]) + (Laid(cs) + tail);
    assert b[12..] == Laid(cs) + tail;
    WalkLaid(b, 12, cs, tail, 1, 16);
  }

  lemma TwoChunks(b: Bytes, channels: nat, bits: nat)
    requires |b| >= 44 && b[0..4] == RIFF && b[8..12] == WAVE && b[12..16] == FMT && b[36..40] == DATA
    requires U16At(b, 16) == 16 && U16At(b, 18) == 0 && U16At(b, 22) == channels && U16At(b, 34) == bits
    ensures Parse(b, 1, 16) == Header(Some(44), channels, bits)
  {
    assert U32At(b, 16) == 16;
    assert Next(b, 12) == 36;
    assert Walk(b, 36, channels, bits) == Header(Some(44), channels, bits);
  }

  lemma {:induction false} WalkEnds(b: Bytes, position: nat, channels: nat, bits: nat)
    ensures var w := Walk(b, position, channels, bits); w.len.Some? ==> position + 8 <= w.len.value <= |b|
    decreases |b| - position
  {
    if position + 8 <= |b| && b[position..position + 4] != DATA {
      var ch := if FormatAt(b, position) then U16At(b, position + 10) else channels;
      var bt := if FormatAt(b, position) then U16At(b, position + 22) else bits;
      WalkEnds(b, Next(b, position), ch, bt);
    }
  }

  lemma SameChunk(b: Bytes, more: Bytes, position: nat)
    requires position + 8 <= |b|
    ensures (b + more)[position..position + 4] == b[position..position + 4]
            && U32At(b + more, position + 4) == U32At(b, position + 4)
    ensures FormatAt(b, position) ==>
              FormatAt(b + more, position) && U16At(b + more, position + 10) == U16At(b, position + 10)
                  && U16At(b + more, position + 22) == U16At(b, position + 22)
    ensures FormatAt(b + more, position) && !FormatAt(b, position) ==> Next(b, position) > |b|
  {
  }

  /** A walk that found the audio finds the same in a longer file; one that did not can be done over. */
  lemma {:induction false} WalkGrows(b: Bytes, more: Bytes, position: nat, channels: nat, bits: nat)
    ensures var w, v := Walk(b, position, channels, bits), Walk(b + more, position, channels, bits);
            && (w.len.Some? ==> v == w)
            && (w.len.None? && v.len.Some? ==> v.len.value > |b|)
            && Walk(b + more, position, w.channels, w.bits) == v
    decreases |b| - position
  {
    if position + 8 > |b| {
      WalkEnds(b + more, position, channels, bits);
    } else {
      SameChunk(b, more, position);
      var ch := if FormatAt(b, position) then U16At(b, position + 10) else channels;
      var bt := if FormatAt(b, position) then U16At(b, position + 22) else bits;
      if b[position..position + 4] != DATA {
        WalkGrows(b, more, Next(b, position), ch, bt);
        if FormatAt(b + more, position) && !FormatAt(b, position) {
          WalkEnds(b + more, Next(b, position), U16At(b + more, position + 10), U16At(b + more, position + 22));
        }
      }
    }
  }

  lemma ParseGrows(b: Bytes, more: Bytes)
    ensures var w, v := Parse(b, 1, 16), Parse(b + more, 1, 16);
            && (w.len.Some? ==> v == w && w.len.value <= |b|)
            && (w.len.None? && v.len.Some? ==> v.len.value > |b|)
            && Parse(b + more, w.channels, w.bits) == v
  {
    if |b| >= 12 {
      assert (b + more)[0..4] == b[0..4] && (b + more)[8..12] == b[8..12];
      WalkGrows(b, more, 12, 1, 16);
      WalkEnds(b, 12, 1, 16);
    } else if Parse(b + more, 1, 16).len.Some? {
      WalkEnds(b + more, 12, 1, 16);
    }
  }

  // ----- runs of polls

  /** Each file seen is the beginning of every later one. */
  ghost predicate Grows(files: seq<Option<Bytes>>) {
    forall i, j :: 0 <= i < j < |files| && files[i].Some? && files[j].Some? ==> files[i].value <= files[j].value
  }

  function Seen(files: seq<Option<Bytes>>): Bytes {
    if files == [] then [] else if files[|files| - 1].Some? then files[|files| - 1].value
    else Seen(files[..|files| - 1])
  }

  /** The reader after the polls, and everything they returned. */
  function Run(files: seq<Option<Bytes>>): (Reader, seq<int>) {
    if files == [] then (START, [])
    else
      var before := Run(files[..|files| - 1]);
      var now := Poll(before.0, files[|files| - 1]);
      (now.0, before.1 + now.1)
  }

  /** The payload can be read: its header is complete and its samples have 16 bits. */
  predicate Readable(b: Bytes) { Parse(b, 1, 16).len.Some? && Parse(b, 1, 16).bits == 16 }

  function Channels(b: Bytes): (c: nat)
    ensures c >= 1
  {
    Legs(Parse(b, 1, 16).channels)
  }

  function Start(b: Bytes): (h: nat)
    requires Readable(b)
    ensures h <= |b|
  {
    ParseGrows(b, []);
    Parse(b, 1, 16).len.value
  }

  /** How many whole samples, of all channels, the payload has. */
  function Payload(b: Bytes): (m: nat)
    ensures Readable(b) ==> Start(b) + 2 * m <= |b|
  {
    if Readable(b) then (|b| - Start(b)) / 2 else 0
  }

  predicate Below(places: seq<nat>, m: nat) { forall i :: 0 <= i < |places| ==> places[i] < m }

  /** The samples at given places of the payload. */
  function At(b: Bytes, places: seq<nat>): (xs: seq<int>)
    requires Readable(b) && Below(places, Payload(b))
    ensures |xs| == |places|
  {
    seq(|places|, i requires 0 <= i < |places| => SampleAt(b, Start(b), places[i]))
  }

  /** Decoding once: every channels-th sample of the payload. */
  function CallerLeg(b: Bytes): seq<int> {
    if !Readable(b) then []
    else
      var c := Channels(b);
      seq((Payload(b) + c - 1) / c, k requires 0 <= k < (Payload(b) + c - 1) / c =>
          (Within(k, c, Payload(b)); SampleAt(b, Start(b), k * c)))
  }

  lemma Within(k: nat, c: nat, m: nat)
    requires c >= 1 && k < (m + c - 1) / c
    ensures k * c < m
  {
    var q := (m + c - 1) / c;
    assert q * c <= m + c - 1;
    assert (k + 1) * c <= q * c by { Monotone(k + 1, q, c); }
    assert (k + 1) * c == k * c + c;
  }

  lemma Monotone(x: nat, y: nat, c: nat)
    requires x <= y
    ensures x * c <= y * c
  {
  }

  // ----- where the polls take their samples

  /** n, n + c, n + 2c, ... below m. */
  function Picks(n: nat, m: nat, c: nat): (ps: seq<nat>)
    requires c >= 1
    ensures Below(ps, m)
    decreases m - n
  {
    if n >= m then [] else [n] + Picks(n + c, m, c)
  }

  /** The places of the payload that a run of polls takes as caller samples. */
  function Taken(files: seq<Option<Bytes>>): seq<nat> {
    if files == [] then []
    else
      var front, file := files[..|files| - 1], files[|files| - 1];
      Taken(front) + (if file.None? then [] else Picks(Payload(Seen(front)), Payload(file.value), Channels(file.value)))
  }

  /** Every poll that reads something starts on a whole frame. */
  ghost predicate OnFrames(files: seq<Option<Bytes>>) {
    forall i :: 0 <= i < |files| && files[i].Some? && Payload(Seen(files[..i])) < Payload(files[i].value) ==>
      Payload(Seen(files[..i])) % Channels(files[i].value) == 0
  }

  /** The reader a file leaves behind. */
  function Settled(b: Bytes): Reader {
    var h := Parse(b, 1, 16);
    Reader(if h.len.None? then 0 else if h.bits != 16 then h.len.value else h.len.value + 2 * Payload(b), h)
  }

  /** `xs` is the stretch of the payload from sample n to sample m. */
  predicate Stretch(xs: seq<int>, b: Bytes, h: nat, n: nat, m: nat) {
    n <= m && h + 2 * m <= |b| && |xs| == m - n && forall i :: 0 <= i < |xs| ==> xs[i] == SampleAt(b, h, n + i)
  }

  lemma FramesStretch(b: Bytes, h: nat, n: nat, m: nat)
    requires n <= m && h + 2 * m <= |b|
    ensures Stretch(Frames(b[h + 2 * n..h + 2 * m]), b, h, n, m)
  {
    var raw := b[h + 2 * n..h + 2 * m];
    assert forall i :: 0 <= i < m - n ==> SampleAt(raw, 0, i) == SampleAt(b, h, n + i);
  }

  predicate Matches(xs: seq<int>, b: Bytes, h: nat, places: seq<nat>) {
    |xs| == |places| && forall i :: 0 <= i < |xs| ==> h + 2 * places[i] + 2 <= |b| && xs[i] == SampleAt(b, h, places[i])
  }

  lemma MatchCons(x: int, xs: seq<int>, b: Bytes, h: nat, place: nat, places: seq<nat>)
    requires Matches(xs, b, h, places) && h + 2 * place + 2 <= |b| && x == SampleAt(b, h, place)
    ensures Matches([x] + xs, b, h, [place] + places)
  {
  }

  lemma StretchTail(xs: seq<int>, b: Bytes, h: nat, n: nat, m: nat, c: nat)
    requires Stretch(xs, b, h, n, m) && c <= |xs|
    ensures Stretch(xs[c..], b, h, n + c, m)
  {
  }

  lemma {:induction false} StridePicks(xs: seq<int>, b: Bytes, h: nat, n: nat, m: nat, c: nat)
    requires c >= 1 && Stretch(xs, b, h, n, m)
    ensures Matches(Stride(xs, c), b, h, Picks(n, m, c))
    decreases m - n
  {
    if n < m {
      assert xs[0] == SampleAt(b, h, n);
      if n + c < m {
        StretchTail(xs, b, h, n, m, c);
        StridePicks(xs[c..], b, h, n + c, m, c);
        MatchCons(xs[0], Stride(xs[c..], c), b, h, n, Picks(n + c, m, c));
      } else {
        assert Picks(n + c, m, c) == [];
        MatchCons(xs[0], [], b, h, n, []);
      }
    }
  }

  lemma TakenIs(g: Bytes, h: nat, n: nat, m: nat, channels: nat)
    requires Readable(g) && h == Start(g) && n <= m == Payload(g)
    ensures GrowingWav.Taken(g, h + 2 * n, h + 2 * m, channels) == At(g, Picks(n, m, Legs(channels)))
  {
    FramesStretch(g, h, n, m);
    StridePicks(Frames(g[h + 2 * n..h + 2 * m]), g, h, n, m, Legs(channels));
    if n == m { assert Picks(n, m, Legs(channels)) == []; }
  }

  lemma GrowsReadable(b: Bytes, more: Bytes)
    ensures Payload(b) <= Payload(b + more)
    ensures Readable(b) ==> Readable(b + more) && Start(b + more) == Start(b) && Channels(b + more) == Channels(b)
  {
    ParseGrows(b, more);
  }

  /** One poll of a grown file takes the picks of its new stretch. */
  lemma PollTakes(b: Bytes, more: Bytes)
    ensures var r := Poll(Settled(b), Some(b + more));
            && r.0 == Settled(b + more)
            && (!Readable(b + more) ==> r.1 == [])
            && (Readable(b + more) ==> r.1 == At(b + more, Picks(Payload(b), Payload(b + more), Channels(b + more))))
  {
    ParseGrows(b, more);
    GrowsReadable(b, more);
    if Readable(b + more) { ReadablePoll(b, b + more); }
  }

  lemma ReadablePoll(b: Bytes, g: Bytes)
    requires Readable(g) && Payload(b) <= Payload(g)
    requires if Parse(b, 1, 16).len.Some? then Parse(g, 1, 16) == Parse(b, 1, 16)
             else Parse(g, Parse(b, 1, 16).channels, Parse(b, 1, 16).bits) == Parse(g, 1, 16)
    ensures Poll(Settled(b), Some(g)) == (Settled(g), At(g, Picks(Payload(b), Payload(g), Channels(g))))
  {
    UsableIs(g, Start(g), Payload(b));
    TakenIs(g, Start(g), Payload(b), Payload(g), Parse(g, 1, 16).channels);
  }

  lemma UsableIs(g: Bytes, h: nat, n: nat)
    requires h + 2 * n <= |g|
    ensures Usable(g, h + 2 * n) == h + 2 * ((|g| - h) / 2)
  {
  }

  lemma {:induction false} SeenIsBefore(files: seq<Option<Bytes>>, file: Bytes)
    requires forall i :: 0 <= i < |files| && files[i].Some? ==> files[i].value <= file
    ensures Seen(files) <= file
    decreases |files|
  {
    if files != [] { SeenIsBefore(files[..|files| - 1], file); }
  }

  lemma LastGrows(files: seq<Option<Bytes>>)
    requires Grows(files) && files != [] && files[|files| - 1].Some?
    ensures Seen(files[..|files| - 1]) <= Seen(files)
  {
    SeenIsBefore(files[..|files| - 1], files[|files| - 1].value);
  }

  /** The polls return the samples at the places they take, all of the file seen last. */
  lemma {:induction false} RunTakes(files: seq<Option<Bytes>>)
    requires Grows(files)
    ensures var b := Seen(files);
            && Run(files).0 == Settled(b)
            && Below(Taken(files), Payload(b))
            && Run(files).1 == if Readable(b) then At(b, Taken(files)) else []
    decreases |files|
  {
    if files != [] {
      var front, file := files[..|files| - 1], files[|files| - 1];
      RunTakes(front);
      if file.Some? {
        LastGrows(files);
        RunStep(Seen(front), file.value, Taken(front), Run(front).1);
      }
    }
  }

  lemma RunStep(b: Bytes, g: Bytes, places: seq<nat>, xs: seq<int>)
    requires b <= g && Below(places, Payload(b)) && xs == if Readable(b) then At(b, places) else []
    ensures var r, all := Poll(Settled(b), Some(g)), places + Picks(Payload(b), Payload(g), Channels(g));
            && r.0 == Settled(g) && Below(all, Payload(g)) && xs + r.1 == if Readable(g) then At(g, all) else []
  {
    var more := g[|b|..];
    assert g == b + more;
    PollTakes(b, more);
    GrowsReadable(b, more);
    SamplesStay(b, g, places);
    if Readable(g) { AtConcat(g, places, Picks(Payload(b), Payload(g), Channels(g))); }
  }

  lemma AtConcat(b: Bytes, x: seq<nat>, y: seq<nat>)
    requires Readable(b) && Below(x, Payload(b)) && Below(y, Payload(b))
    ensures Below(x + y, Payload(b)) && At(b, x + y) == At(b, x) + At(b, y)
  {
  }

  lemma SamplesStay(b: Bytes, g: Bytes, places: seq<nat>)
    requires b <= g && Below(places, Payload(b))
    ensures Readable(b) ==> Readable(g) && Below(places, Payload(g)) && At(g, places) == At(b, places)
    ensures !Readable(b) ==> places == []
  {
    assert g == b + g[|b|..];
    GrowsReadable(b, g[|b|..]);
    assert |places| > 0 ==> places[0] < Payload(b);
    if Readable(b) {
      assert forall i :: 0 <= i < |places| ==> SampleAt(g, Start(b), places[i]) == SampleAt(b, Start(b), places[i]);
    }
  }

  // ----- when that is every channels-th sample

  lemma {:induction false} PicksAre(n: nat, m: nat, c: nat, k: nat)
    requires c >= 1 && n <= m
    ensures |Picks(n, m, c)| == (m - n + c - 1) / c
    ensures k < |Picks(n, m, c)| ==> Picks(n, m, c)[k] == n + k * c
    decreases m - n
  {
    if n < m {
      if n + c <= m {
        PicksAre(n + c, m, c, if k > 0 then k - 1 else 0);
        PicksCons(n, m, c, k);
      } else {
        assert Picks(n + c, m, c) == [];
        SmallQuotient(m - n + c - 1, c);
      }
    } else {
      assert (c - 1) / c == 0;
    }
  }

  lemma PicksCons(n: nat, m: nat, c: nat, k: nat)
    requires c >= 1 && n + c <= m
    ensures |Picks(n, m, c)| == 1 + |Picks(n + c, m, c)| && (m - n + c - 1) / c == 1 + (m - (n + c) + c - 1) / c
    ensures 0 < k < |Picks(n, m, c)| ==>
              && Picks(n, m, c)[k] == Picks(n + c, m, c)[k - 1]
              && n + k * c == n + c + (k - 1) * c
  {
    OneMore(m - n - 1, c);
    assert (k - 1) * c + c == k * c;
  }

  lemma OneMore(x: int, c: nat)
    requires c >= 1 && x >= 0
    ensures (x + c) / c == x / c + 1
  {
    var q, p := x / c, (x + c) / c;
    assert (q + 1) * c == q * c + c && (q + 2) * c == q * c + c + c;
    if p <= q { Monotone(p, q, c); }
    if p >= q + 2 { Monotone(q + 2, p, c); }
  }

  lemma SmallQuotient(x: nat, c: nat)
    requires c >= 1 && c <= x < 2 * c
    ensures x / c == 1
  {
    OneMore(x - c, c);
  }

  lemma Regroup(n: nat, x: seq<nat>, y: seq<nat>)
    ensures [n] + (x + y) == ([n] + x) + y
  {
  }

  lemma {:induction false} PicksJoin(n: nat, m: nat, k: nat, c: nat)
    requires c >= 1 && n <= m <= k && (m - n) % c == 0
    ensures Picks(n, m, c) + Picks(m, k, c) == Picks(n, k, c)
    decreases m - n
  {
    if n < m {
      StepBack(m - n, c);
      PicksJoin(n + c, m, k, c);
      Regroup(n, Picks(n + c, m, c), Picks(m, k, c));
    } else {
      assert Picks(n, m, c) == [];
    }
  }

  lemma StepBack(x: nat, c: nat)
    requires c >= 1 && x > 0 && x % c == 0
    ensures x >= c && (x - c) % c == 0
  {
    if x >= c { ModStep(x - c, c); }
  }

  lemma ModStep(x: nat, c: nat)
    requires c >= 1
    ensures (x + c) % c == x % c
  {
    OneMore(x, c);
    assert (x + c) - ((x + c) / c) * c == x - (x / c) * c by { assert ((x / c) + 1) * c == (x / c) * c + c; }
  }

  lemma {:induction false} PicksAreMultiples(n: nat, m: nat, c: nat, p: nat)
    requires c >= 1 && n % c == 0 && p in Picks(n, m, c)
    ensures p % c == 0
    decreases m - n
  {
    if p != n {
      ModStep(n, c);
      PicksAreMultiples(n + c, m, c, p);
    }
  }

  lemma {:induction false} TakenHas(files: seq<Option<Bytes>>, i: nat)
    requires i < |files| && files[i].Some? && Payload(Seen(files[..i])) < Payload(files[i].value)
    ensures Payload(Seen(files[..i])) in Taken(files)
    decreases |files|
  {
    var front := files[..|files| - 1];
    if i < |front| {
      assert front[..i] == files[..i];
      TakenHas(front, i);
    } else {
      assert files[..i] == front;
    }
  }

  /** The channel count does not change once the payload can be read. */
  lemma {:induction false} SameChannels(files: seq<Option<Bytes>>, i: nat)
    requires Grows(files) && i < |files| && files[i].Some? && Readable(files[i].value)
    ensures Readable(Seen(files)) && Channels(Seen(files)) == Channels(files[i].value)
    decreases |files|
  {
    var last := files[|files| - 1];
    if i == |files| - 1 {
    } else if last.Some? {
      assert last.value == files[i].value + last.value[|files[i].value|..];
      ParseGrows(files[i].value, last.value[|files[i].value|..]);
    } else {
      SameChannels(files[..|files| - 1], i);
    }
  }

  lemma {:induction false} FramesTaken(files: seq<Option<Bytes>>)
    requires Grows(files) && OnFrames(files)
    ensures Taken(files) == Picks(0, Payload(Seen(files)), Channels(Seen(files)))
    decreases |files|
  {
    if files != [] {
      var front, file := files[..|files| - 1], files[|files| - 1];
      forall i | 0 <= i < |front| && front[i].Some? && Payload(Seen(front[..i])) < Payload(front[i].value)
        ensures Payload(Seen(front[..i])) % Channels(front[i].value) == 0
      {
        assert front[..i] == files[..i] && front[i] == files[i];
      }
      FramesTaken(front);
      if file.Some? {
        LastGrows(files);
        var b, g := Seen(front), file.value;
        assert g == b + g[|b|..];
        ParseGrows(b, g[|b|..]);
        var n, m, c := Payload(b), Payload(g), Channels(g);
        if n < m {
          assert n % c == 0;
          PicksJoin(0, n, m, c);
        } else {
          assert n == m;
          assert Picks(n, m, c) == [];
        }
      }
    }
  }

  /**
   * The polls take exactly the caller's places if and only if each poll that reads something starts
   * on a whole frame; with one channel that is always so.
   */
  lemma TakesCallerExactly(files: seq<Option<Bytes>>)
    requires Grows(files)
    ensures Taken(files) == Picks(0, Payload(Seen(files)), Channels(Seen(files))) <==> OnFrames(files)
  {
    if OnFrames(files) { FramesTaken(files); }
    if Taken(files) == Picks(0, Payload(Seen(files)), Channels(Seen(files))) {
      forall i | 0 <= i < |files| && files[i].Some? && Payload(Seen(files[..i])) < Payload(files[i].value)
        ensures Payload(Seen(files[..i])) % Channels(files[i].value) == 0
      {
        TakenHas(files, i);
        SameChannels(files, i);
        PicksAreMultiples(0, Payload(Seen(files)), Channels(Seen(files)), Payload(Seen(files[..i])));
      }
    }
  }

  lemma PicksDecode(b: Bytes)
    requires Readable(b)
    ensures At(b, Picks(0, Payload(b), Channels(b))) == CallerLeg(b)
  {
    var m, c := Payload(b), Channels(b);
    var ps := Picks(0, m, c);
    PicksAre(0, m, c, 0);
    forall k | 0 <= k < |ps| ensures At(b, ps)[k] == CallerLeg(b)[k] { PicksAre(0, m, c, k); }
  }

  /** Incremental reading is one-shot decoding, over any schedule of polls that keeps to whole frames. */
  lemma IncrementalIsOneShot(files: seq<Option<Bytes>>)
    requires Grows(files) && OnFrames(files)
    ensures Run(files).1 == CallerLeg(Seen(files))
  {
    RunTakes(files);
    FramesTaken(files);
    if Readable(Seen(files)) { PicksDecode(Seen(files)); }
  }

  /** With one channel, over any schedule at all. */
  lemma OneChannelIsOneShot(files: seq<Option<Bytes>>)
    requires Grows(files) && Channels(Seen(files)) == 1
    ensures Run(files).1 == CallerLeg(Seen(files))
  {
    forall i | 0 <= i < |files| && files[i].Some? && Payload(Seen(files[..i])) < Payload(files[i].value)
      ensures Payload(Seen(files[..i])) % Channels(files[i].value) == 0
    {
      SameChannels(files, i);
    }
    IncrementalIsOneShot(files);
  }

  // ----- what was recorded is what is heard

  predicate Int16(v: int) { -0x8000 <= v < 0x8000 }

  /** Samples as two bytes each, the low one first, negative ones in two's complement. */
  function Encoded(vs: seq<int>): Bytes
    requires forall i :: 0 <= i < |vs| ==> Int16(vs[i])
  {
    if vs == [] then []
    else
      var v := vs[0] % 0x1_0000;
      [v % 256, v / 256] + Encoded(vs[1..])
  }

  lemma {:induction false} EncodedAt(vs: seq<int>, i: nat)
    requires i < |vs| && forall i :: 0 <= i < |vs| ==> Int16(vs[i])
    ensures |Encoded(vs)| == 2 * |vs|
    ensures var v := vs[i] % 0x1_0000; Encoded(vs)[2 * i..2 * i + 2] == [v % 256, v / 256]
    decreases |vs|
  {
    if |vs| > 1 { EncodedAt(vs[1..], if i > 0 then i - 1 else 0); }
    if i > 0 { assert Encoded(vs)[2 * i..2 * i + 2] == Encoded(vs[1..])[2 * (i - 1)..2 * (i - 1) + 2]; }
  }

  lemma SampleDecodes(b: Bytes, h: nat, i: nat, v: int)
    requires Int16(v) && h + 2 * i + 2 <= |b|
    requires var u := v % 0x1_0000; b[h + 2 * i..h + 2 * i + 2] == [u % 256, u / 256]
    ensures SampleAt(b, h, i) == v
  {
    assert b[h + 2 * i] == b[h + 2 * i..h + 2 * i + 2][0] && b[h + 2 * i + 1] == b[h + 2 * i..h + 2 * i + 2][1];
  }

  /** The samples of a file whose audio is the samples `vs`, and perhaps half of one more. */
  lemma DecodesEncoded(b: Bytes, h: nat, vs: seq<int>, half: Bytes, i: nat)
    requires (forall i :: 0 <= i < |vs| ==> Int16(vs[i])) && i < |vs| && h <= |b| && b[h..] == Encoded(vs) + half
    ensures h + 2 * i + 2 <= |b| && SampleAt(b, h, i) == vs[i]
  {
    EncodedAt(vs, i);
    assert b[h + 2 * i..h + 2 * i + 2] == b[h..][2 * i..2 * i + 2] == Encoded(vs)[2 * i..2 * i + 2];
    SampleDecodes(b, h, i, vs[i]);
  }

  /**
   * A recording of 16-bit samples, read while it is written over any schedule of polls that keeps to
   * whole frames, is heard as it was recorded: every channels-th sample, sign and all.
   */
  lemma RecordedIsHeard(files: seq<Option<Bytes>>, vs: seq<int>, half: Bytes)
    requires Grows(files) && OnFrames(files) && (forall i :: 0 <= i < |vs| ==> Int16(vs[i])) && |half| < 2
    requires var b := Seen(files); Readable(b) && b[Start(b)..] == Encoded(vs) + half
    ensures var heard, ps := Run(files).1, Picks(0, |vs|, Channels(Seen(files)));
            |heard| == |ps| && forall k :: 0 <= k < |ps| ==> heard[k] == vs[ps[k]]
  {
    var b := Seen(files);
    var ps := Picks(0, Payload(b), Channels(b));
    if vs != [] { EncodedAt(vs, 0); }
    assert Payload(b) == |vs|;
    RunTakes(files);
    FramesTaken(files);
    AllDecode(b, vs, half, ps);
  }

  lemma AllDecode(b: Bytes, vs: seq<int>, half: Bytes, places: seq<nat>)
    requires (forall i :: 0 <= i < |vs| ==> Int16(vs[i])) && Readable(b) && b[Start(b)..] == Encoded(vs) + half
    requires Below(places, |vs|) && Below(places, Payload(b))
    ensures forall k :: 0 <= k < |places| ==> At(b, places)[k] == vs[places[k]]
  {
    forall k | 0 <= k < |places| ensures At(b, places)[k] == vs[places[k]] {
      DecodesEncoded(b, Start(b), vs, half, places[k]);
    }
  }
}
