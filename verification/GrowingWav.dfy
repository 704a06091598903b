/**
 * The incremental WAV reader of modules/telephony/voice-agent.py, and the header it writes itself.
 * A poll that finds no file is None; a recording that grows is a chain of byte sequences.
 */
module GrowingWav {
  import opened Wrappers

  type Byte = x: int | 0 <= x < 256 witness 0
  type Bytes = seq<Byte>

  const RIFF: Bytes := [82, 73, 70, 70]
  const WAVE: Bytes := [87, 65, 86, 69]
  const FMT: Bytes := [102, 109, 116, 32]
  const DATA: Bytes := [100, 97, 116, 97]

  // ----- little-endian numbers

  const TWO16: int := 0x1_0000
  const TWO32: int := 0x1_0000_0000

  function U16At(b: Bytes, i: nat): nat
    requires i + 2 <= |b|
  {
    var low: int, high: int := b[i], b[i + 1];
    low + 256 * high
  }

  function U32At(b: Bytes, i: nat): nat
    requires i + 4 <= |b|
  {
    U16At(b, i) + TWO16 * U16At(b, i + 2)
  }

  function Pack16(v: nat): Bytes
    requires v < TWO16
  {
    [v % 256, v / 256]
  }

  function Pack32(v: nat): Bytes
    requires v < TWO32
  {
    Pack16(v % TWO16) + Pack16(v / TWO16)
  }

  function Signed(v: nat): int { if v < 0x8000 then v else v - TWO16 }

  /** One 16-bit sample of a payload, by its place in the payload. */
  function SampleAt(b: Bytes, h: nat, i: nat): int
    requires h + 2 * i + 2 <= |b|
  {
    Signed(U16At(b, h + 2 * i))
  }

  // ----- wav_header

  predicate Fits(size: nat, rate: nat, byteRate: nat, align: nat, bits: nat, format: nat, channels: nat) {
    && 36 + size < TWO32 && rate < TWO32 && byteRate < TWO32
    && format < TWO16 && channels < TWO16 && align < TWO16 && bits < TWO16
  }

  function Fields(size: nat, rate: nat, byteRate: nat, align: nat, bits: nat, format: nat, channels: nat): Bytes
    requires Fits(size, rate, byteRate, align, bits, format, channels)
  {
    RIFF + Pack32(36 + size) + WAVE + FMT + Pack32(16) + Pack16(format) + Pack16(channels) + Pack32(rate)
    + Pack32(byteRate) + Pack16(align) + Pack16(bits) + DATA + Pack32(size)
  }

  /** None where struct.pack raises: a size or a rate that does not fit its field. */
  function Packed(size: nat, rate: nat, byteRate: nat, align: nat, bits: nat, format: nat,
                  channels: nat): Option<Bytes> {
    if Fits(size, rate, byteRate, align, bits, format, channels)
    then Some(Fields(size, rate, byteRate, align, bits, format, channels))
    else None
  }

  function Align(channels: nat, bits: nat): nat { channels * bits / 8 }

  function ByteRate(rate: nat, channels: nat, bits: nat): nat { rate * channels * bits / 8 }

  function Size(samples: nat, align: nat): nat { samples * align }

  function WavHeader(samples: nat, rate: nat, bits: nat, format: nat, channels: nat): Option<Bytes> {
    var align := Align(channels, bits);
    Packed(Size(samples, align), rate, ByteRate(rate, channels, bits), align, bits, format, channels)
  }

  // ----- the chunk walk

  /** header_len, channels and bits; None while no data chunk is visible. */
  datatype Header = Header(len: Option<nat>, channels: nat, bits: nat)

  predicate FormatAt(b: Bytes, position: nat)
    requires position + 8 <= |b|
  {
    b[position..position + 4] == FMT && U32At(b, position + 4) >= 16 && position + 24 <= |b|
  }

  function Next(b: Bytes, position: nat): nat
    requires position + 8 <= |b|
  {
    var size := U32At(b, position + 4);
    position + 8 + size + size % 2
  }

  function Walk(b: Bytes, position: nat, channels: nat, bits: nat): Header
    decreases |b| - position
  {
    if position + 8 > |b| then Header(None, channels, bits)
    else
      var ch := if FormatAt(b, position) then U16At(b, position + 10) else channels;
      var bt := if FormatAt(b, position) then U16At(b, position + 22) else bits;
      if b[position..position + 4] == DATA then Header(Some(position + 8), ch, bt)
      else Walk(b, Next(b, position), ch, bt)
  }

  function Parse(b: Bytes, channels: nat, bits: nat): Header {
    if |b| < 12 || b[0..4] != RIFF || b[8..12] != WAVE then Header(None, channels, bits)
    else Walk(b, 12, channels, bits)
  }

  // ----- one poll

  /** The reader's fields. */
  datatype Reader = Reader(offset: nat, header: Header)

  const START: Reader := Reader(0, Header(None, 1, 16))

  /** Python's xs[0::c]. */
  function Stride<T>(xs: seq<T>, c: nat): seq<T>
    requires c > 0
  {
    if xs == [] then [] else [xs[0]] + (if |xs| <= c then [] else Stride(xs[c..], c))
  }

  /** array.frombytes: 16-bit little-endian samples. */
  function Frames(raw: Bytes): (xs: seq<int>)
    requires |raw| % 2 == 0
    ensures |xs| == |raw| / 2
  {
    seq(|raw| / 2, i requires 0 <= i < |raw| / 2 => SampleAt(raw, 0, i))
  }

  function Legs(channels: nat): nat { if channels > 1 then channels else 1 }

  /** Where the whole samples past the offset end. */
  function Usable(b: Bytes, offset: nat): (usable: nat)
    ensures usable > offset ==> usable <= |b| && (usable - offset) % 2 == 0
  {
    var usable := |b| - (|b| - offset) % 2;
    if usable < 0 then 0 else usable
  }

  /** The samples of the caller's leg between two offsets. */
  function Taken(b: Bytes, offset: nat, usable: nat, channels: nat): seq<int>
    requires usable > offset ==> usable <= |b| && (usable - offset) % 2 == 0
  {
    if usable <= offset then [] else Stride(Frames(b[offset..usable]), Legs(channels))
  }

  function Poll(r: Reader, file: Option<Bytes>): (Reader, seq<int>) {
    if file.None? then (r, [])
    else
      var b := file.value;
      var header := if r.header.len.None? then Parse(b, r.header.channels, r.header.bits) else r.header;
      var offset := if r.header.len.None? && header.len.Some? then header.len.value else r.offset;
      if header.len.None? || header.bits != 16 then (Reader(offset, header), [])
      else (Reader(Usable(b, offset), header), Taken(b, offset, Usable(b, offset), header.channels))
  }

  class Recording {
    var offset: nat
    var headerLen: Option<nat>
    var channels: nat
    var bits: nat

    function View(): Reader
      reads this
    {
      Reader(offset, Header(headerLen, channels, bits))
    }

    constructor ()
      ensures View() == START
    {
      offset, headerLen, channels, bits := 0, None, 1, 16;
    }

    method ParseHeader(b: Bytes)
      requires headerLen.None?
      modifies this
      ensures View() == old(Reader(offset, Parse(b, channels, bits)))
    {
      if |b| < 12 || b[0..4] != RIFF || b[8..12] != WAVE { return; }
      var position := 12;
      while position + 8 <= |b|
        invariant headerLen.None? && offset == old(offset)
        invariant Walk(b, position, channels, bits) == old(Parse(b, channels, bits))
        decreases |b| - position
      {
        var id, size, body := b[position..position + 4], U32At(b, position + 4), position + 8;
        assert FormatAt(b, position) <==> id == FMT && size >= 16 && body + 16 <= |b|;
        assert Next(b, position) == body + size + size % 2;
        if id == FMT && size >= 16 && body + 16 <= |b| {
          channels := U16At(b, body + 2);
          bits := U16At(b, body + 14);
        }
        if id == DATA {
          headerLen := Some(body);
          return;
        }
        position := body + size + size % 2;
      }
    }

    method NewCallerSamples(file: Option<Bytes>) returns (samples: seq<int>)
      modifies this
      ensures (View(), samples) == Poll(old(View()), file)
    {
      if file.None? { return []; }
      var b := file.value;
      if headerLen.None? {
        ParseHeader(b);
        if headerLen.None? { return []; }
        offset := headerLen.value;
      }
      if bits != 16 { return []; }
      samples := TakeSamples(b);
    }

    method TakeSamples(b: Bytes) returns (samples: seq<int>)
      modifies this
      ensures View() == Reader(Usable(b, old(offset)), old(View().header))
      ensures samples == Taken(b, old(offset), Usable(b, old(offset)), channels)
    {
      var usable := Usable(b, offset);
      var raw := if offset < usable then b[offset..usable] else [];
      offset := usable;
      if raw == [] { return []; }
      var frames := Frames(raw);
      if channels > 1 { return Stride(frames, channels); }
      StrideOne(frames);
      return frames;
    }
  }

  lemma {:induction false} StrideOne<T>(xs: seq<T>)
    ensures Stride(xs, 1) == xs
    decreases |xs|
  {
    if |xs| > 1 { StrideOne(xs[1..]); }
  }
}
