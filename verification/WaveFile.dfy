/**
 The bytes of a recorded part: samples quantised to 24 bits, little endian, behind a 44-byte
 header as in "Waveform Audio File Format (WAVE)" of the IBM/Microsoft Multimedia
 Programming Interface and Data Specifications 1.0. A reader that follows the format gets
 back what was written.
 */
module WaveFile {

  import opened Arithmetic
  import opened Wrappers

  type Byte = b: int | 0 <= b < 256

  // A float sample; only its finiteness and its value matter.
  datatype Sample = NotFinite | Finite(value: real)

  const FULL_SCALE := 8388607

  function Clamped(x: real): (r: real)
    ensures -1.0 <= r <= 1.0
    ensures -1.0 <= x <= 1.0 ==> r == x
  {
    if x < -1.0 then -1.0 else if x > 1.0 then 1.0 else x
  }

  predicate IsCode(code: int) { -FULL_SCALE <= code <= FULL_SCALE }

  function Quantised(v: Sample): (code: int)
    ensures IsCode(code)
  {
    Rounded(Clamped(if v.Finite? then v.value else 0.0) * FULL_SCALE as real)
  }

  function QuantisedAll(samples: seq<Sample>): (codes: seq<int>)
    ensures |codes| == |samples|
    ensures forall i :: 0 <= i < |codes| ==> codes[i] == Quantised(samples[i])
  {
    seq(|samples|, i requires 0 <= i < |samples| => Quantised(samples[i]))
  }

  /** Within full scale, a code is at most half a step away from its sample. */
  lemma QuantisedIsNear(v: real)
    requires -1.0 <= v <= 1.0
    ensures Distance(v * FULL_SCALE as real, Quantised(Finite(v)) as real) <= 0.5
  {
    var r := Rounded(v * FULL_SCALE as real);
  }

  /** The code of a finite sample is the legal code nearest to it, of two equally near the one
      farther from zero: overs stay at full scale on their own side. A sample that is not finite
      is silence. */
  lemma {:induction false} QuantisedIsNearest(v: real, c: int)
    requires IsCode(c)
    ensures var x, q := v * FULL_SCALE as real, Quantised(Finite(v));
      && IsCode(q) && Distance(x, q as real) <= Distance(x, c as real)
      && (c != q && Distance(x, q as real) == Distance(x, c as real) ==>
            Distance(c as real, 0.0) < Distance(q as real, 0.0))
    ensures Quantised(NotFinite) == 0
  {
    var q := Quantised(Finite(v));
    if -1.0 <= v <= 1.0 {
      assert q == Rounded(v * FULL_SCALE as real);
      RoundedIsNearest(v * FULL_SCALE as real, c);
    } else {
      RoundedIsNearest(Clamped(v) * FULL_SCALE as real, q);
    }
  }

  lemma {:induction false} RoundedIsNearest(x: real, n: int)
    ensures var r := Rounded(x);
      && Distance(x, r as real) <= Distance(x, n as real)
      && (n != r && Distance(x, r as real) == Distance(x, n as real) ==>
            Distance(n as real, 0.0) < Distance(r as real, 0.0))
    ensures x == n as real ==> Rounded(x) == n
  {
  }

  // ---- Little endian numbers -------------------------------------------------------

  function Power256(n: nat): (p: nat)
    ensures p > 0
  {
    if n == 0 then 1 else 256 * Power256(n - 1)
  }

  // The `width` low bytes of a number, lowest first.
  function LittleEndian(value: nat, width: nat): (bytes: seq<Byte>)
    ensures |bytes| == width
  {
    if width == 0 then [] else [value % 256] + LittleEndian(value / 256, width - 1)
  }

  function FromLittleEndian(bytes: seq<Byte>): nat
  {
    if bytes == [] then 0 else bytes[0] + 256 * FromLittleEndian(bytes[1..])
  }

  lemma {:induction false} LittleEndianRoundTrip(value: nat, width: nat)
    requires value < Power256(width)
    ensures FromLittleEndian(LittleEndian(value, width)) == value
  {
    if width > 0 {
      LittleEndianRoundTrip(value / 256, width - 1);
      assert LittleEndian(value, width)[1..] == LittleEndian(value / 256, width - 1);
    }
  }

  // ---- Samples ---------------------------------------------------------------------

  // A code as the low three bytes of its two's complement.
  function Encode(code: int): (bytes: seq<Byte>)
    requires IsCode(code)
    ensures |bytes| == 3
  {
    var word := if code < 0 then code + 0x1_0000_0000 else code;
    [word % 256, word / 256 % 256, word / 65536 % 256]
  }

  // Reads a signed 24-bit number.
  function Decode(bytes: seq<Byte>): int
    requires |bytes| == 3
  {
    var n: int := bytes[0] as int + 256 * bytes[1] as int + 65536 * bytes[2] as int;
    if bytes[2] >= 128 then n - 0x100_0000 else n
  }

  lemma EncodeRoundTrip(code: int)
    requires IsCode(code)
    ensures Decode(Encode(code)) == code
  {
    var word := if code < 0 then code + 0x1_0000_0000 else code;
    var high := word / 65536;
    assert word == word % 256 + 256 * (word / 256 % 256) + 65536 * high;
    assert high % 256 == if code < 0 then high - 0xff00 else high;
  }

  function EncodeAll(codes: seq<int>): (bytes: seq<Byte>)
    requires forall i :: 0 <= i < |codes| ==> IsCode(codes[i])
    ensures |bytes| == 3 * |codes|
  {
    if codes == [] then [] else Encode(codes[0]) + EncodeAll(codes[1..])
  }

  function DecodeAll(bytes: seq<Byte>): (codes: seq<int>)
    ensures |codes| == |bytes| / 3
  {
    if |bytes| < 3 then [] else [Decode(bytes[..3])] + DecodeAll(bytes[3..])
  }

  lemma {:induction false} EncodeAllRoundTrip(codes: seq<int>)
    requires forall i :: 0 <= i < |codes| ==> IsCode(codes[i])
    ensures DecodeAll(EncodeAll(codes)) == codes
  {
    if codes != [] {
      var bytes := EncodeAll(codes);
      EncodeRoundTrip(codes[0]);
      EncodeAllRoundTrip(codes[1..]);
      assert bytes[..3] == Encode(codes[0]) && bytes[3..] == EncodeAll(codes[1..]);
    }
  }

  // ---- The header ------------------------------------------------------------------

  const RIFF: seq<Byte> := [0x52, 0x49, 0x46, 0x46]
  const WAVE_FMT: seq<Byte> := [0x57, 0x41, 0x56, 0x45, 0x66, 0x6d, 0x74, 0x20]
  const DATA: seq<Byte> := [0x64, 0x61, 0x74, 0x61]

  // Unsigned 32-bit arithmetic wraps.
  function Word32(x: nat): nat { x % 0x1_0000_0000 }

  // RIFF chunk size, format chunk size, PCM, two channels.
  function Front(dataBytes: nat): (bytes: seq<Byte>)
    ensures |bytes| == 24
  {
    RIFF + LittleEndian(Word32(dataBytes + 36), 4) + WAVE_FMT + LittleEndian(16, 4) + LittleEndian(1, 2)
    + LittleEndian(2, 2)
  }

  // Frames a second, bytes a second, bytes a frame, bits a sample, data chunk size.
  function Back(rate: nat, dataBytes: nat): (bytes: seq<Byte>)
    ensures |bytes| == 20
  {
    LittleEndian(rate, 4) + LittleEndian(Word32(rate * 6), 4) + LittleEndian(6, 2) + LittleEndian(24, 2) + DATA
    + LittleEndian(dataBytes, 4)
  }

  function Header(rate: nat, dataBytes: nat): (bytes: seq<Byte>)
    ensures |bytes| == 44
  {
    Front(dataBytes) + Back(rate, dataBytes)
  }

  datatype Wave = Wave(channels: nat, rate: nat, bits: nat, data: seq<Byte>)

  function Field(bytes: seq<Byte>, from: nat, width: nat): nat
    requires from + width <= |bytes|
  {
    FromLittleEndian(bytes[from..from + width])
  }

  // Reads a file as the format says: the RIFF chunk fills the file, the format chunk is
  // plain PCM with consistent rates, and the data chunk is the rest.
  function Read(bytes: seq<Byte>): Option<Wave>
  {
    if |bytes| < 44 || bytes[0..4] != RIFF || bytes[8..16] != WAVE_FMT || bytes[36..40] != DATA then None
    else
      var channels, rate, bits := Field(bytes, 22, 2), Field(bytes, 24, 4), Field(bytes, 34, 2);
      var size := Field(bytes, 40, 4);
      if && Field(bytes, 4, 4) == |bytes| - 8 && Field(bytes, 16, 4) == 16 && Field(bytes, 20, 2) == 1
         && 8 * Field(bytes, 32, 2) == channels * bits && Field(bytes, 28, 4) == rate * Field(bytes, 32, 2)
         && size == |bytes| - 44
      then Some(Wave(channels, rate, bits, bytes[44..])) else None
  }

  lemma {:induction false} FieldOf(before: seq<Byte>, value: nat, width: nat, after: seq<Byte>)
    requires value < Power256(width)
    ensures Field(before + LittleEndian(value, width) + after, |before|, width) == value
  {
    var bytes := before + LittleEndian(value, width) + after;
    assert bytes[|before|..|before| + width] == LittleEndian(value, width);
    LittleEndianRoundTrip(value, width);
  }

  lemma PowersOf256()
    ensures Power256(2) == 0x1_0000 && Power256(4) == 0x1_0000_0000
  {
    assert Power256(1) == 256 && Power256(2) == 256 * Power256(1) && Power256(3) == 256 * Power256(2);
  }

  lemma {:induction false} FieldIn(file: seq<Byte>, before: seq<Byte>, value: nat, width: nat)
    requires before + LittleEndian(value, width) <= file && value < Power256(width)
    ensures Field(file, |before|, width) == value
  {
    var end := |before| + width;
    assert file == before + LittleEndian(value, width) + file[end..];
    FieldOf(before, value, width, file[end..]);
  }

  lemma {:induction false} FrontFields(file: seq<Byte>, n: nat)
    requires Front(n) <= file && n + 36 < 0x1_0000_0000
    ensures file[0..4] == RIFF && file[8..16] == WAVE_FMT
    ensures Field(file, 4, 4) == n + 36 && Field(file, 16, 4) == 16 && Field(file, 20, 2) == 1
    ensures Field(file, 22, 2) == 2
  {
    PowersOf256();
    hide LittleEndian, FromLittleEndian, Power256, Field;
    var p4 := RIFF + LittleEndian(n + 36, 4) + WAVE_FMT;
    assert file[..24] == Front(n);
    assert RIFF + LittleEndian(n + 36, 4) <= file[..24];
    FieldIn(file, RIFF, n + 36, 4);
    FieldIn(file, p4, 16, 4);
    FieldIn(file, p4 + LittleEndian(16, 4), 1, 2);
    FieldIn(file, p4 + LittleEndian(16, 4) + LittleEndian(1, 2), 2, 2);
  }

  lemma {:induction false} BackFields(file: seq<Byte>, front: seq<Byte>, rate: nat, n: nat)
    requires front + Back(rate, n) <= file && |front| == 24
    requires rate * 6 < 0x1_0000_0000 && n < 0x1_0000_0000
    ensures file[36..40] == DATA
    ensures Field(file, 24, 4) == rate && Field(file, 28, 4) == rate * 6 && Field(file, 32, 2) == 6
    ensures Field(file, 34, 2) == 24 && Field(file, 40, 4) == n
  {
    PowersOf256();
    hide LittleEndian, FromLittleEndian, Power256, Field;
    var q := front + LittleEndian(rate, 4) + LittleEndian(rate * 6, 4);
    var r := q + LittleEndian(6, 2) + LittleEndian(24, 2);
    assert file[..44] == front + Back(rate, n);
    assert file[..44] == r + DATA + LittleEndian(n, 4);
    assert r[..36] == r && file[36..40] == DATA;
    FieldIn(file, front, rate, 4);
    FieldIn(file, front + LittleEndian(rate, 4), rate * 6, 4);
    FieldIn(file, q, 6, 2);
    FieldIn(file, q + LittleEndian(6, 2), 24, 2);
    FieldIn(file, r + DATA, n, 4);
  }

  /** A file made of a header with the right length and its data is read back as stereo
      24-bit audio of that rate, as long as the sizes fit in 32 bits. */
  lemma {:induction false} FileRoundTrip(rate: nat, data: seq<Byte>)
    requires rate * 6 < 0x1_0000_0000 && |data| + 36 < 0x1_0000_0000
    ensures Read(Header(rate, |data|) + data) == Some(Wave(2, rate, 24, data))
  {
    var file := Header(rate, |data|) + data;
    FrontFields(file, |data|);
    BackFields(file, Front(|data|), rate, |data|);
    hide Field, Front, Back;
    assert file[44..] == data;
  }
}
