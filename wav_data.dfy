/**
 * The WAV file record and the header sniff that classifies a file's sample rate
 * (`detect_sample_rate`), together with the checksum rule `config_exists` applies.
 */
module WavData {
  import opened Wrappers

  /** Rust's `u64`. */
  type u64 = x: int | 0 <= x < 0x1_0000_0000_0000_0000

  /** Rust's `u8`. */
  newtype byte = x: int | 0 <= x < 0x100

  type Bytes = seq<byte>

  /** Detected sample rate of a WAV file. */
  datatype WaveSampleRate = F48000 | F44100 | F96000 | Unknown | Damaged

  /**
   * One located WAV file: absolute path, path relative to the scanned directory,
   * detected sample rate and content checksum (0 for a damaged file).
   */
  datatype WavFileData = WavFileData(path: string, relativePath: string, sampleRate: WaveSampleRate, checksum: u64)

  /** Number of header bytes `detect_sample_rate` reads. */
  const HeaderLength: nat := 28

  const Riff: Bytes := [0x52, 0x49, 0x46, 0x46]  // "RIFF"
  const Wave: Bytes := [0x57, 0x41, 0x56, 0x45]  // "WAVE"

  /** `u32::from_le_bytes`. */
  function LeU32(b: Bytes): (n: nat)
    requires |b| == 4
    ensures n < 0x1_0000_0000
  {
    b[0] as nat + 0x100 * b[1] as nat + 0x1_0000 * b[2] as nat + 0x100_0000 * b[3] as nat
  }

  /** `u32::to_le_bytes`. */
  function LeBytes(n: nat): (b: Bytes)
    requires n < 0x1_0000_0000
    ensures |b| == 4
  {
    [(n % 0x100) as byte, (n / 0x100 % 0x100) as byte, (n / 0x1_0000 % 0x100) as byte, (n / 0x100_0000) as byte]
  }

  /** Euclidean division by 256 is determined by its quotient and remainder. */
  lemma DivMod256(n: nat, q: nat, r: nat)
    requires r < 0x100 && n == r + 0x100 * q
    ensures n % 0x100 == r && n / 0x100 == q
  {
  }

  lemma DivByPowers(n: nat)
    ensures n / 0x1_0000 == n / 0x100 / 0x100
    ensures n / 0x100_0000 == n / 0x100 / 0x100 / 0x100
  {
    var q1 := n / 0x100;
    var q2 := q1 / 0x100;
    var q3 := q2 / 0x100;
    DivMod256(n, q1, n % 0x100);
    DivMod256(q1, q2, q1 % 0x100);
    DivMod256(q2, q3, q2 % 0x100);
    assert n == (n % 0x100 + 0x100 * (q1 % 0x100)) + 0x1_0000 * q2;
    assert n == (n % 0x100 + 0x100 * (q1 % 0x100) + 0x1_0000 * (q2 % 0x100)) + 0x100_0000 * q3;
  }

  lemma LeU32OfLeBytes(n: nat)
    requires n < 0x1_0000_0000
    ensures LeU32(LeBytes(n)) == n
  {
    DivByPowers(n);
    var q1 := n / 0x100;
    var q2 := q1 / 0x100;
    var q3 := q2 / 0x100;
    DivMod256(n, q1, n % 0x100);
    DivMod256(q1, q2, q1 % 0x100);
    DivMod256(q2, q3, q2 % 0x100);
    var b := LeBytes(n);
    assert b[0] as nat == n % 0x100;
    assert b[1] as nat == q1 % 0x100;
    assert b[2] as nat == q2 % 0x100;
    assert b[3] as nat == q3;
  }

  lemma LeBytesOfLeU32(b: Bytes)
    requires |b| == 4
    ensures LeBytes(LeU32(b)) == b
  {
    var n := LeU32(b);
    var x0, x1, x2, x3 := b[0] as nat, b[1] as nat, b[2] as nat, b[3] as nat;
    var q2 := x2 + 0x100 * x3;
    var q1 := x1 + 0x100 * q2;
    assert n == x0 + 0x100 * q1;
    DivMod256(n, q1, x0);
    DivMod256(q1, q2, x1);
    DivMod256(q2, x3, x2);
    DivByPowers(n);
    var r := LeBytes(n);
    assert r[0] == b[0] && r[1] == b[1] && r[2] == b[2] && r[3] == b[3];
  }

  /** At least 28 bytes, "RIFF" at offset 0 and "WAVE" at offset 8. */
  predicate HasWavHeader(data: Bytes) {
    |data| >= HeaderLength && data[0..4] == Riff && data[8..12] == Wave
  }

  /** The little-endian sample-rate field at offset 24. */
  function SampleRateField(data: Bytes): (n: nat)
    requires |data| >= HeaderLength
    ensures n < 0x1_0000_0000
  {
    LeU32(data[24..28])
  }

  /** The rate class of a sample-rate value. */
  function RateClass(rate: nat): WaveSampleRate {
    if rate == 44100 then F44100
    else if rate == 48000 then F48000
    else if rate == 96000 then F96000
    else Unknown
  }

  /**
   * `detect_sample_rate` on the contents of a file (`None` when it cannot be opened):
   * Damaged when the file cannot be opened, is shorter than the header, or has the wrong
   * magic; otherwise the class of the sample-rate field.
   */
  function DetectSampleRate(file: Option<Bytes>): (r: WaveSampleRate)
    ensures r == Damaged <==> file.None? || !HasWavHeader(file.value)
  {
    match file
    case None => Damaged
    case Some(data) =>
      if |data| < HeaderLength then Damaged
      else if data[0..4] != Riff || data[8..12] != Wave then Damaged
      else RateClass(SampleRateField(data))
  }

  /** A minimal header: magic, a RIFF size, "WAVE", twelve bytes of format chunk, then the rate. */
  function MakeHeader(riffSize: Bytes, format: Bytes, rate: nat): (h: Bytes)
    requires |riffSize| == 4 && |format| == 12 && rate < 0x1_0000_0000
    ensures |h| == HeaderLength
  {
    Riff + riffSize + Wave + format + LeBytes(rate)
  }

  /** Classifying a file that starts with a header for `rate` yields the class of `rate`. */
  lemma DetectMakeHeader(riffSize: Bytes, format: Bytes, rate: nat, rest: Bytes)
    requires |riffSize| == 4 && |format| == 12 && rate < 0x1_0000_0000
    ensures DetectSampleRate(Some(MakeHeader(riffSize, format, rate) + rest)) == RateClass(rate)
  {
    var data := MakeHeader(riffSize, format, rate) + rest;
    assert data[0..4] == Riff;
    assert data[8..12] == Wave;
    assert data[24..28] == LeBytes(rate);
    LeU32OfLeBytes(rate);
  }

  /** Only the first 28 bytes matter: appending bytes never changes the classification. */
  lemma DetectIgnoresTrailingBytes(data: Bytes, extra: Bytes)
    requires |data| >= HeaderLength
    ensures DetectSampleRate(Some(data + extra)) == DetectSampleRate(Some(data))
  {
    var d := data + extra;
    assert d[0..4] == data[0..4];
    assert d[8..12] == data[8..12];
    assert d[24..28] == data[24..28];
  }

  /**
   * The checksum recorded for a file: the hash of its whole content when it is readable and
   * has a WAV header, otherwise the damaged sentinel 0.
   */
  function Checksum(file: Option<Bytes>, hash: Bytes -> u64): (c: u64)
    ensures DetectSampleRate(file) == Damaged ==> c == 0
    ensures DetectSampleRate(file) != Damaged ==> c == hash(file.value)
  {
    if file.Some? && HasWavHeader(file.value) then hash(file.value) else 0
  }
}
