/**
 * Decoding the Heart Rate Measurement characteristic (0x2A37) of the Bluetooth
 * SIG Heart Rate Service, v1.0, section 3.1: bit 0 of the flags byte selects an
 * 8-bit value or a 16-bit little-endian value right after the flags.
 */
module HeartRate {

  /** One byte of the characteristic's value. */
  type byte = x: int | 0 <= x < 256

  /** The outcome of `parseHeartRate`; reading past the end of the `DataView` throws a RangeError. */
  datatype Reading = Bpm(value: nat) | RangeError

  /** Bit 0 of the flags byte: the value is 16 bits wide. */
  predicate IsWide(flags: byte) {
    (flags as bv8) & 0x01 != 0
  }

  /** `parseHeartRate`: 0 for an empty payload, else the value the flags byte announces. */
  function ParseHeartRate(data: seq<byte>): (r: Reading)
    ensures r.RangeError? <==> |data| == 1 || (|data| == 2 && IsWide(data[0]))
    ensures r.Bpm? && data != [] && !IsWide(data[0]) ==> r.value < 256
    ensures r.Bpm? ==> r.value < 65536
  {
    if |data| == 0 then Bpm(0)
    else
      var flags := data[0];
      if !IsWide(flags) then
        (if |data| < 2 then RangeError else Bpm(data[1]))
      else
        (if |data| < 3 then RangeError else Bpm(data[1] as int + 256 * data[2] as int))
  }

  /** A minimal measurement carrying `bpm`, flags 0x00 (8-bit) or 0x01 (16-bit little-endian). */
  function EncodeMeasurement(bpm: nat, wide: bool): (data: seq<byte>)
    requires bpm < if wide then 65536 else 256
    ensures |data| == if wide then 3 else 2
  {
    if wide then [0x01, bpm % 256, bpm / 256]
    else [0x00, bpm]
  }

  /** Every value that fits the chosen width is decoded back unchanged. */
  lemma ParseEncoded(bpm: nat, wide: bool)
    requires bpm < if wide then 65536 else 256
    ensures ParseHeartRate(EncodeMeasurement(bpm, wide)) == Bpm(bpm)
  {
    assert IsWide(0x01) && !IsWide(0x00);
  }

  /** A minimal measurement with flags 0 or 1 is exactly the encoding of what it decodes to. */
  lemma EncodeParsed(data: seq<byte>)
    requires |data| >= 1 && (data[0] == 0x00 || data[0] == 0x01)
    requires |data| == if data[0] == 0x01 then 3 else 2
    ensures ParseHeartRate(data).Bpm?
    ensures EncodeMeasurement(ParseHeartRate(data).value, data[0] == 0x01) == data
  {
    assert IsWide(0x01) && !IsWide(0x00);
  }

  /** Only bit 0 of the flags byte is consulted. */
  lemma OnlyBitZeroMatters(data: seq<byte>, flags: byte)
    requires data != [] && IsWide(flags) == IsWide(data[0])
    ensures ParseHeartRate([flags] + data[1..]) == ParseHeartRate(data)
  {
  }

  /** Bytes after the value (energy expended, RR intervals) do not change it. */
  lemma TrailingBytesIgnored(data: seq<byte>, extra: seq<byte>)
    requires ParseHeartRate(data).Bpm? && data != []
    ensures ParseHeartRate(data + extra) == ParseHeartRate(data)
  {
  }

  /** The decoder's worked examples. */
  lemma ParseExamples()
    ensures ParseHeartRate([0x00, 72]) == Bpm(72)
    ensures ParseHeartRate([0x01, 0x2C, 0x01]) == Bpm(300)
    ensures ParseHeartRate([]) == Bpm(0)
    ensures ParseHeartRate([0x00, 0xC8]) == Bpm(200)
  {
  }

  /** Payloads cut before the value: `getUint8(1)` or `getUint16(1, true)` reads past the end and throws. */
  lemma CutShortPayloads()
    ensures ParseHeartRate([0x00]) == RangeError
    ensures ParseHeartRate([0x01]) == RangeError
    ensures ParseHeartRate([0x01, 0x2C]) == RangeError
  {
  }
}
