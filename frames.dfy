/** The byte sequences the sketch writes to the serial link: the text lines of
    `println`, the status frame, the settings frame and the data frame. */
module Frames {
  import opened Bytes

  const StatusTag: byte := 0x58    // 'X'
  const SettingsTag: byte := 0x53  // 'S'
  const CR: byte := 0x0D
  const LF: byte := 0x0A

  const FrameStart: seq<byte> := [0xFF, 0xAA]
  const FrameEnd: seq<byte> := [0x55, 0xEE]

  predicate IsAscii(text: string) {
    forall i :: 0 <= i < |text| ==> text[i] as int < 0x80
  }

  /** The bytes of `println(text)`: the text, then carriage return and line feed. */
  function Println(text: string): (r: seq<byte>)
    requires IsAscii(text)
    ensures |r| == |text| + 2
    ensures forall i :: 0 <= i < |text| ==> r[i] as int == text[i] as int
    ensures r[|text|] == CR && r[|text| + 1] == LF
  {
    seq(|text|, i requires 0 <= i < |text| => text[i] as int as byte) + [CR, LF]
  }

  const StartedLine: seq<byte> := Println("Sampling STARTED")
  const StoppedLine: seq<byte> := Println("Sampling STOPPED")

  /** The status frame: 'X', then 1 or 0 for the active flag and for the paused flag. */
  function StatusFrame(active: bool, paused: bool): (r: seq<byte>)
    ensures |r| == 3 && r[0] == StatusTag
    ensures r[1] <= 1 && (r[1] == 1 <==> active)
    ensures r[2] <= 1 && (r[2] == 1 <==> paused)
  {
    [StatusTag, if active then 1 else 0, if paused then 1 else 0]
  }

  /** The sampling-rate table in hundredths of a kSPS (615.4, 307.7, 153.8, 76.9,
      38.5, 19.2, 9.6). Each single-precision value lies just above its decimal, so
      truncating it to hundredths gives these integers. */
  const RateCentis: seq<nat> := [61540, 30770, 15380, 7690, 3850, 1920, 960]

  /** The byte cast of the integer part is defined only when that part fits a byte,
      which is not so for the first two entries. */
  predicate RateFitsByte(index: nat) {
    index < |RateCentis| && RateCentis[index] / 100 < 256
  }

  /** The integer part of a table rate, cast to a byte. */
  function RateWhole(index: byte): byte
    requires RateFitsByte(index as nat)
  {
    (RateCentis[index] / 100) as byte
  }

  /** The fractional part of a table rate in hundredths, truncated. */
  function RateHundredths(index: byte): byte
    requires index as nat < |RateCentis|
  {
    (RateCentis[index] % 100) as byte
  }

  /** The settings frame for a table index: 'S', the index, then the rate split into
      a whole part and hundredths, from which the host recovers the table entry. */
  function SettingsFrame(index: byte): (r: seq<byte>)
    requires RateFitsByte(index as nat)
    ensures |r| == 4 && r[0] == SettingsTag && r[1] == index
    ensures r[3] < 100 && r[2] as int * 100 + r[3] as int == RateCentis[index]
  {
    var rate := RateCentis[index];
    assert (rate / 100) * 100 + rate % 100 == rate;
    [SettingsTag, index, RateWhole(index), RateHundredths(index)]
  }

  /** The data frame: start marker, the samples in index order, end marker. */
  function DataFrame(samples: seq<byte>): (r: seq<byte>)
    ensures |r| == |samples| + 4
    ensures r[0] == 0xFF && r[1] == 0xAA && r[|r| - 2] == 0x55 && r[|r| - 1] == 0xEE
    ensures forall i :: 0 <= i < |samples| ==> r[i + 2] == samples[i]
  {
    FrameStart + samples + FrameEnd
  }

  /** The only settings frame the sketch ever sends, the one for index 2. */
  lemma SettingsFrameForIndexTwo()
    ensures SettingsFrame(2) == [SettingsTag, 2, 153, 80]
  {
  }

  /** Every byte of the two text lines is ASCII, below the 0xFF that opens a data
      frame. */
  lemma {:induction false} TextLinesAreAscii()
    ensures forall i :: 0 <= i < |StartedLine| ==> StartedLine[i] < 0x80
    ensures forall i :: 0 <= i < |StoppedLine| ==> StoppedLine[i] < 0x80
  {
  }
}
