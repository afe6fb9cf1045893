/** The two ATmega16 converter registers the sketch touches, ADCSRA (control and
    status) and ADMUX (multiplexer selection), as plain bytes, with the datasheet's
    bit positions and the sketch's prescaler table. */
module Registers {

  // ADCSRA bit positions
  const ADEN: nat := 7
  const ADSC: nat := 6
  const ADATE: nat := 5
  const ADIE: nat := 3
  const ADPS2: nat := 2
  const ADPS1: nat := 1
  const ADPS0: nat := 0

  // ADMUX bit positions
  const REFS1: nat := 7
  const REFS0: nat := 6

  /** The byte with only bit `n` set, the value of `(1 << n)`. */
  function Bit(n: nat): bv8
    requires n < 8
  {
    (1 as bv8) << n
  }

  /** The prescaler table of the sketch: the intended clock division factors. */
  const Prescalers: seq<bv8> := [2, 4, 8, 16, 32, 64, 128]
  const PrescalerCount := 7

  /** The ADPS2..ADPS0 field of ADCSRA. */
  function PrescalerField(adcsra: bv8): bv8 {
    adcsra & 7
  }

  /** The value ADCSRA holds after an accepted prescaler index: the converter
      enabled, auto-triggered and interrupting, and the low three bits of the table
      entry copied into ADPS2..ADPS0. */
  function PrescalerControl(index: nat): (r: bv8)
    requires index < PrescalerCount
    ensures r & Bit(ADEN) != 0 && r & Bit(ADATE) != 0 && r & Bit(ADIE) != 0
    ensures r & Bit(ADSC) == 0
    ensures PrescalerField(r) == Prescalers[index] & 7
  {
    Bit(ADEN) | Bit(ADATE) | Bit(ADIE) | (Prescalers[index] & 7)
  }

  /** The clock division factor the ATmega16 datasheet assigns to an ADPS field. */
  function DivisionFactor(field: bv8): nat
    requires field < 8
  {
    match field
    case 0 => 2
    case 1 => 2
    case 2 => 4
    case 3 => 8
    case 4 => 16
    case 5 => 32
    case 6 => 64
    case _ => 128
  }

  /** The factor the converter really runs at after each accepted index: the
      table's value is copied bit-for-bit into a field that encodes a power of
      two, so no index gets the division the table names. */
  lemma ProgrammedDivisionFactor(index: nat)
    requires index < PrescalerCount
    ensures DivisionFactor(PrescalerField(PrescalerControl(index))) == [4, 16, 2, 2, 2, 2, 2][index]
    ensures DivisionFactor(PrescalerField(PrescalerControl(index))) != Prescalers[index] as nat
  {
  }

  /** The REFS bits ORed into ADMUX by setVoltageReference: REFS0 alone when the
      flag is set, REFS1 and REFS0 otherwise. */
  function ReferenceBits(useInternal: bool): bv8 {
    if useInternal then Bit(REFS0) else Bit(REFS0) | Bit(REFS1)
  }
}
