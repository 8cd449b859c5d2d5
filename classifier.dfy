/** The conversion-complete interrupt: the 8-bit reading (the high byte of
    the left-adjusted ADC result) is sorted into one of three bands, and the
    band's fixed four-character message is published as the patterns of the
    thousands, hundreds, tens and units digits. */
module Classifier {
  import opened Bytes

  /** The four segment patterns shown, one per digit position. */
  datatype DigitSet = DigitSet(thousands: Byte, hundreds: Byte, tens: Byte, units: Byte)

  /** The patterns in display order, thousands first. */
  function AsSeq(d: DigitSet): (s: seq<Byte>)
    ensures |s| == 4
    ensures s[0] == d.thousands && s[1] == d.hundreds && s[2] == d.tens && s[3] == d.units
  {
    [d.thousands, d.hundreds, d.tens, d.units]
  }

  // Seven-segment patterns of the letters the messages use.
  const GlyphLowerB: Byte := 0x7C  // b
  const GlyphA: Byte := 0xF7       // A
  const GlyphJ: Byte := 0x0E       // J
  const GlyphI: Byte := 0x06       // I
  const GlyphE: Byte := 0xF9       // E
  const GlyphLowerN: Byte := 0x54  // n
  const GlyphL: Byte := 0x38       // L
  const GlyphLowerT: Byte := 0x78  // t

  /** "bAJA" (low), "bIEn" (middle), "ALtA" (high). */
  const LowRow: DigitSet := DigitSet(GlyphLowerB, GlyphA, GlyphJ, GlyphA)
  const MidRow: DigitSet := DigitSet(GlyphLowerB, GlyphI, GlyphE, GlyphLowerN)
  const HighRow: DigitSet := DigitSet(GlyphA, GlyphL, GlyphLowerT, GlyphA)

  /** The three range guards, each a closed range of readings. */
  predicate InLow(v: Byte) { 0 <= v <= 50 }
  predicate InMid(v: Byte) { 51 <= v <= 100 }
  predicate InHigh(v: Byte) { 101 <= v <= 255 }

  datatype Band = Low | Mid | High

  /** The band of a reading: the one whose guard holds. Since the three
      equivalences fix the band, this states that exactly one guard holds
      for every byte. */
  function BandOf(v: Byte): (b: Band)
    ensures b == Low <==> InLow(v)
    ensures b == Mid <==> InMid(v)
    ensures b == High <==> InHigh(v)
  {
    if v <= 50 then Low else if v <= 100 then Mid else High
  }

  /** The lookup table: one fixed message per band. */
  function Row(b: Band): (d: DigitSet)
    ensures d in {LowRow, MidRow, HighRow}
  {
    match b
    case Low => LowRow
    case Mid => MidRow
    case High => HighRow
  }

  /** The interrupt handler as written: three independent guarded writes
      applied in turn to the previous digits `prev`, a later write
      overriding an earlier one. The result is the table row of the
      reading's band, whatever `prev` was. */
  function Classify(v: Byte, prev: DigitSet): (r: DigitSet)
    ensures r == Row(BandOf(v))
    ensures r in {LowRow, MidRow, HighRow}
  {
    var afterLow := if InLow(v) then LowRow else prev;
    var afterMid := if InMid(v) then MidRow else afterLow;
    if InHigh(v) then HighRow else afterMid
  }

  /** The ranges are disjoint and cover every byte: exactly one of the
      three guards holds, so exactly one row is written. */
  lemma GuardsPartition(v: Byte)
    ensures InLow(v) || InMid(v) || InHigh(v)
    ensures !(InLow(v) && InMid(v)) && !(InLow(v) && InHigh(v)) && !(InMid(v) && InHigh(v))
  {
  }

  /** The exact rows of the table, digit by digit. */
  lemma ClassifyRows(v: Byte, prev: DigitSet)
    ensures InLow(v) ==> Classify(v, prev) == DigitSet(0x7C, 0xF7, 0x0E, 0xF7)
    ensures InMid(v) ==> Classify(v, prev) == DigitSet(0x7C, 0x06, 0xF9, 0x54)
    ensures InHigh(v) ==> Classify(v, prev) == DigitSet(0xF7, 0x38, 0x78, 0xF7)
  {
  }

  /** The published digits depend on the reading alone: the previous
      digits do not matter, and classifying the same reading again
      republishes the same digits. */
  lemma ClassifyIdempotent(v: Byte, prev: DigitSet, other: DigitSet)
    ensures Classify(v, prev) == Classify(v, other)
    ensures Classify(v, Classify(v, prev)) == Classify(v, prev)
  {
  }
}
