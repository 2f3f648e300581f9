/** Format providers: a culture, or an instance of the detailed customer
    formatter (which the host recognises as a custom formatter). */
module Providers {
  import opened Text

  /** The part of a culture's number-format information that the rendering
      of an integral decimal depends on. */
  datatype Culture = Culture(name: string, negativeSign: string)

  /** The identity of one CustomerDetailedFormatter object: two references
      denote the same instance exactly when they are equal. */
  datatype FormatterRef = FormatterRef(id: nat)

  /** An IFormatProvider as the modelled code meets it. */
  datatype Provider =
    | CultureProvider(culture: Culture)
    | CustomFormatterProvider(formatter: FormatterRef)

  /** decimal.ToString(culture) for a decimal with no fractional part: its
      digits, preceded by the culture's negative sign when negative. */
  function DecimalToString(culture: Culture, v: int): string
  {
    if v < 0 then culture.negativeSign + DecimalDigits(-v) else DecimalDigits(v)
  }

  /** A non-negative amount is written with digits only, the same in every
      culture, and those digits read back as the amount. */
  lemma DecimalToStringReadsBack(culture: Culture, other: Culture, v: int)
    requires v >= 0
    ensures AllDigits(DecimalToString(culture, v))
    ensures TrailingNumber(DecimalToString(culture, v)) == v
    ensures DecimalToString(culture, v) == DecimalToString(other, v)
  {
    NumberAfterSeparator([], v);
    assert [] + DecimalDigits(v) == DecimalDigits(v);
  }
}
