/** IFormatProviderRealization.CustomerDetailedFormatter: a stateless
    format provider that is also a custom formatter and renders a customer
    as one detailed sentence. */
module DetailedFormatter {
  import opened Results
  import opened Text
  import opened Providers
  import opened Customers

  /** The Type token passed to GetFormat: typeof(ICustomFormatter), or any
      other type. */
  datatype FormatType = CustomFormatterType | OtherFormatType(typeName: string)

  /** The object handed to Format: a Customer, a decimal (an IFormattable
      whose text depends on the culture), an object that is not
      IFormattable (a string, say; given by the text its ToString()
      returns), or null. */
  datatype Arg = CustomerArg(customer: Customer) | DecimalArg(amount: int) | OtherArg(text: string) | NullArg

  /** GetFormat: the formatter offers itself as the custom formatter and
      offers nothing else. */
  function GetFormat(self: FormatterRef, formatType: FormatType): (r: Option<FormatterRef>)
    ensures r.Some? <==> formatType == CustomFormatterType
    ensures r.Some? ==> r.value == self
  {
    if formatType == CustomFormatterType then Some(self) else None
  }

  const NameLabel := "Customer info -- Name: "
  const PhoneLabel := ", Contact phone: "
  const RevenueLabel := ", Revenue: "

  /** The detailed sentence for a customer. The interpolated revenue is
      formatted with the current culture, not with the provider. */
  function DetailedLayout(c: Customer, current: Culture): (r: string)
    ensures NameLabel + c.name <= r
    ensures |r| > 0 && r[|r| - 1] == '.'
  {
    var r := NameLabel + c.name + PhoneLabel + c.contactPhone + RevenueLabel + DecimalToString(current, c.revenue) + ".";
    assert r == (NameLabel + c.name) + (PhoneLabel + c.contactPhone + RevenueLabel + DecimalToString(current, c.revenue) + ".");
    r
  }

  /** The number just before the closing full stop of the detailed
      sentence is the customer's revenue. */
  lemma DetailedLayoutReadsBack(c: Customer, current: Culture)
    requires Valid(c)
    ensures var s := DetailedLayout(c, current);
            TrailingNumber(s[..|s| - 1]) == c.revenue
  {
    var s := DetailedLayout(c, current);
    var head := NameLabel + c.name + PhoneLabel + c.contactPhone + RevenueLabel;
    var revenue := DecimalToString(current, c.revenue);
    assert s == head + revenue + ".";
    assert s[..|s| - 1] == head + revenue;
    DecimalToStringReadsBack(current, current, c.revenue);
    NumberAfterSeparatorDigits(head, revenue);
  }

  /** Format(format, arg, formatProvider): `current` is the current
      culture. The result is null unless the provider is this very
      instance; otherwise a customer gets the detailed sentence, any other
      object its own ToString() (for a decimal, in the current culture) and
      null the empty string. A null provider makes
      the Equals call throw. */
  function Format(self: FormatterRef, format: Option<string>, arg: Arg, formatProvider: Option<Provider>, current: Culture)
    : (r: Result<Option<string>, Exception>)
    ensures formatProvider.None? <==> r.Failure?
    ensures r.Failure? ==> r.error == NullReferenceException
    ensures r.Success? ==> (r.value.Some? <==> formatProvider == Some(CustomFormatterProvider(self)))
    ensures r.Success? && r.value.Some? ==>
              r.value.value == match arg
                               case CustomerArg(c) => DetailedLayout(c, current)
                               case DecimalArg(v) => DecimalToString(current, v)
                               case OtherArg(text) => text
                               case NullArg => ""
  {
    if formatProvider.None? then Failure(NullReferenceException)
    else if formatProvider.value != CustomFormatterProvider(self) then Success(None)
    else match arg
      case CustomerArg(c) => Success(Some(DetailedLayout(c, current)))
      case DecimalArg(v) => Success(Some(DecimalToString(current, v)))
      case OtherArg(text) => Success(Some(text))
      case NullArg => Success(Some(""))
  }

  /** The format string plays no part in the result. */
  lemma FormatIgnoresSpecifier(self: FormatterRef, f1: Option<string>, f2: Option<string>, arg: Arg,
                               formatProvider: Option<Provider>, current: Culture)
    ensures Format(self, f1, arg, formatProvider, current) == Format(self, f2, arg, formatProvider, current)
  {
  }

  /** Another formatter instance, even one of the same class, is refused. */
  lemma FormatRefusesOtherInstances(self: FormatterRef, other: FormatterRef, format: Option<string>, arg: Arg, current: Culture)
    requires other != self
    ensures Format(self, format, arg, Some(CustomFormatterProvider(other)), current) == Success(None)
  {
  }
}
