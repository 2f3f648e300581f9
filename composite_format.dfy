/** The host's composite formatting, string.Format(provider, "{0}", arg),
    reduced to what it does with one argument and no item format: ask the
    provider for a custom formatter, let it format the argument, and fall
    back to the argument's own rendering when there is none or it declines. */
module CompositeFormatting {
  import opened Results
  import opened Providers
  import opened Customers
  import opened DetailedFormatter

  /** The custom formatter a provider supplies for typeof(ICustomFormatter);
      a culture supplies none. */
  function CustomFormatterOf(provider: Option<Provider>): Option<FormatterRef> {
    match provider
    case Some(CustomFormatterProvider(f)) => GetFormat(f, CustomFormatterType)
    case _ => None
  }

  /** The argument formatted on its own: an IFormattable through
      ToString(null, provider), anything else through its ToString(), null
      as the empty string. A customer then gives its "NCR" record; a decimal
      takes its number format from a culture provider and from the current
      culture otherwise, since the detailed formatter supplies no number
      format. */
  function FormatArgument(arg: Arg, provider: Option<Provider>, current: Culture): (r: Result<string, Exception>)
    ensures r.Success?
    ensures arg.CustomerArg? ==> r == ToStringWithProvider(arg.customer, Some("NCR"), provider, current)
    ensures arg.DecimalArg? ==> r.value == RevenueText(ProviderOrCurrent(provider, current), current, arg.amount)
  {
    match arg
    case CustomerArg(c) =>
      MissingSpecifierIsNCR(c, provider, current);
      ToStringWithProvider(c, None, provider, current)
    case DecimalArg(v) =>
      (match provider
       case Some(CultureProvider(culture)) => Success(DecimalToString(culture, v))
       case _ => Success(DecimalToString(current, v)))
    case OtherArg(text) => Success(text)
    case NullArg => Success("")
  }

  /** string.Format(provider, "{0}", arg). It never fails: the custom
      formatter is always handed the provider it came from, and a customer
      formats itself with the default specifier. */
  function FormatSingle(provider: Option<Provider>, arg: Arg, current: Culture): (r: Result<string, Exception>)
    ensures r.Success?
    ensures CustomFormatterOf(provider).Some? && arg.CustomerArg? ==>
              r.value == DetailedLayout(arg.customer, current)
    ensures CustomFormatterOf(provider).None? ==> r == FormatArgument(arg, provider, current)
    ensures arg.DecimalArg? ==> r.value == RevenueText(ProviderOrCurrent(provider, current), current, arg.amount)
    ensures arg.OtherArg? ==> r.value == arg.text
    ensures arg.NullArg? ==> r.value == ""
  {
    match CustomFormatterOf(provider)
    case Some(f) =>
      (match Format(f, None, arg, provider, current)
       case Success(Some(s)) => Success(s)
       case _ => FormatArgument(arg, provider, current))
    case None => FormatArgument(arg, provider, current)
  }

  /** The unit test of the detailed formatter: passing a new formatter as the
      provider renders the customer as the detailed sentence. */
  lemma FormatterTakesOverRendering(f: FormatterRef, c: Customer, current: Culture)
    ensures FormatSingle(Some(CustomFormatterProvider(f)), CustomerArg(c), current) == Success(DetailedLayout(c, current))
  {
  }

  /** With a culture as provider the customer renders as its "NCR" record. */
  lemma CultureProviderKeepsRecord(culture: Culture, c: Customer, current: Culture)
    ensures FormatSingle(Some(CultureProvider(culture)), CustomerArg(c), current) ==
            ToStringWithProvider(c, Some("NCR"), Some(CultureProvider(culture)), current)
  {
  }

  /** Customer.ToString(format, provider) hands each of its items to the
      host: a string field comes back as itself and the revenue as
      RevenueText says, under a culture and under the detailed formatter. */
  lemma RecordItemsThroughHost(p: Provider, c: Customer, current: Culture)
    ensures FormatSingle(Some(p), OtherArg(c.name), current) == Success(c.name)
    ensures FormatSingle(Some(p), DecimalArg(c.revenue), current) == Success(RevenueText(p, current, c.revenue))
  {
  }
}
