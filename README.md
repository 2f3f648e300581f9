# Customer formatting, modelled in Dafny

This project models the two formatting components of the repository:

- `Customer` (IFormattableRealizationTraining): an immutable record of a
  customer's name, contact phone and revenue. Its constructor validates the
  arguments in a fixed order, and its `ToString` overloads render the record
  through a format specifier: `N`, `C`, `R`, `NC`, `NR`, `CR` or `NCR`,
  matched without regard to case, with `NCR` standing in for a null or
  empty specifier and the current culture for a null provider.
- `CustomerDetailedFormatter` (IFormatProviderRealization): a stateless
  format provider that offers itself as a custom formatter and renders a
  customer as one detailed sentence, but only when the provider it is
  handed is itself.

Both are pure, so the model is made of datatypes, functions and lemmas:

| file | module | contents |
|---|---|---|
| results.dfy | `Results` | `Option` (None is a null reference), `Result`, the exception kinds |
| text.dfy | `Text` | `IsNullOrEmpty`, ASCII `ToUpperInvariant` (`Upper`), `Join`, decimal digits and reading them back |
| providers.dfy | `Providers` | cultures, formatter identities, the two kinds of provider, rendering of an integral decimal |
| customer.dfy | `Customers` | the record, `ValidateArgs`, both constructors, the specifier switch and its specification, the three `ToString` overloads |
| customer_detailed_formatter.dfy | `DetailedFormatter` | `GetFormat`, `Format` and the detailed sentence |
| composite_format.dfy | `CompositeFormatting` | the host's `string.Format(provider, "{0}", arg)`, reduced to one argument, used by the formatter's unit test |

How the source's entities are represented:

- A `Customer` is a datatype; `Valid` is the invariant the constructor
  establishes. The constructor is `New`, which returns the record or the
  exception that `ValidateArgs` throws.
- Specification of the switch: a specifier selects the fields whose letters
  it contains (`LayoutOf`), and it is accepted exactly when it is non-empty
  and spells those letters in the order N, C, R (`IsCode`). The seven-case
  switch (`Dispatch`) is proved to agree with that: it accepts exactly
  those seven codes, and each case shows `"Customer record: "` followed by
  the selected fields, in order, joined by `", "`.
- The current culture is an explicit parameter (`current`). A provider is
  either a culture or a reference to a formatter instance (`FormatterRef`).
  Two references are the same instance exactly when they are equal, which
  models the reference-equality `Equals` in `Format`.
- Revenue is an integer rendered as `decimal.ToString` renders a decimal
  without a fractional part: its digits, after the culture's negative sign
  when negative.
- When a customer renders itself with the detailed formatter as provider,
  the host asks the formatter for each field. The formatter returns each
  field's own `ToString()`, so the revenue comes out in the current culture
  (`RevenueText`, checked against the host and the formatter in
  `CompositeFormatting.RecordItemsThroughHost`).
- The detailed sentence formats the revenue with the current culture. That
  is what C# string interpolation does; the provider passed to `Format`
  plays no part.
- `Format` handed a null provider throws: the code calls `Equals` on the
  provider before anything else. The model returns
  `Failure(NullReferenceException)`.

## Model

| member | source | states |
|---|---|---|
| `Customers.ValidateArgs` | IFormattableRealizationTraining/Customer.cs:155-172 | no exception exactly when name and phone are non-null and non-empty and revenue is non-negative; an empty name is reported as ArgumentException("name") whatever the other fields, then an empty phone as ArgumentException("contactPhone"), then a negative revenue as ArgumentOutOfRangeException("revenue") |
| `Customers.New` | IFormattableRealizationTraining/Customer.cs:32-39 | construction succeeds exactly when validation passes; the record built is valid and holds the three arguments unchanged; a failure carries the exception validation reports |
| `Customers.NewRebuildsValid` | IFormattableRealizationTraining/Customer.cs:32-39 | constructing from a record's own fields gives back that record exactly when the record satisfies the invariant |
| `Customers.Default` | IFormattableRealizationTraining/Customer.cs:18-21 | the parameterless constructor succeeds with ("Jeffrey Richter", "+1(425) 555 - 0100", 1000000), a valid record |
| `Customers.AcceptedCodes` | IFormattableRealizationTraining/Customer.cs:119-150 | the non-empty specifiers spelled canonically (letters from N, C, R, in that order, no repeats) are exactly the seven cases of the switch |
| `Customers.DispatchShowsSelectedFields` | IFormattableRealizationTraining/Customer.cs:119-150 | the switch picks a case exactly for the accepted codes, and each case shows "Customer record: " followed by exactly the fields whose letters the code contains, in the order name, phone, revenue, joined by ", " |
| `Customers.ToStringWithProvider` | IFormattableRealizationTraining/Customer.cs:107-151 | ToString(format, provider) succeeds exactly when the upper-cased specifier (NCR for null or empty) is an accepted code; the result is the prefix and the selected fields joined by ", ", the revenue rendered through the provider (the current culture for a null provider); otherwise FormatException |
| `Customers.Specifier` | IFormattableRealizationTraining/Customer.cs:109-112 | the specifier used is never empty: "NCR" for a null or empty one, the given one otherwise |
| `Customers.ProviderOrCurrent` | IFormattableRealizationTraining/Customer.cs:114-117 | a null provider becomes the current culture; any other provider is kept |
| `Customers.Dispatch` | IFormattableRealizationTraining/Customer.cs:119-150 | every case of the switch opens with "Customer record: " |
| `Customers.ToStringWithFormat` | IFormattableRealizationTraining/Customer.cs:86-89 | ToString(format) equals ToString(format, null): the current culture is the provider |
| `Customers.ToString` | IFormattableRealizationTraining/Customer.cs:66-69 | ToString() never fails and equals ToString(null, null) |
| `Customers.MissingSpecifierIsNCR` | IFormattableRealizationTraining/Customer.cs:109-112 | a null and an empty specifier render exactly as "NCR", and never fail |
| `Customers.SpecifierCaseInsensitive` | IFormattableRealizationTraining/Customer.cs:119 | every specifier renders exactly as its upper-cased form does |
| `Customers.RevenueText` | IFormattableRealizationTraining/Customer.cs:131 | for an integral revenue, a non-negative one is rendered as the current culture renders it, whichever provider is used |
| `Customers.ValidRenderingIgnoresCulture` | IFormattableRealizationTraining/Customer.cs:114-147 | for an integral revenue, a valid record renders the same under every provider and current culture |
| `Customers.RevenueReadsBack` | IFormattableRealizationTraining/Customer.cs:130-147 | whenever the specifier shows the revenue, the number at the end of the rendering is the record's revenue |
| `Customers.UnitTestAlexNCR` | IFormattableRealizationTraining.Tests/IFormattableRealizationTrainingTests.cs:9-14 | ("Alex", "+37800000", 123567) constructs and renders with "NCR" as "Customer record: Alex, +37800000, 123567" in any culture |
| `Customers.UnitTestDmitryN` | IFormattableRealizationTraining.Tests/IFormattableRealizationTrainingTests.cs:16-21 | ("Dmitry", "+1234235", 56476) renders with "N" as "Customer record: Dmitry" |
| `Customers.UnitTestVladCR` | IFormattableRealizationTraining.Tests/IFormattableRealizationTrainingTests.cs:23-35 | ("Vlad", "+436565", 111335656) renders with "C" as "Customer record: +436565" and with "R" as "Customer record: 111335656" |
| `Customers.UnitTestConstruction` | IFormattableRealizationTraining.Tests/IFormattableRealizationTrainingTests.cs:48-77 | an empty name or phone gives ArgumentException, the five negative revenues give ArgumentOutOfRangeException("revenue") |
| `Text.Upper` | IFormattableRealizationTraining/Customer.cs:119 | upper-casing keeps the length, maps each character to its upper-case form and leaves no lower-case letter |
| `Text.UpperIdempotent` | IFormattableRealizationTraining/Customer.cs:119 | upper-casing an upper-cased specifier changes nothing |
| `Providers.DecimalToStringReadsBack` | IFormattableRealizationTraining/Customer.cs:131 | a non-negative revenue is written with digits only, the same in every culture, and the digits read back as the revenue |
| `DetailedFormatter.GetFormat` | IFormatProviderRealization/CustomerDetailedFormatter.cs:17-27 | the formatter returns itself exactly when asked for the custom-formatter type, and null otherwise |
| `DetailedFormatter.Format` | IFormatProviderRealization/CustomerDetailedFormatter.cs:36-56 | a null provider throws; a provider other than this instance gives null; this instance gives the detailed sentence for a customer, the current-culture text of a decimal, the argument's own text for any other object and "" for null |
| `DetailedFormatter.FormatRefusesOtherInstances` | IFormatProviderRealization/CustomerDetailedFormatter.cs:38-41 | another formatter instance as provider gives null, whatever the argument |
| `DetailedFormatter.FormatIgnoresSpecifier` | IFormatProviderRealization/CustomerDetailedFormatter.cs:36-56 | the result does not depend on the format string |
| `DetailedFormatter.DetailedLayout` | IFormatProviderRealization/CustomerDetailedFormatter.cs:43-47 | the detailed sentence starts with "Customer info -- Name: " and the name and ends with "." |
| `DetailedFormatter.DetailedLayoutReadsBack` | IFormatProviderRealization/CustomerDetailedFormatter.cs:43-47 | in the detailed sentence of a valid customer the number before the full stop is the revenue |
| `CompositeFormatting.FormatArgument` | IFormattableRealizationTraining/Customer.cs:107-117 | the host's fallback never fails; a customer renders as ToString("NCR", provider); a decimal takes its number format from a culture provider and from the current culture otherwise |
| `CompositeFormatting.FormatSingle` | IFormatProviderRealization.Tests/IFormatProviderRealizationTests.cs:13 | formatting one argument never fails; with the detailed formatter as provider a customer becomes the detailed sentence; without a custom formatter the argument renders itself; a decimal comes out as `RevenueText` under the provider, a non-IFormattable object as its own text, null as "" |
| `CompositeFormatting.FormatterTakesOverRendering` | IFormatProviderRealization.Tests/IFormatProviderRealizationTests.cs:9-14 | string.Format with a detailed formatter as provider renders a customer as the detailed sentence |
| `CompositeFormatting.CultureProviderKeepsRecord` | IFormattableRealizationTraining/Customer.cs:107-117 | with a culture as provider a customer renders as its "NCR" record |
| `CompositeFormatting.RecordItemsThroughHost` | IFormatProviderRealization/CustomerDetailedFormatter.cs:48-51 | under a culture or the detailed formatter, a string field formatted by the host comes back as itself and the revenue as `RevenueText` gives it |

## Left out

- Culture tables: a culture is reduced to its negative sign, the only part
  of it that affects an integral decimal's general format.
- Fractional revenue: revenue is an integer, so the decimal separator,
  trailing zeros of a decimal's scale and rounding are not modelled.
- Non-ASCII case mapping: `Upper` maps only `a`-`z`. The switch accepts only
  ASCII codes, so this could matter only for a non-ASCII character whose
  invariant upper case is N, C or R.
- Providers other than a culture or a detailed formatter (for example a
  bare NumberFormatInfo or another custom formatter) are not modelled.
- Runtime type tests and Type tokens become the constructors of `Arg` and
  `FormatType`. Of the IFormattable arguments only a customer and a decimal
  are modelled; `OtherArg` stands for an object that is not IFormattable. An arbitrary object is represented by the text its own
  `ToString()` returns; one whose `ToString()` returns null is not modelled.
- Composite formatting: only the one-argument template `"{0}"` without an
  item format is modelled. Alignment, item formats and escaped braces are
  host-library behaviour.
- Object identity of `Customer` instances and reference equality on them
  are not modelled: a record is a value.
- The unit test of the detailed formatter reads its data from a `Data`
  class that is not part of this model; `FormatterTakesOverRendering`
  states the expected result for every customer instead.
- Customers.RevenueText: holds for the integral revenues of this model
  only. A fractional decimal such as 1.5 is written with the provider's
  decimal separator ("1,5" or "1.5"), so its text depends on the culture.
- Customers.ValidRenderingIgnoresCulture: holds for integral revenues only,
  for the same reason; with a fractional revenue the rendering depends on
  the provider's culture.
- CompositeFormatting.FormatSingle: an IFormattable argument other than a
  customer or a decimal, whose ToString(null, provider) would depend on the
  provider, is not modelled.
