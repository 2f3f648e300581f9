/** IFormattableRealizationTraining.Customer: an immutable record of a
    customer's name, contact phone and revenue that renders itself through
    a format specifier ("N", "C", "R" and their ordered combinations). */
module Customers {
  import opened Results
  import opened Text
  import opened Providers

  /** The three read-only properties; revenue is an integral decimal. */
  datatype Customer = Customer(name: string, contactPhone: string, revenue: int)

  /** What the constructor guarantees for the lifetime of the object. */
  predicate Valid(c: Customer) {
    c.name != "" && c.contactPhone != "" && c.revenue >= 0
  }

  /** ValidateArgs: checks name, then contact phone, then revenue, and
      reports the first one that is wrong; None when all are acceptable. */
  function ValidateArgs(name: Option<string>, contactPhone: Option<string>, revenue: int): (r: Option<Exception>)
    ensures r.None? <==> !IsNullOrEmpty(name) && !IsNullOrEmpty(contactPhone) && revenue >= 0
    ensures IsNullOrEmpty(name) ==> r == Some(ArgumentException("name"))
    ensures !IsNullOrEmpty(name) && IsNullOrEmpty(contactPhone) ==> r == Some(ArgumentException("contactPhone"))
    ensures !IsNullOrEmpty(name) && !IsNullOrEmpty(contactPhone) && revenue < 0 ==>
              r == Some(ArgumentOutOfRangeException("revenue"))
  {
    if IsNullOrEmpty(name) then Some(ArgumentException("name"))
    else if IsNullOrEmpty(contactPhone) then Some(ArgumentException("contactPhone"))
    else if revenue < 0 then Some(ArgumentOutOfRangeException("revenue"))
    else None
  }

  /** Customer(name, contactPhone, revenue): validation, then the three
      assignments. It succeeds exactly on valid arguments, and the record
      it builds holds them unchanged. */
  function New(name: Option<string>, contactPhone: Option<string>, revenue: int): (r: Result<Customer, Exception>)
    ensures r.Success? <==> ValidateArgs(name, contactPhone, revenue).None?
    ensures r.Success? ==>
              Valid(r.value) && Some(r.value.name) == name &&
              Some(r.value.contactPhone) == contactPhone && r.value.revenue == revenue
    ensures r.Failure? ==> Some(r.error) == ValidateArgs(name, contactPhone, revenue)
  {
    match ValidateArgs(name, contactPhone, revenue)
    case Some(e) => Failure(e)
    case None => Success(Customer(name.value, contactPhone.value, revenue))
  }

  /** Construction accepts a record's own fields exactly when the record is
      valid, and then rebuilds that very record. */
  lemma NewRebuildsValid(c: Customer)
    ensures New(Some(c.name), Some(c.contactPhone), c.revenue) == Success(c) <==> Valid(c)
  {
  }

  /** Customer(): the sample record of the parameterless constructor. */
  function Default(): (r: Result<Customer, Exception>)
    ensures r == Success(Customer("Jeffrey Richter", "+1(425) 555 - 0100", 1000000))
    ensures Valid(r.value)
  {
    New(Some("Jeffrey Richter"), Some("+1(425) 555 - 0100"), 1000000)
  }

  // ---------------------------------------------------------------------
  // Specification of the format specifiers: which fields a code selects.

  /** The fields a rendering shows. */
  datatype Layout = Layout(showName: bool, showPhone: bool, showRevenue: bool)

  /** A field is shown when its letter occurs in the (upper-cased) code. */
  function LayoutOf(code: string): Layout {
    Layout('N' in code, 'C' in code, 'R' in code)
  }

  /** The canonical code of a layout: its letters in the order N, C, R. */
  function CodeOf(l: Layout): string {
    (if l.showName then "N" else "") + (if l.showPhone then "C" else "") + (if l.showRevenue then "R" else "")
  }

  /** An accepted code: non-empty and spelled canonically. */
  predicate IsCode(code: string) {
    code != "" && CodeOf(LayoutOf(code)) == code
  }

  /** The accepted codes are exactly the seven cases of the switch. */
  lemma AcceptedCodes(code: string)
    ensures IsCode(code) <==> code in {"N", "C", "R", "NC", "NR", "CR", "NCR"}
  {
    if IsCode(code) {
      var l := LayoutOf(code);
      assert code == CodeOf(l);
      if l.showName {
        if l.showPhone {
          if l.showRevenue { assert code == "NCR"; } else { assert code == "NC"; }
        } else {
          if l.showRevenue { assert code == "NR"; } else { assert code == "N"; }
        }
      } else {
        if l.showPhone {
          if l.showRevenue { assert code == "CR"; } else { assert code == "C"; }
        } else {
          assert code == "R";
        }
      }
    }
  }

  /** The prefix of every successful rendering. */
  const RecordPrefix := "Customer record: "

  /** The selected fields in the order name, contact phone, revenue. */
  function Fields(c: Customer, l: Layout, revenueText: string): seq<string> {
    (if l.showName then [c.name] else []) +
    (if l.showPhone then [c.contactPhone] else []) +
    (if l.showRevenue then [revenueText] else [])
  }

  /** How one composite-format item for the revenue is rendered under
      `provider`: a culture formats the decimal itself; the detailed
      formatter, asked by the host for that item, returns the value's own
      ToString(), which uses the current culture. For an integral,
      non-negative revenue both give the same digits. */
  function RevenueText(provider: Provider, current: Culture, revenue: int): (r: string)
    ensures revenue >= 0 ==> r == DecimalToString(current, revenue)
  {
    match provider
    case CultureProvider(culture) => DecimalToString(culture, revenue)
    case CustomFormatterProvider(_) => DecimalToString(current, revenue)
  }

  /** The specifier after a null or empty one is replaced by "NCR": never
      empty, and any other specifier is kept as given. */
  function Specifier(format: Option<string>): (r: string)
    ensures r != ""
    ensures IsNullOrEmpty(format) ==> r == "NCR"
    ensures !IsNullOrEmpty(format) ==> r == format.value
  {
    if IsNullOrEmpty(format) then "NCR" else format.value
  }

  /** The provider after a null one is replaced by the current culture. */
  function ProviderOrCurrent(provider: Option<Provider>, current: Culture): (p: Provider)
    ensures provider.Some? ==> p == provider.value
    ensures provider.None? ==> p == CultureProvider(current)
  {
    if provider.None? then CultureProvider(current) else provider.value
  }

  // ---------------------------------------------------------------------
  // The three ToString overloads.

  /** The switch of ToString(format, provider) on the upper-cased code,
      with `revenue` the text of the revenue item; None is the default
      branch. Every case opens with the record prefix. */
  function Dispatch(c: Customer, code: string, revenue: string): (r: Option<string>)
    ensures r.Some? ==> RecordPrefix <= r.value
  {
    if code == "N" then Some(RecordPrefix + c.name)
    else if code == "C" then Some(RecordPrefix + c.contactPhone)
    else if code == "R" then Some(RecordPrefix + revenue)
    else if code == "NC" then Some(RecordPrefix + c.name + ", " + c.contactPhone)
    else if code == "NR" then Some(RecordPrefix + c.name + ", " + revenue)
    else if code == "CR" then Some(RecordPrefix + c.contactPhone + ", " + revenue)
    else if code == "NCR" then Some(RecordPrefix + c.name + ", " + c.contactPhone + ", " + revenue)
    else None
  }

  /** Each case of the switch shows exactly the fields its letters select,
      in the order N, C, R, joined by ", "; the default branch is taken
      exactly for the codes that are not accepted. */
  lemma DispatchShowsSelectedFields(c: Customer, code: string, revenue: string)
    ensures Dispatch(c, code, revenue).Some? <==> IsCode(code)
    ensures Dispatch(c, code, revenue).Some? ==>
              Dispatch(c, code, revenue).value == RecordPrefix + Join(Fields(c, LayoutOf(code), revenue), ", ")
  {
    AcceptedCodes(code);
    var n, p, r := c.name, c.contactPhone, revenue;
    if code == "N" {
      assert Fields(c, LayoutOf(code), r) == [n];
    } else if code == "C" {
      assert Fields(c, LayoutOf(code), r) == [p];
    } else if code == "R" {
      assert Fields(c, LayoutOf(code), r) == [r];
    } else if code == "NC" {
      assert Fields(c, LayoutOf(code), r) == [n, p];
      assert [n, p][1..] == [p];
    } else if code == "NR" {
      assert Fields(c, LayoutOf(code), r) == [n, r];
      assert [n, r][1..] == [r];
    } else if code == "CR" {
      assert Fields(c, LayoutOf(code), r) == [p, r];
      assert [p, r][1..] == [r];
    } else if code == "NCR" {
      assert Fields(c, LayoutOf(code), r) == [n, p, r];
      assert [n, p, r][1..] == [p, r];
      assert [p, r][1..] == [r];
    }
  }

  /** ToString(format, provider): `current` is CultureInfo.CurrentCulture.
      The result is the prefix followed by the fields the upper-cased
      specifier selects, joined by ", ", or a FormatException when the
      specifier is not one of the seven codes. */
  function ToStringWithProvider(c: Customer, format: Option<string>, provider: Option<Provider>, current: Culture)
    : (r: Result<string, Exception>)
    ensures var code := Upper(Specifier(format));
            r.Success? <==> IsCode(code)
    ensures var code := Upper(Specifier(format));
            var p := ProviderOrCurrent(provider, current);
            r.Success? ==> r.value == RecordPrefix + Join(Fields(c, LayoutOf(code), RevenueText(p, current, c.revenue)), ", ")
    ensures r.Failure? ==> r.error == FormatException("Invalid string format")
  {
    var code := Upper(Specifier(format));
    var revenue := RevenueText(ProviderOrCurrent(provider, current), current, c.revenue);
    DispatchShowsSelectedFields(c, code, revenue);
    match Dispatch(c, code, revenue)
    case Some(s) => Success(s)
    case None => Failure(FormatException("Invalid string format"))
  }

  /** ToString(format): the current culture as provider. */
  function ToStringWithFormat(c: Customer, format: Option<string>, current: Culture): (r: Result<string, Exception>)
    ensures r == ToStringWithProvider(c, format, None, current)
  {
    ToStringWithProvider(c, format, Some(CultureProvider(current)), current)
  }

  /** ToString(): "NCR" in the current culture; it never fails. */
  function ToString(c: Customer, current: Culture): (r: Result<string, Exception>)
    ensures r.Success?
    ensures r == ToStringWithProvider(c, None, None, current)
  {
    ToStringWithProvider(c, Some("NCR"), Some(CultureProvider(current)), current)
  }

  // ---------------------------------------------------------------------
  // Properties of the rendering.

  /** A null or empty specifier renders as "NCR" does. */
  lemma MissingSpecifierIsNCR(c: Customer, provider: Option<Provider>, current: Culture)
    ensures ToStringWithProvider(c, None, provider, current) == ToStringWithProvider(c, Some("NCR"), provider, current)
    ensures ToStringWithProvider(c, Some(""), provider, current) == ToStringWithProvider(c, Some("NCR"), provider, current)
    ensures ToStringWithProvider(c, None, provider, current).Success?
  {
  }

  /** Specifiers are matched without regard to case. */
  lemma SpecifierCaseInsensitive(c: Customer, format: string, provider: Option<Provider>, current: Culture)
    ensures ToStringWithProvider(c, Some(format), provider, current) ==
            ToStringWithProvider(c, Some(Upper(format)), provider, current)
  {
    UpperIdempotent(format);
  }

  /** A valid record, whose revenue is integral in this model, renders
      identically under every culture and provider. */
  lemma ValidRenderingIgnoresCulture(c: Customer, format: Option<string>, p1: Option<Provider>, current1: Culture,
                                     p2: Option<Provider>, current2: Culture)
    requires Valid(c)
    ensures ToStringWithProvider(c, format, p1, current1) == ToStringWithProvider(c, format, p2, current2)
  {
  }

  /** With the revenue selected it is the last field, so the number at the
      end of the line is the one the revenue text spells. */
  lemma {:induction false} SelectedRevenueIsLast(c: Customer, l: Layout, revenue: string)
    requires l.showRevenue && AllDigits(revenue)
    ensures TrailingNumber(RecordPrefix + Join(Fields(c, l, revenue), ", ")) == TrailingNumber(revenue)
  {
    var fields := Fields(c, l, revenue);
    var front := fields[..|fields| - 1];
    assert fields == front + [revenue];
    if front == [] {
      assert RecordPrefix + Join(fields, ", ") == RecordPrefix + revenue;
      NumberAfterSeparatorDigits(RecordPrefix, revenue);
    } else {
      JoinSnoc(front, revenue, ", ");
      var head := RecordPrefix + Join(front, ", ") + ", ";
      assert RecordPrefix + Join(fields, ", ") == head + revenue;
      NumberAfterSeparatorDigits(head, revenue);
    }
  }

  /** Whenever the revenue is shown, the number at the end of the
      rendering is the record's revenue. */
  lemma RevenueReadsBack(c: Customer, format: Option<string>, provider: Option<Provider>, current: Culture)
    requires Valid(c)
    requires ToStringWithProvider(c, format, provider, current).Success?
    requires LayoutOf(Upper(Specifier(format))).showRevenue
    ensures TrailingNumber(ToStringWithProvider(c, format, provider, current).value) == c.revenue
  {
    var p := ProviderOrCurrent(provider, current);
    DecimalToStringReadsBack(current, current, c.revenue);
    SelectedRevenueIsLast(c, LayoutOf(Upper(Specifier(format))), RevenueText(p, current, c.revenue));
  }

  // The four cases the unit tests exercise, first for any record, then
  // for the tests' own data.

  lemma RecordN(c: Customer, current: Culture)
    ensures ToStringWithFormat(c, Some("N"), current) == Success(RecordPrefix + c.name)
  {
  }

  lemma RecordC(c: Customer, current: Culture)
    ensures ToStringWithFormat(c, Some("C"), current) == Success(RecordPrefix + c.contactPhone)
  {
  }

  lemma RecordR(c: Customer, current: Culture)
    ensures ToStringWithFormat(c, Some("R"), current) == Success(RecordPrefix + DecimalToString(current, c.revenue))
  {
  }

  lemma RecordNCR(c: Customer, current: Culture)
    ensures ToStringWithFormat(c, Some("NCR"), current) ==
            Success(RecordPrefix + c.name + ", " + c.contactPhone + ", " + DecimalToString(current, c.revenue))
  {
  }

  /** The revenues of the unit tests, spelled out. */
  lemma UnitTestRevenues(current: Culture)
    ensures DecimalToString(current, 123567) == "123567"
    ensures DecimalToString(current, 111335656) == "111335656"
  {
    assert DecimalDigits(123567) == "123567";
    assert DecimalDigits(111335656) == "111335656";
  }

  /** The lines the unit tests expect, assembled from their parts. */
  lemma UnitTestLines()
    ensures RecordPrefix + "Alex" + ", " + "+37800000" + ", " + "123567" == "Customer record: Alex, +37800000, 123567"
    ensures RecordPrefix + "Dmitry" == "Customer record: Dmitry"
    ensures RecordPrefix + "+436565" == "Customer record: +436565"
    ensures RecordPrefix + "111335656" == "Customer record: 111335656"
  {
  }

  // The unit tests take the record as a parameter fixed by `requires`:
  // stated on the literal record, the verifier unfolds every function of
  // the rendering on constant arguments and runs out of resources.

  /** Unit test: ("Alex", "+37800000", 123567) constructs, and renders with
      "NCR" as the test expects in any current culture. */
  lemma UnitTestAlexNCR(c: Customer, current: Culture)
    requires c == Customer("Alex", "+37800000", 123567)
    ensures New(Some("Alex"), Some("+37800000"), 123567) == Success(c)
    ensures ToStringWithFormat(c, Some("NCR"), current) == Success("Customer record: Alex, +37800000, 123567")
  {
    RecordNCR(c, current);
    UnitTestRevenues(current);
    UnitTestLines();
  }

  /** Unit test: ("Dmitry", "+1234235", 56476) with "N". */
  lemma UnitTestDmitryN(c: Customer, current: Culture)
    requires c == Customer("Dmitry", "+1234235", 56476)
    ensures ToStringWithFormat(c, Some("N"), current) == Success("Customer record: Dmitry")
  {
    RecordN(c, current);
    UnitTestLines();
  }

  /** Unit tests: ("Vlad", "+436565", 111335656) with "C" and with "R". */
  lemma UnitTestVladCR(c: Customer, current: Culture)
    requires c == Customer("Vlad", "+436565", 111335656)
    ensures ToStringWithFormat(c, Some("C"), current) == Success("Customer record: +436565")
    ensures ToStringWithFormat(c, Some("R"), current) == Success("Customer record: 111335656")
  {
    RecordC(c, current);
    RecordR(c, current);
    UnitTestRevenues(current);
    UnitTestLines();
  }

  /** The construction failures of the unit tests. */
  lemma UnitTestConstruction()
    ensures New(Some(""), Some("124234"), 342433) == Failure(ArgumentException("name"))
    ensures New(Some("Victor"), Some(""), 43435) == Failure(ArgumentException("contactPhone"))
    ensures forall r :: r in {-33, -43435, -13, -1, -4000000} ==>
              New(Some("Victor"), Some("124234"), r) == Failure(ArgumentOutOfRangeException("revenue"))
  {
  }
}
