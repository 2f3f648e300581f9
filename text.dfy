/** String helpers of the host library that the formatting code relies on:
    string.IsNullOrEmpty, ToUpperInvariant (on ASCII), joining with a
    separator, and the digits of a non-negative integral number. */
module Text {
  import opened Results

  /** string.IsNullOrEmpty */
  predicate IsNullOrEmpty(s: Option<string>) {
    s.None? || s.value == ""
  }

  predicate IsLowerAscii(ch: char) {
    'a' <= ch <= 'z'
  }

  /** Invariant upper-casing of one character, restricted to ASCII letters. */
  function UpperChar(ch: char): (r: char)
    ensures !IsLowerAscii(r)
    ensures IsLowerAscii(ch) ==> r as int == ch as int - 32
    ensures !IsLowerAscii(ch) ==> r == ch
  {
    if IsLowerAscii(ch) then (ch as int - 32) as char else ch
  }

  /** string.ToUpperInvariant: every lower-case letter is replaced by its
      upper-case form and every other character is kept. */
  function Upper(s: string): (r: string)
    ensures |r| == |s|
    ensures forall i :: 0 <= i < |s| ==> r[i] == UpperChar(s[i])
    ensures forall i :: 0 <= i < |r| ==> !IsLowerAscii(r[i])
  {
    if s == [] then [] else [UpperChar(s[0])] + Upper(s[1..])
  }

  /** Upper-casing twice is upper-casing once. */
  lemma UpperIdempotent(s: string)
    ensures Upper(Upper(s)) == Upper(s)
  {
  }

  /** Concatenation of `parts` with `sep` between neighbours (string.Join). */
  function Join(parts: seq<string>, sep: string): (r: string)
    ensures parts == [] ==> r == ""
    ensures |parts| == 1 ==> r == parts[0]
  {
    if parts == [] then ""
    else if |parts| == 1 then parts[0]
    else parts[0] + sep + Join(parts[1..], sep)
  }

  /** Joining a non-empty list with one more part appends the separator and that part. */
  lemma {:induction false} JoinSnoc(parts: seq<string>, last: string, sep: string)
    requires parts != []
    ensures Join(parts + [last], sep) == Join(parts, sep) + sep + last
  {
    if |parts| == 1 {
      assert parts + [last] == [parts[0], last];
      assert ([parts[0], last])[1..] == [last];
    } else {
      assert (parts + [last])[1..] == parts[1..] + [last];
      JoinSnoc(parts[1..], last, sep);
    }
  }

  predicate IsDigit(ch: char) {
    '0' <= ch <= '9'
  }

  predicate AllDigits(s: string) {
    forall i :: 0 <= i < |s| ==> IsDigit(s[i])
  }

  function DigitChar(d: nat): (r: char)
    requires d < 10
    ensures IsDigit(r) && r as int - '0' as int == d
  {
    ('0' as int + d) as char
  }

  /** The shortest decimal spelling of `n`: at least one digit and no
      leading zero unless `n` is zero. */
  function DecimalDigits(n: nat): (r: string)
    ensures |r| >= 1 && AllDigits(r)
    ensures r[0] == '0' ==> n == 0
    decreases n
  {
    if n < 10 then [DigitChar(n)] else DecimalDigits(n / 10) + [DigitChar(n % 10)]
  }

  /** The number a string of digits spells (a non-digit counts as 0). */
  function DigitsValue(s: string): nat
  {
    if s == [] then 0
    else
      var last := s[|s| - 1];
      DigitsValue(s[..|s| - 1]) * 10 + (if IsDigit(last) then last as int - '0' as int else 0)
  }

  /** Reading back the digits of `n` gives `n`. */
  lemma {:induction false} DigitsRoundTrip(n: nat)
    ensures DigitsValue(DecimalDigits(n)) == n
    decreases n
  {
    if n >= 10 {
      var d := DecimalDigits(n);
      assert d[..|d| - 1] == DecimalDigits(n / 10);
      DigitsRoundTrip(n / 10);
    }
  }

  /** The longest run of digits at the end of `s`. */
  function TrailingDigits(s: string): (r: string)
    ensures AllDigits(r) && |r| <= |s|
  {
    if s == [] || !IsDigit(s[|s| - 1]) then []
    else TrailingDigits(s[..|s| - 1]) + [s[|s| - 1]]
  }

  /** The number written at the very end of `s` (0 when `s` ends in a non-digit). */
  function TrailingNumber(s: string): nat {
    DigitsValue(TrailingDigits(s))
  }

  /** When `head` does not end in a digit, the trailing digits of
      `head + digits` are exactly `digits`. */
  lemma {:induction false} TrailingDigitsAfter(head: string, digits: string)
    requires head == [] || !IsDigit(head[|head| - 1])
    requires AllDigits(digits)
    ensures TrailingDigits(head + digits) == digits
    decreases |digits|
  {
    if digits == [] {
      assert head + digits == head;
    } else {
      var s := head + digits;
      var init, last := digits[..|digits| - 1], digits[|digits| - 1];
      assert digits == init + [last];
      assert s[..|s| - 1] == head + init;
      assert s[|s| - 1] == last && IsDigit(last);
      TrailingDigitsAfter(head, init);
      assert TrailingDigits(s) == TrailingDigits(head + init) + [last];
    }
  }

  /** The number written after a separator that ends in a non-digit is read back exactly. */
  lemma NumberAfterSeparator(head: string, n: nat)
    requires head == [] || !IsDigit(head[|head| - 1])
    ensures TrailingNumber(head + DecimalDigits(n)) == n
  {
    TrailingDigitsAfter(head, DecimalDigits(n));
    DigitsRoundTrip(n);
  }

  /** After a separator that ends in a non-digit, a run of digits is read
      back as the number it spells on its own. */
  lemma NumberAfterSeparatorDigits(head: string, digits: string)
    requires head == [] || !IsDigit(head[|head| - 1])
    requires AllDigits(digits)
    ensures TrailingNumber(head + digits) == TrailingNumber(digits)
  {
    TrailingDigitsAfter(head, digits);
    TrailingDigitsAfter([], digits);
    assert [] + digits == digits;
  }
}
