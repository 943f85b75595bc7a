/**
  * The string utilities: capitalising the first character of an optional
  * string, rendering a date as "day Month, year", checking that a phone
  * number has ten digits, and formatting a phone number as
  * "+1 (XXX) XXX-XXXX" while it is typed.
  */
module StringUtils {
  import opened Wrappers
  import opened Text

  // ---------------------------------------------------------------------
  // capitalizeFirstLetter
  // ---------------------------------------------------------------------

  /** An absent or empty string gives ""; otherwise the first character is upper-cased. */
  function CapitalizeFirstLetter(s: Option<string>): (r: string)
    ensures s.None? || s.value == [] <==> r == []
    ensures s.Some? && s.value != [] ==>
      |r| == |s.value| && r[0] == ToUpper(s.value[0]) && r[1..] == s.value[1..]
  {
    if s.None? || s.value == [] then [] else [ToUpper(s.value[0])] + s.value[1..]
  }

  /** Capitalising twice is capitalising once. */
  lemma CapitalizeIdempotent(s: Option<string>)
    ensures CapitalizeFirstLetter(Some(CapitalizeFirstLetter(s))) == CapitalizeFirstLetter(s)
  {
    var r := CapitalizeFirstLetter(s);
    if r != [] {
      assert 'a' <= r[0] <= 'z' ==> false;
      assert [ToUpper(r[0])] + r[1..] == r;
    }
  }

  // ---------------------------------------------------------------------
  // formatDate
  // ---------------------------------------------------------------------

  const Months: seq<string> := [
    "January", "February", "March", "April", "May", "June",
    "July", "August", "September", "October", "November", "December"
  ]

  /**
    * `${day} ${month}, ${year}` for the day of the month, the month index
    * (0 to 11, as `getMonth` returns it) and the full year.
    */
  function FormatDate(day: nat, month: nat, year: int): (r: string)
    requires month < 12
  {
    Decimal(day) + " " + Months[month] + ", " + IntString(year)
  }

  /** The month whose name is `name`, if any. */
  function ParseMonth(name: string): (r: Option<nat>)
    ensures r.Some? ==> r.value < 12 && Months[r.value] == name
  {
    if name == "January" then Some(0)
    else if name == "February" then Some(1)
    else if name == "March" then Some(2)
    else if name == "April" then Some(3)
    else if name == "May" then Some(4)
    else if name == "June" then Some(5)
    else if name == "July" then Some(6)
    else if name == "August" then Some(7)
    else if name == "September" then Some(8)
    else if name == "October" then Some(9)
    else if name == "November" then Some(10)
    else if name == "December" then Some(11)
    else None
  }

  lemma MonthNamesParse(m: nat)
    requires m < 12
    ensures ParseMonth(Months[m]) == Some(m)
    ensures ',' !in Months[m]
  {
  }

  /** The index of the first c in s, or |s| when there is none. */
  function IndexOf(s: string, c: char): (n: nat)
    ensures n <= |s| && c !in s[..n]
    ensures n < |s| ==> s[n] == c
  {
    if s == [] then 0
    else if s[0] == c then 0
    else
      var n := 1 + IndexOf(s[1..], c);
      assert s[..n] == [s[0]] + s[1..][..n - 1];
      n
  }

  lemma {:induction false} IndexOfAppend(a: string, b: string, c: char)
    requires c !in a && b != [] && b[0] == c
    ensures IndexOf(a + b, c) == |a|
  {
    if a == [] {
      assert a + b == b;
    } else {
      assert (a + b)[1..] == a[1..] + b;
      IndexOfAppend(a[1..], b, c);
    }
  }

  /** Reads back what `String(i)` writes for an integer. */
  function ParseInt(s: string): (r: Option<int>)
  {
    if |s| > 1 && s[0] == '-' && AllDigits(s[1..]) then Some(0 - ParseDecimal(s[1..]))
    else if s != [] && AllDigits(s) then Some(ParseDecimal(s))
    else None
  }

  lemma IntStringRoundTrip(i: int)
    ensures ParseInt(IntString(i)) == Some(i)
  {
    var s := IntString(i);
    if i < 0 {
      assert s[1..] == Decimal(-i);
      DecimalRoundTrip(-i);
    } else {
      assert IsDigit(s[0]);
      DecimalRoundTrip(i);
    }
  }

  /** Reads a "day Month, year" text back into its day, month index and year. */
  function ParseDate(s: string): (r: Option<(nat, nat, int)>)
  {
    var n := LeadingDigits(s);
    if n == 0 || n == |s| || s[n] != ' ' then None
    else
      var rest := s[n + 1..];
      var c := IndexOf(rest, ',');
      if c + 1 >= |rest| || rest[c + 1] != ' ' then None
      else
        var month := ParseMonth(rest[..c]);
        var year := ParseInt(rest[c + 2..]);
        if month.None? || year.None? then None
        else Some((ParseDecimal(s[..n]), month.value, year.value))
  }

  /** The rendered date determines the day, the month and the year it was made from. */
  lemma FormatDateRoundTrip(day: nat, month: nat, year: int)
    requires month < 12
    ensures ParseDate(FormatDate(day, month, year)) == Some((day, month, year))
  {
    var d := Decimal(day);
    var name := Months[month];
    var y := IntString(year);
    var s := FormatDate(day, month, year);
    var rest := name + ", " + y;
    assert s == d + (" " + rest);
    LeadingDigitsAppend(d, " " + rest);
    assert s[..|d|] == d;
    assert s[|d| + 1..] == rest;
    MonthNamesParse(month);
    assert rest == name + (", " + y);
    IndexOfAppend(name, ", " + y, ',');
    assert rest[..|name|] == name;
    assert rest[|name| + 2..] == y;
    IntStringRoundTrip(year);
    DecimalRoundTrip(day);
    DateParts(s, |d|, rest, |name|);
  }

  /** A day, a space, a month name, a comma, a space and a year parse into their three values. */
  lemma DateParts(s: string, n: nat, rest: string, c: nat)
    requires n == LeadingDigits(s) && 0 < n < |s| && s[n] == ' ' && rest == s[n + 1..]
    requires c == IndexOf(rest, ',') && c + 1 < |rest| && rest[c + 1] == ' '
    requires ParseMonth(rest[..c]).Some? && ParseInt(rest[c + 2..]).Some?
    ensures ParseDate(s) == Some((ParseDecimal(s[..n]), ParseMonth(rest[..c]).value, ParseInt(rest[c + 2..]).value))
  {
  }

  // ---------------------------------------------------------------------
  // validatePhone / formatPhoneNumber
  // ---------------------------------------------------------------------

  /** A phone number is valid when it holds exactly ten digits, whatever else it holds. */
  function ValidatePhone(phone: string): (ok: bool)
  {
    |Digits(phone)| == 10
  }

  /** "+1 (XXX) XXX-XXXX", filled as far as the typed digits go; digits past the tenth are dropped. */
  function FormatPhoneNumber(phone: string): (r: string)
  {
    FormatDigits(Digits(phone))
  }

  /** The formatting of the digits already extracted from the input. */
  function FormatDigits(d: string): (r: string)
  {
    if |d| == 0 then ""
    else if |d| <= 3 then "+1 (" + d
    else if |d| <= 6 then "+1 (" + d[..3] + ") " + d[3..]
    else "+1 (" + d[..3] + ") " + d[3..6] + "-" + d[6..if |d| < 10 then |d| else 10]
  }

  lemma {:induction false} NoDigits(s: string)
    requires forall i :: 0 <= i < |s| ==> !IsDigit(s[i])
    ensures Digits(s) == []
  {
    if s != [] {
      NoDigits(s[1..]);
    }
  }

  /** The fixed text around the digits contributes only the country digit. */
  lemma SeparatorDigits()
    ensures Digits("+1 (") == "1" && Digits(") ") == [] && Digits("-") == []
  {
    NoDigits(") ");
    NoDigits("-");
    PrefixDigits();
  }

  lemma PrefixDigits()
    ensures Digits("+1 (") == "1"
  {
    NoDigits(" (");
    assert "+1 (" == "+1" + " (";
    DigitsAppend("+1", " (");
    assert "+1"[1..] == "1";
    assert Digits("1") == "1";
  }

  lemma ShortPhoneDigits(d: string)
    requires AllDigits(d)
    ensures Digits("+1 (" + d) == "1" + d
  {
    SeparatorDigits();
    DigitsAppend("+1 (", d);
    DigitsOfDigitString(d);
  }

  lemma MediumPhoneDigits(a: string, b: string)
    requires AllDigits(a) && AllDigits(b)
    ensures Digits("+1 (" + a + ") " + b) == "1" + a + b
  {
    SeparatorDigits();
    DigitsAppend("+1 (", a);
    DigitsAppend("+1 (" + a, ") ");
    DigitsAppend("+1 (" + a + ") ", b);
    DigitsOfDigitString(a);
    DigitsOfDigitString(b);
  }

  lemma LongPhoneDigits(a: string, b: string, c: string)
    requires AllDigits(a) && AllDigits(b) && AllDigits(c)
    ensures Digits("+1 (" + a + ") " + b + "-" + c) == "1" + a + b + c
  {
    var p := "+1 (" + a + ") " + b;
    MediumPhoneDigits(a, b);
    SeparatorDigits();
    DigitsAppend(p, "-");
    DigitsAppend(p + "-", c);
    DigitsOfDigitString(c);
    assert Digits(p + "-") == "1" + a + b;
    assert "+1 (" + a + ") " + b + "-" + c == p + "-" + c;
  }

  /**
    * The formatted number carries the country digit 1 followed by the first
    * ten typed digits, in order; no digits give the empty string.
    */
  lemma FormattedPhoneDigits(phone: string)
    ensures var d := Digits(phone);
      Digits(FormatPhoneNumber(phone)) == if d == [] then [] else "1" + d[..if |d| < 10 then |d| else 10]
  {
    FormattedDigits(Digits(phone));
  }

  lemma FormattedDigits(d: string)
    requires AllDigits(d)
    ensures Digits(FormatDigits(d)) == if d == [] then [] else "1" + d[..if |d| < 10 then |d| else 10]
  {
    var r := FormatDigits(d);
    if |d| == 0 {
    } else if |d| <= 3 {
      assert r == "+1 (" + d;
      ShortPhoneDigits(d);
      assert d[..|d|] == d;
    } else if |d| <= 6 {
      assert r == "+1 (" + d[..3] + ") " + d[3..];
      MediumPhoneDigits(d[..3], d[3..]);
      assert "1" + d[..3] + d[3..] == "1" + d[..|d|];
    } else {
      var end := if |d| < 10 then |d| else 10;
      assert r == "+1 (" + d[..3] + ") " + d[3..6] + "-" + d[6..end];
      LongPhoneDigits(d[..3], d[3..6], d[6..end]);
      assert "1" + d[..3] + d[3..6] + d[6..end] == "1" + d[..end];
    }
  }

  /**
    * Formatting adds the country digit, so a valid ten-digit number no longer
    * validates once formatted; exactly the nine-digit inputs format to a
    * valid number.
    */
  lemma FormatThenValidate(phone: string)
    ensures ValidatePhone(FormatPhoneNumber(phone)) <==> |Digits(phone)| == 9
    ensures ValidatePhone(phone) ==> !ValidatePhone(FormatPhoneNumber(phone))
  {
    FormattedPhoneDigits(phone);
  }
}
