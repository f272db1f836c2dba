/** The string helpers of `src/pages/utilities/tools.js`: `getDateValue`
    (`YYYY-MM-DD` for date inputs), `formatDate` (`DD/MM/YYYY` for tables) and
    `classNames`. */
module Tools {
  import opened Js
  import Rows

  // ---------------------------------------------------------------- numbers as text

  function DigitChar(d: nat): char
    requires d < 10
  {
    "0123456789"[d]
  }

  function DigitValue(c: char): int {
    c as int - '0' as int
  }

  /** `String(n)` for a non-negative integer. */
  function NatToString(n: nat): (r: string)
    ensures |r| >= 1
    ensures forall i :: 0 <= i < |r| ==> '0' <= r[i] <= '9'
    decreases n
  {
    if n < 10 then [DigitChar(n)] else NatToString(n / 10) + [DigitChar(n % 10)]
  }

  /** `String(n)`, with a leading minus sign for negative values. */
  function IntToString(n: int): string {
    if n < 0 then "-" + NatToString(-n) else NatToString(n)
  }

  /** The value of a string of decimal digits. */
  function DigitsValue(s: string): int
    decreases |s|
  {
    if s == [] then 0 else 10 * DigitsValue(s[..|s| - 1]) + DigitValue(s[|s| - 1])
  }

  /** The value of an optionally signed decimal numeral. */
  function IntValue(s: string): int {
    if s != [] && s[0] == '-' then -DigitsValue(s[1..]) else DigitsValue(s)
  }

  lemma {:induction false} NatToStringRoundTrip(n: nat)
    ensures DigitsValue(NatToString(n)) == n
    ensures n < 10 <==> |NatToString(n)| == 1
    decreases n
  {
    if n >= 10 {
      var q, d := n / 10, n % 10;
      NatToStringRoundTrip(q);
      var s := NatToString(n);
      assert s == NatToString(q) + [DigitChar(d)];
      assert s[..|s| - 1] == NatToString(q);
      DigitCharValue(d);
      assert n == 10 * q + d;
    } else {
      DigitCharValue(n);
    }
  }

  lemma {:induction false} DigitCharValue(d: nat)
    requires d < 10
    ensures DigitValue(DigitChar(d)) == d
  {
  }

  lemma {:induction false} IntToStringRoundTrip(n: int)
    ensures IntValue(IntToString(n)) == n
  {
    if n < 0 {
      NatToStringRoundTrip(-n);
      assert IntToString(n)[1..] == NatToString(-n);
    } else {
      NatToStringRoundTrip(n);
    }
  }

  // ---------------------------------------------------------------- padStart

  /** `s.padStart(2, '0')`. */
  function PadStart2(s: string): string {
    if |s| >= 2 then s else seq(2 - |s|, _ => '0') + s
  }

  /** Padding a component between 0 and 99 gives exactly two digits that
      read back as the component: one-digit values get a leading zero and
      two-digit values are left as `String` wrote them. */
  lemma {:induction false} PadTwoDigits(n: nat)
    requires n <= 99
    ensures |PadStart2(NatToString(n))| == 2
    ensures DigitsValue(PadStart2(NatToString(n))) == n
    ensures n <= 9 ==> PadStart2(NatToString(n)) == ['0', DigitChar(n)]
    ensures n >= 10 ==> PadStart2(NatToString(n)) == NatToString(n)
  {
    NatToStringRoundTrip(n);
    if n >= 10 {
      NatToStringRoundTrip(n / 10);
    } else {
      var p := PadStart2(NatToString(n));
      assert p == ['0', DigitChar(n)];
      assert p[..1] == "0";
    }
  }

  // ---------------------------------------------------------------- the two date formats

  /** `String(date.getFullYear())` and the two padded components; an Invalid
      Date prints NaN, which `padStart` leaves alone. */
  function YearText(d: JsDate): string {
    if d.ValidDate? then IntToString(d.year) else "NaN"
  }

  function MonthText(d: JsDate): string {
    if d.ValidDate? then PadStart2(NatToString(d.month + 1)) else "NaN"
  }

  function DayText(d: JsDate): string {
    if d.ValidDate? then PadStart2(NatToString(d.day)) else "NaN"
  }

  /** `getDateValue(dateString)`, where `date` is `new Date(dateString)`. */
  function GetDateValue(dateString: Field, date: JsDate): string {
    if !Truthy(dateString) then ""
    else YearText(date) + "-" + MonthText(date) + "-" + DayText(date)
  }

  /** `formatDate(dateString)`, where `date` is `new Date(dateString)`; there is
      no guard for empty input. */
  function FormatDate(date: JsDate): string {
    DayText(date) + "/" + MonthText(date) + "/" + YearText(date)
  }

  /** Reads a `YYYY-MM-DD` value back into (year, zero-based month, day). */
  function ParseDateValue(s: string): (int, int, int)
    requires |s| >= 6
  {
    (IntValue(s[..|s| - 6]), DigitsValue(s[|s| - 5..|s| - 3]) - 1, DigitsValue(s[|s| - 2..]))
  }

  /** Reads a `DD/MM/YYYY` value back into (year, zero-based month, day). */
  function ParseFormattedDate(s: string): (int, int, int)
    requires |s| >= 6
  {
    (IntValue(s[6..]), DigitsValue(s[3..5]) - 1, DigitsValue(s[..2]))
  }

  lemma {:induction false} IsoLayout(y: string, m: string, d: string)
    requires |m| == 2 && |d| == 2
    ensures var s := y + "-" + m + "-" + d;
      |s| >= 6 && s[|s| - 6] == '-' && s[|s| - 3] == '-' &&
      s[..|s| - 6] == y && s[|s| - 5..|s| - 3] == m && s[|s| - 2..] == d
  {
  }

  lemma {:induction false} SlashLayout(d: string, m: string, y: string)
    requires |m| == 2 && |d| == 2
    ensures var s := d + "/" + m + "/" + y;
      |s| >= 6 && s[2] == '/' && s[5] == '/' &&
      s[..2] == d && s[3..5] == m && s[6..] == y
  {
  }

  /** A falsy input gives the empty string, whatever the date would be. */
  lemma {:induction false} GetDateValueEmpty(dateString: Field, date: JsDate)
    requires !Truthy(dateString)
    ensures GetDateValue(dateString, date) == ""
  {
  }

  /** For a real date, `getDateValue` writes year, month + 1 and day as
      `year-MM-DD` with two-digit month and day, and reading the text back
      gives the date. */
  lemma {:induction false} GetDateValueRoundTrip(dateString: Field, date: JsDate)
    requires Truthy(dateString) && WellFormedDate(date)
    ensures var s := GetDateValue(dateString, date);
      |s| >= 6 && s[|s| - 6] == '-' && s[|s| - 3] == '-' &&
      s[..|s| - 6] == IntToString(date.year) &&
      ParseDateValue(s) == (date.year, date.month, date.day)
  {
    var y, m, d := YearText(date), MonthText(date), DayText(date);
    var s := GetDateValue(dateString, date);
    assert s == y + "-" + m + "-" + d;
    PadTwoDigits(date.month + 1);
    PadTwoDigits(date.day);
    IntToStringRoundTrip(date.year);
    IsoLayout(y, m, d);
    assert ParseDateValue(s) == (IntValue(y), DigitsValue(m) - 1, DigitsValue(d));
  }

  /** For a real date, `formatDate` writes day, month + 1 and year as
      `DD/MM/YYYY`, and reading the text back gives the date. */
  lemma {:induction false} FormatDateRoundTrip(date: JsDate)
    requires WellFormedDate(date)
    ensures var s := FormatDate(date);
      |s| >= 6 && s[2] == '/' && s[5] == '/' &&
      ParseFormattedDate(s) == (date.year, date.month, date.day)
  {
    PadTwoDigits(date.month + 1);
    PadTwoDigits(date.day);
    IntToStringRoundTrip(date.year);
    SlashLayout(DayText(date), MonthText(date), YearText(date));
  }

  /** The two formats hold the same three fields in the opposite order:
      `formatDate` is `getDateValue` with its fields rearranged. */
  lemma {:induction false} FormatsAgree(dateString: Field, date: JsDate)
    requires Truthy(dateString) && WellFormedDate(date)
    ensures var iso := GetDateValue(dateString, date);
      |iso| >= 6 &&
      FormatDate(date) == iso[|iso| - 2..] + "/" + iso[|iso| - 5..|iso| - 3] + "/" + iso[..|iso| - 6]
  {
    PadTwoDigits(date.month + 1);
    PadTwoDigits(date.day);
    IsoLayout(YearText(date), MonthText(date), DayText(date));
  }

  /** An Invalid Date prints NaN in every field. */
  lemma {:induction false} InvalidDateText(dateString: Field)
    requires Truthy(dateString)
    ensures GetDateValue(dateString, InvalidDate) == "NaN-NaN-NaN"
    ensures FormatDate(InvalidDate) == "NaN/NaN/NaN"
  {
  }

  // ---------------------------------------------------------------- classNames

  /** `classes.filter(Boolean)`, as the strings that remain. */
  function TruthyStrings(classes: seq<Field>): (r: seq<string>)
    ensures forall i :: 0 <= i < |r| ==> r[i] != ""
    decreases |classes|
  {
    if classes == [] then []
    else if Truthy(classes[0]) then [classes[0].s] + TruthyStrings(classes[1..])
    else TruthyStrings(classes[1..])
  }

  /** `parts.join(sep)`. */
  function Join(parts: seq<string>, sep: string): string
    decreases |parts|
  {
    if parts == [] then ""
    else if |parts| == 1 then parts[0]
    else parts[0] + sep + Join(parts[1..], sep)
  }

  /** `classNames(...classes)`. */
  function ClassNames(classes: seq<Field>): string {
    Join(TruthyStrings(classes), " ")
  }

  /** `s.split(' ')`. */
  function SplitSpaces(s: string): seq<string>
    decreases |s|
  {
    if ' ' !in s then [s]
    else
      var i := Rows.FirstIndex(s, ' ');
      [s[..i]] + SplitSpaces(s[i + 1..])
  }

  /** `classNames` is empty exactly when no argument is truthy, and a single
      truthy argument comes back unchanged. */
  lemma {:induction false} ClassNamesEmpty(classes: seq<Field>)
    ensures ClassNames(classes) == "" <==> forall i :: 0 <= i < |classes| ==> !Truthy(classes[i])
    ensures |TruthyStrings(classes)| == 1 ==> ClassNames(classes) == TruthyStrings(classes)[0]
    decreases |classes|
  {
    if classes != [] {
      ClassNamesEmpty(classes[1..]);
      assert forall i :: 1 <= i < |classes| ==> classes[1..][i - 1] == classes[i];
      var t := TruthyStrings(classes);
      if |t| >= 2 {
        assert Join(t, " ") == t[0] + " " + Join(t[1..], " ");
      }
    }
  }

  /** When no class name contains a space, splitting the joined string on
      spaces gives back exactly the truthy arguments, in order. */
  lemma {:induction false} ClassNamesSplit(classes: seq<Field>)
    requires forall i :: 0 <= i < |classes| ==> Truthy(classes[i]) ==> ' ' !in classes[i].s
    requires exists i :: 0 <= i < |classes| && Truthy(classes[i])
    ensures SplitSpaces(ClassNames(classes)) == TruthyStrings(classes)
  {
    TruthyStringsNoSpace(classes);
    ClassNamesEmpty(classes);
    JoinSplit(TruthyStrings(classes));
  }

  lemma {:induction false} TruthyStringsNoSpace(classes: seq<Field>)
    requires forall i :: 0 <= i < |classes| ==> Truthy(classes[i]) ==> ' ' !in classes[i].s
    ensures forall j :: 0 <= j < |TruthyStrings(classes)| ==> ' ' !in TruthyStrings(classes)[j]
    decreases |classes|
  {
    if classes != [] {
      assert forall i :: 1 <= i < |classes| ==> classes[1..][i - 1] == classes[i];
      TruthyStringsNoSpace(classes[1..]);
    }
  }

  lemma {:induction false} JoinSplit(parts: seq<string>)
    requires parts != []
    requires forall j :: 0 <= j < |parts| ==> ' ' !in parts[j]
    ensures SplitSpaces(Join(parts, " ")) == parts
    decreases |parts|
  {
    if |parts| > 1 {
      var rest := Join(parts[1..], " ");
      assert Join(parts, " ") == parts[0] + " " + rest;
      SplitStep(parts[0], rest);
      JoinSplit(parts[1..]);
      assert parts == [parts[0]] + parts[1..];
    }
  }

  /** Splitting stops at the first space, right after a head without one. */
  lemma {:induction false} SplitStep(head: string, rest: string)
    requires ' ' !in head
    ensures SplitSpaces(head + " " + rest) == [head] + SplitSpaces(rest)
  {
    var s := head + " " + rest;
    FirstSpace(head, rest);
    assert s[|head| + 1..] == rest;
    assert s[..|head|] == head;
  }

  lemma {:induction false} FirstSpace(head: string, rest: string)
    requires ' ' !in head
    ensures ' ' in head + " " + rest
    ensures Rows.FirstIndex(head + " " + rest, ' ') == |head|
  {
    var s := head + " " + rest;
    assert s[|head|] == ' ';
  }
}
