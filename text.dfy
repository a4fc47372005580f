/**
 * String helpers the core relies on from the C++ standard library and Boost:
 * splitting on a separator (boost::algorithm::split with is_any_of and no
 * token compression), decimal formatting of integers (std::to_string) and
 * decimal parsing (std::stoi in base 10).
 */
module Text {
  import opened SeqLemmas

  /** The pieces of `s` between occurrences of `sep`, empty pieces included. */
  function Split(s: string, sep: char): (parts: seq<string>)
    ensures |parts| >= 1
    ensures forall i :: 0 <= i < |parts| ==> sep !in parts[i]
    decreases |s|
  {
    if s == [] then [""]
    else
      var rest := Split(s[1..], sep);
      if s[0] == sep then [""] + rest
      else [[s[0]] + rest[0]] + rest[1..]
  }

  /** The pieces joined back together with `sep` between neighbours. */
  function Join(parts: seq<string>, sep: char): string
    decreases |parts|
  {
    if parts == [] then ""
    else if |parts| == 1 then parts[0]
    else parts[0] + [sep] + Join(parts[1..], sep)
  }

  /** A string without the separator is one single piece. */
  lemma {:induction false} SplitNoSeparator(s: string, sep: char)
    requires sep !in s
    ensures Split(s, sep) == [s]
    decreases |s|
  {
    if s != [] {
      SplitNoSeparator(s[1..], sep);
      assert [s[0]] + s[1..] == s;
    }
  }

  /** Splitting at the first separator: the piece before it, then the rest split. */
  lemma {:induction false} SplitAtFirst(a: string, sep: char, b: string)
    requires sep !in a
    ensures Split(a + [sep] + b, sep) == [a] + Split(b, sep)
    decreases |a|
  {
    if a == [] {
      assert a + [sep] + b == [sep] + b;
      assert ([sep] + b)[1..] == b;
    } else {
      var s := a + [sep] + b;
      assert s[0] == a[0] && s[1..] == a[1..] + [sep] + b;
      SplitAtFirst(a[1..], sep, b);
      assert [a[0]] + a[1..] == a;
    }
  }

  /** Splitting undoes joining when no piece contains the separator. */
  lemma {:induction false} SplitJoin(parts: seq<string>, sep: char)
    requires |parts| >= 1
    requires forall i :: 0 <= i < |parts| ==> sep !in parts[i]
    ensures Split(Join(parts, sep), sep) == parts
    decreases |parts|
  {
    if |parts| == 1 {
      SplitNoSeparator(parts[0], sep);
    } else {
      SplitJoin(parts[1..], sep);
      SplitAtFirst(parts[0], sep, Join(parts[1..], sep));
      assert [parts[0]] + parts[1..] == parts;
    }
  }

  /** Joining undoes splitting: no character of the input is lost. */
  lemma {:induction false} JoinSplit(s: string, sep: char)
    ensures Join(Split(s, sep), sep) == s
    decreases |s|
  {
    if s != [] {
      JoinSplit(s[1..], sep);
      var rest := Split(s[1..], sep);
      if s[0] == sep {
        assert ([""] + rest)[1..] == rest;
        assert Join([""] + rest, sep) == "" + [sep] + Join(rest, sep);
        assert s == [sep] + s[1..];
      } else {
        var parts := [[s[0]] + rest[0]] + rest[1..];
        assert parts[1..] == rest[1..];
        if |rest| == 1 {
          assert Join(parts, sep) == [s[0]] + rest[0];
          assert Join(rest, sep) == rest[0];
        } else {
          assert Join(parts, sep) == [s[0]] + rest[0] + [sep] + Join(rest[1..], sep);
          assert Join(rest, sep) == rest[0] + [sep] + Join(rest[1..], sep);
        }
        assert s == [s[0]] + s[1..];
      }
    }
  }

  predicate IsDigit(c: char) {
    '0' <= c <= '9'
  }

  predicate AllDigits(s: string) {
    forall i :: 0 <= i < |s| ==> IsDigit(s[i])
  }

  function DigitChar(d: nat): (c: char)
    requires d < 10
    ensures IsDigit(c) && (c as int) - ('0' as int) == d
  {
    ('0' as int + d) as char
  }

  /** The value of a string of decimal digits, most significant first. */
  function DigitsValue(s: string): nat
    requires AllDigits(s)
    decreases |s|
  {
    if s == [] then 0
    else DigitsValue(s[..|s| - 1]) * 10 + ((s[|s| - 1] as int) - ('0' as int))
  }

  /** std::to_string of a non-negative value: digits, no leading zero. */
  function NatToDecimal(n: nat): (s: string)
    ensures |s| >= 1 && AllDigits(s)
    ensures |s| > 1 ==> s[0] != '0'
    decreases n
  {
    if n < 10 then [DigitChar(n)]
    else NatToDecimal(n / 10) + [DigitChar(n % 10)]
  }

  /** std::to_string of a signed value: a minus sign only for negatives. */
  function IntToDecimal(i: int): string
  {
    if i < 0 then "-" + NatToDecimal(-i) else NatToDecimal(i)
  }

  /** An optional sign followed by at least one digit and nothing else. */
  predicate IsNumeric(s: string) {
    if |s| > 0 && (s[0] == '-' || s[0] == '+') then |s| >= 2 && AllDigits(s[1..])
    else |s| >= 1 && AllDigits(s)
  }

  function NumericValue(s: string): int
    requires IsNumeric(s)
  {
    if s[0] == '-' then 0 - DigitsValue(s[1..])
    else if s[0] == '+' then DigitsValue(s[1..])
    else DigitsValue(s)
  }

  const INT32_MIN: int := -0x8000_0000
  const INT32_MAX: int := 0x7FFF_FFFF

  /** The characters isspace accepts in the C locale: space, tab, newline, vertical tab, form feed, carriage return. */
  predicate IsSpace(c: char) {
    c == ' ' || 9 <= c as int <= 13
  }

  /** The text after strtol's leading white space. */
  function SkipSpace(s: string): (t: string)
    ensures |t| <= |s| && t == s[|s| - |t|..]
    ensures forall i :: 0 <= i < |s| - |t| ==> IsSpace(s[i])
    ensures t == [] || !IsSpace(t[0])
    decreases |s|
  {
    if s != [] && IsSpace(s[0]) then SkipSpace(s[1..]) else s
  }

  /** The length of the longest run of digits that starts the text. */
  function DigitRun(s: string): (n: nat)
    ensures n <= |s| && AllDigits(s[..n])
    ensures n < |s| ==> !IsDigit(s[n])
    decreases |s|
  {
    if s != [] && IsDigit(s[0]) then
      var r := DigitRun(s[1..]);
      assert s[..1 + r] == [s[0]] + s[1..][..r];
      1 + r
    else 0
  }

  /** The text after the white space and an optional sign. */
  function Magnitude(s: string): string {
    var t := SkipSpace(s);
    if |t| > 0 && (t[0] == '-' || t[0] == '+') then t[1..] else t
  }

  predicate Negative(s: string) {
    var t := SkipSpace(s);
    |t| > 0 && t[0] == '-'
  }

  /** Whether a digit follows the white space and sign; otherwise std::stoi throws invalid_argument. */
  predicate HasLeadingNumber(s: string) {
    DigitRun(Magnitude(s)) > 0
  }

  /** The signed value of the longest digit run after the white space and sign; the rest of the text is ignored. */
  function LeadingNumber(s: string): int
    requires HasLeadingNumber(s)
  {
    var m := Magnitude(s);
    var d := DigitsValue(m[..DigitRun(m)]);
    if Negative(s) then 0 - d else d
  }

  /** The inputs on which std::stoi returns: a leading number within the range of int (otherwise out_of_range). */
  predicate StoiDefined(s: string) {
    HasLeadingNumber(s) && INT32_MIN <= LeadingNumber(s) <= INT32_MAX
  }

  /** std::stoi in base 10. */
  function Stoi(s: string): (v: int)
    requires StoiDefined(s)
    ensures INT32_MIN <= v <= INT32_MAX
  {
    LeadingNumber(s)
  }

  lemma {:induction false} SkipSpaceOfSpaces(ws: string, t: string)
    requires forall i :: 0 <= i < |ws| ==> IsSpace(ws[i])
    requires t == [] || !IsSpace(t[0])
    ensures SkipSpace(ws + t) == t
    decreases |ws|
  {
    if ws == [] {
      assert ws + t == t;
    } else {
      assert (ws + t)[1..] == ws[1..] + t;
      SkipSpaceOfSpaces(ws[1..], t);
    }
  }

  lemma {:induction false} DigitRunOfDigits(digits: string, rest: string)
    requires AllDigits(digits)
    requires rest == [] || !IsDigit(rest[0])
    ensures DigitRun(digits + rest) == |digits|
    decreases |digits|
  {
    if digits == [] {
      assert digits + rest == rest;
    } else {
      assert (digits + rest)[1..] == digits[1..] + rest;
      DigitRunOfDigits(digits[1..], rest);
    }
  }

  /** After white space and a sign, the magnitude is what follows the sign. */
  lemma MagnitudeAfterSign(s: string, ws: string, sign: string, body: string)
    requires s == ws + (sign + body)
    requires forall i :: 0 <= i < |ws| ==> IsSpace(ws[i])
    requires sign == "" || sign == "-" || sign == "+"
    requires sign == "" ==> body == [] || (!IsSpace(body[0]) && body[0] != '-' && body[0] != '+')
    ensures Magnitude(s) == body
    ensures Negative(s) <==> sign == "-"
  {
    var t := sign + body;
    SkipSpaceOfSpaces(ws, t);
    if sign != "" {
      assert t[0] == sign[0];
      assert t[1..] == body;
    } else {
      assert t == body;
    }
  }

  /** LeadingNumber unfolded once, from a known magnitude and digit run. */
  lemma LeadingNumberFrom(s: string, m: string, n: nat)
    requires Magnitude(s) == m && DigitRun(m) == n && n > 0
    ensures HasLeadingNumber(s)
    ensures LeadingNumber(s) == (if Negative(s) then 0 - DigitsValue(m[..n]) else DigitsValue(m[..n]))
  {
  }

  /** The strict reading of an optional sign and a digit string. */
  lemma NumericValueOfSigned(sign: string, digits: string)
    requires sign == "" || sign == "-" || sign == "+"
    requires |digits| >= 1 && AllDigits(digits)
    ensures IsNumeric(sign + digits)
    ensures NumericValue(sign + digits) == (if sign == "-" then 0 - DigitsValue(digits) else DigitsValue(digits))
  {
    if sign != "" {
      assert (sign + digits)[0] == sign[0];
      assert (sign + digits)[1..] == digits;
    } else {
      assert sign + digits == digits;
    }
  }

  /**
   * std::stoi skips leading white space, reads an optional sign and the
   * longest run of digits after it, and ignores whatever follows.
   */
  lemma StoiReadsPrefix(s: string, ws: string, sign: string, digits: string, rest: string)
    requires s == ws + (sign + (digits + rest))
    requires forall i :: 0 <= i < |ws| ==> IsSpace(ws[i])
    requires sign == "" || sign == "-" || sign == "+"
    requires |digits| >= 1 && AllDigits(digits)
    requires rest == [] || !IsDigit(rest[0])
    ensures HasLeadingNumber(s)
    ensures LeadingNumber(s) == (if sign == "-" then 0 - DigitsValue(digits) else DigitsValue(digits))
    ensures IsNumeric(sign + digits) && LeadingNumber(s) == NumericValue(sign + digits)
  {
    var body := digits + rest;
    assert body[0] == digits[0];
    MagnitudeAfterSign(s, ws, sign, body);
    DigitRunOfDigits(digits, rest);
    assert body[..|digits|] == digits;
    LeadingNumberFrom(s, body, |digits|);
    NumericValueOfSigned(sign, digits);
  }

  /** A strict numeric string is read whole. */
  lemma StoiOfNumeric(s: string)
    requires IsNumeric(s)
    ensures HasLeadingNumber(s) && LeadingNumber(s) == NumericValue(s)
  {
    var none: string := [];
    if s[0] == '-' || s[0] == '+' {
      var sign, digits := s[..1], s[1..];
      assert digits + none == digits && s == sign + digits;
      StoiReadsPrefix(s, none, sign, digits, none);
    } else {
      assert s + none == s && none + s == s;
      StoiReadsPrefix(s, none, none, s, none);
    }
  }

  /** Text with no digit after the white space and sign makes std::stoi throw. */
  lemma StoiRejectsNoDigits(s: string, ws: string, sign: string, rest: string)
    requires s == ws + (sign + rest)
    requires forall i :: 0 <= i < |ws| ==> IsSpace(ws[i])
    requires sign == "" || sign == "-" || sign == "+"
    requires rest == [] || !IsDigit(rest[0])
    requires sign == "" ==> rest == [] || (!IsSpace(rest[0]) && rest[0] != '-' && rest[0] != '+')
    ensures !HasLeadingNumber(s) && !StoiDefined(s)
  {
    MagnitudeAfterSign(s, ws, sign, rest);
  }

  /** One digit followed by text that does not start with a digit converts to that digit. */
  lemma StoiOfDigitThenText(d: char, rest: string)
    requires IsDigit(d)
    requires rest == [] || !IsDigit(rest[0])
    ensures StoiDefined([d] + rest) && Stoi([d] + rest) == d as int - '0' as int
  {
    var none: string := [];
    var s := [d] + rest;
    assert s == none + (none + ([d] + rest));
    DigitsValueOfDigit(d);
    StoiReadsPrefix(s, none, none, [d], rest);
    var v := LeadingNumber(s);
    assert v == DigitsValue([d]);
    assert INT32_MIN <= v <= INT32_MAX;
  }

  /** A single digit's value. */
  lemma DigitsValueOfDigit(d: char)
    requires IsDigit(d)
    ensures AllDigits([d]) && DigitsValue([d]) == d as int - '0' as int
  {
    assert [d][..0] == [];
  }

  /** Whatever follows the digits ("1.0", "1abc") is ignored. */
  lemma StoiIgnoresTrailingText(rest: string)
    requires rest == [] || !IsDigit(rest[0])
    ensures StoiDefined("1" + rest) && Stoi("1" + rest) == 1
  {
    StoiOfDigitThenText('1', rest);
  }

  /** Leading white space does not change the conversion. */
  lemma StoiSkipsLeadingSpace(ws: string, t: string)
    requires forall i :: 0 <= i < |ws| ==> IsSpace(ws[i])
    requires t == [] || !IsSpace(t[0])
    ensures StoiDefined(ws + t) <==> StoiDefined(t)
    ensures StoiDefined(t) ==> Stoi(ws + t) == Stoi(t)
  {
    SkipSpaceOfSpaces(ws, t);
    assert SkipSpace(t) == t;
    SameSkipSameSign(ws + t, t);
    SameSignSameStoi(ws + t, t);
  }

  /** Texts that agree after their white space agree on sign and magnitude. */
  lemma SameSkipSameSign(a: string, b: string)
    requires SkipSpace(a) == SkipSpace(b)
    ensures Magnitude(a) == Magnitude(b) && Negative(a) == Negative(b)
  {
  }

  /** std::stoi depends only on the sign and the magnitude. */
  lemma SameSignSameStoi(a: string, b: string)
    requires Magnitude(a) == Magnitude(b) && Negative(a) == Negative(b)
    ensures StoiDefined(a) <==> StoiDefined(b)
    ensures StoiDefined(a) ==> Stoi(a) == Stoi(b)
  {
    assert HasLeadingNumber(a) == HasLeadingNumber(b);
    if HasLeadingNumber(a) {
      assert LeadingNumber(a) == LeadingNumber(b);
    }
  }

  /** White space before the number (" 1", a tab before "1.0") is skipped. */
  lemma StoiSkipsSpace(ws: string, rest: string)
    requires forall i :: 0 <= i < |ws| ==> IsSpace(ws[i])
    requires rest == [] || !IsDigit(rest[0])
    ensures StoiDefined(ws + "1" + rest) && Stoi(ws + "1" + rest) == 1
  {
    StoiIgnoresTrailingText(rest);
    StoiSkipsLeadingSpace(ws, "1" + rest);
    AppendAssoc(ws, "1", rest);
  }

  /** Text without a leading number is rejected. */
  lemma StoiRejectsWord()
    ensures !StoiDefined("abc")
  {
    var none: string := [];
    StoiRejectsNoDigits("abc", none, none, "abc");
  }

  lemma {:induction false} DigitsValueOfDecimal(n: nat)
    ensures DigitsValue(NatToDecimal(n)) == n
    decreases n
  {
    if n >= 10 {
      DigitsValueOfDecimal(n / 10);
      var s := NatToDecimal(n);
      assert s[..|s| - 1] == NatToDecimal(n / 10);
    }
  }

  /** Parsing the decimal text std::to_string produces gives the value back. */
  lemma DecimalRoundTrip(i: int)
    ensures IsNumeric(IntToDecimal(i))
    ensures NumericValue(IntToDecimal(i)) == i
  {
    if i < 0 {
      DigitsValueOfDecimal(-i);
      assert ("-" + NatToDecimal(-i))[1..] == NatToDecimal(-i);
    } else {
      DigitsValueOfDecimal(i);
    }
  }

  /** Hence std::stoi accepts std::to_string's output for every int value and inverts it. */
  lemma StoiOfToString(i: int)
    requires INT32_MIN <= i <= INT32_MAX
    ensures StoiDefined(IntToDecimal(i)) && Stoi(IntToDecimal(i)) == i
  {
    DecimalRoundTrip(i);
    StoiOfNumeric(IntToDecimal(i));
  }
}
