/** The message a non-ok HTTP reply turns into:
    `${res.status} ${res.statusText}: ${text}`. */
module StatusMessages {

  predicate IsDigit(c: char) {
    '0' <= c <= '9'
  }

  predicate AllDigits(s: string) {
    forall i :: 0 <= i < |s| ==> IsDigit(s[i])
  }

  /** The decimal numeral JavaScript writes for a non-negative integer. */
  function DecimalString(n: nat): (s: string)
    ensures s != [] && AllDigits(s)
    ensures |s| > 1 ==> s[0] != '0'
  {
    if n < 10 then [(n as int + '0' as int) as char]
    else DecimalString(n / 10) + [((n % 10) as int + '0' as int) as char]
  }

  /** The value of a string of decimal digits. */
  function DecimalValue(s: string): nat
    requires AllDigits(s)
  {
    if s == [] then 0
    else DecimalValue(s[..|s| - 1]) * 10 + (s[|s| - 1] as int - '0' as int)
  }

  /** Reading the numeral back gives the status code it was written from. */
  lemma {:induction false} DecimalRoundTrip(n: nat)
    ensures DecimalValue(DecimalString(n)) == n
  {
    var s := DecimalString(n);
    if n >= 10 {
      DecimalRoundTrip(n / 10);
      assert s[..|s| - 1] == DecimalString(n / 10);
    }
  }

  /** The error message for a reply whose status is not ok. */
  function StatusMessage(status: nat, statusText: string, text: string): (m: string)
    ensures DecimalString(status) + " " <= m
    ensures |text| <= |m| && m[|m| - |text|..] == text
    ensures |DecimalString(status)| + 1 <= |m| - |text| &&
            m[|DecimalString(status)| + 1..|m| - |text|] == statusText + ": "
  {
    var d := DecimalString(status);
    var m := d + " " + statusText + ": " + text;
    assert m == d + " " + (statusText + ": ") + text;
    m
  }

  /** The leading run of digits of a message. */
  function LeadingDigits(m: string): (d: string)
    ensures d <= m && AllDigits(d)
    ensures |d| < |m| ==> !IsDigit(m[|d|])
  {
    if m == [] || !IsDigit(m[0]) then [] else [m[0]] + LeadingDigits(m[1..])
  }

  /** The status code read back from the front of a message. */
  function StatusOf(m: string): nat {
    DecimalValue(LeadingDigits(m))
  }

  /** The digits before the first non-digit are exactly the status numeral. */
  lemma {:induction false} LeadingDigitsOfNumeral(digits: string, rest: string)
    requires AllDigits(digits)
    requires rest != [] && !IsDigit(rest[0])
    ensures LeadingDigits(digits + rest) == digits
  {
    if digits != [] {
      assert (digits + rest)[1..] == digits[1..] + rest;
      LeadingDigitsOfNumeral(digits[1..], rest);
    } else {
      assert digits + rest == rest;
    }
  }

  /** The status code can be recovered from the message, and the reply body
      text ends it, whatever the status text is. */
  lemma StatusMessageRecoverable(status: nat, statusText: string, text: string)
    ensures StatusOf(StatusMessage(status, statusText, text)) == status
    ensures var m := StatusMessage(status, statusText, text);
            m[|m| - |text|..] == text
  {
    var m := StatusMessage(status, statusText, text);
    var rest := " " + statusText + ": " + text;
    assert m == DecimalString(status) + rest;
    LeadingDigitsOfNumeral(DecimalString(status), rest);
    DecimalRoundTrip(status);
  }
}
