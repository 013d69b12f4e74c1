/**
 * How both forms talk to the API: the request method, the test
 * `result.status.toString().startsWith('2')` on the response status, and
 * what the form does with the answer.
 */
module Http {
  import JsString

  datatype Method = Post | Put

  /** What the form does once the response arrives: go to the listing page, or report the status. */
  datatype Outcome = Navigate(path: string) | Report(message: string)

  function Digit(d: nat): (c: char)
    requires d < 10
    ensures '0' <= c <= '9'
    ensures c as int - '0' as int == d
  {
    "0123456789"[d]
  }

  /** The number a string of decimal digits denotes, most significant digit first. */
  function DigitsValue(s: string): nat
    requires forall i :: 0 <= i < |s| ==> '0' <= s[i] <= '9'
  {
    if s == [] then 0 else DigitsValue(s[..|s| - 1]) * 10 + (s[|s| - 1] as int - '0' as int)
  }

  /** `n.toString()` for a non-negative integer: the decimal digits that denote `n`, with no leading zero. */
  function DecimalString(n: nat): (s: string)
    ensures |s| >= 1
    ensures forall i :: 0 <= i < |s| ==> '0' <= s[i] <= '9'
    ensures n > 0 ==> s[0] != '0'
    ensures DigitsValue(s) == n
    decreases n
  {
    if n < 10 then [Digit(n)]
    else
      var high := DecimalString(n / 10);
      var s := high + [Digit(n % 10)];
      assert s[..|s| - 1] == high;
      s
  }

  /** The most significant decimal digit of `n`. */
  function LeadingDigit(n: nat): (d: nat)
    ensures d < 10
    ensures n > 0 ==> d > 0
    decreases n
  {
    if n < 10 then n else LeadingDigit(n / 10)
  }

  lemma {:induction false} DecimalStringStartsWithLeadingDigit(n: nat)
    ensures DecimalString(n)[0] == Digit(LeadingDigit(n))
    decreases n
  {
    if n >= 10 {
      DecimalStringStartsWithLeadingDigit(n / 10);
    }
  }

  /** The success test both forms apply to the response status. */
  predicate IsSuccess(status: nat) {
    JsString.StartsWith(DecimalString(status), "2")
  }

  /** The status counts as success exactly when its leading decimal digit is 2. */
  lemma SuccessIffLeadingTwo(status: nat)
    ensures IsSuccess(status) <==> LeadingDigit(status) == 2
  {
    DecimalStringStartsWithLeadingDigit(status);
    var s := DecimalString(status);
    assert s[..1] == [s[0]];
    if LeadingDigit(status) == 2 {
      assert s[0] == '2';
    }
  }

  /** For three-digit statuses the test accepts exactly 200..299. */
  lemma ThreeDigitSuccess(status: nat)
    ensures 100 <= status <= 999 ==> (IsSuccess(status) <==> 200 <= status <= 299)
  {
    SuccessIffLeadingTwo(status);
    if 100 <= status <= 999 {
      assert LeadingDigit(status) == LeadingDigit(status / 10) == LeadingDigit(status / 100);
      assert LeadingDigit(status) == status / 100;
    }
  }

  /**
   * The response handling of both forms: on success go to `listing`,
   * otherwise report `status + ' ' + statusText`.
   */
  function Settle(status: nat, statusText: string, listing: string): (o: Outcome)
    ensures o.Navigate? <==> LeadingDigit(status) == 2
    ensures 100 <= status <= 999 ==> (o.Navigate? <==> 200 <= status <= 299)
    ensures o.Navigate? ==> o.path == listing
    ensures o.Report? ==> JsString.StartsWith(o.message, DecimalString(status))
  {
    SuccessIffLeadingTwo(status);
    ThreeDigitSuccess(status);
    if IsSuccess(status) then Navigate(listing)
    else
      var message := DecimalString(status) + " " + statusText;
      assert message[..|DecimalString(status)|] == DecimalString(status);
      Report(message)
  }
}
