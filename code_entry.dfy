/** The six-digit code field shared by the login form's 2FA screen and the 2FA setup
    screen: the input keeps only its digits (`value.replace(/\D/g, '')`), and the submit
    button is enabled for exactly six digits while nothing is loading. */
module CodeEntry {
  import opened Text

  /** `s.replace(/\D/g, '')`. */
  function DigitsOnly(s: string): string {
    if s == [] then ""
    else if IsDigit(s[0]) then [s[0]] + DigitsOnly(s[1..])
    else DigitsOnly(s[1..])
  }

  /** The filter keeps exactly the digits of the input, in order. */
  lemma {:induction false} DigitsOnlyKeepsDigits(s: string)
    ensures |DigitsOnly(s)| <= |s|
    ensures forall i :: 0 <= i < |DigitsOnly(s)| ==> IsDigit(DigitsOnly(s)[i])
    ensures forall c :: c in DigitsOnly(s) <==> c in s && IsDigit(c)
  {
    if s != [] {
      DigitsOnlyKeepsDigits(s[1..]);
      assert s == [s[0]] + s[1..];
    }
  }

  /** The filter keeps order: filtering a concatenation filters each part. */
  lemma {:induction false} DigitsOnlyAppend(a: string, b: string)
    ensures DigitsOnly(a + b) == DigitsOnly(a) + DigitsOnly(b)
  {
    if a == [] {
      assert a + b == b;
    } else {
      assert (a + b)[0] == a[0];
      assert (a + b)[1..] == a[1..] + b;
      DigitsOnlyAppend(a[1..], b);
    }
  }

  /** A string of digits passes unchanged, so filtering twice is filtering once. */
  lemma {:induction false} DigitsOnlyIdempotent(s: string)
    ensures DigitsOnly(DigitsOnly(s)) == DigitsOnly(s)
  {
    if s != [] {
      DigitsOnlyIdempotent(s[1..]);
    }
  }

  /** `disabled={code.length !== 6 || isLoading}`, negated. */
  predicate SubmitEnabled(code: string, isLoading: bool) {
    |code| == 6 && !isLoading
  }
}
