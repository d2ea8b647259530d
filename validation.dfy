/** The form schemas of src/lib/utils/validation.ts, with the behaviour of zod 3 that they
    rely on: every check of a string field is run and reported, in the order written;
    an object's `refine` runs unless a field was rejected outright (an enum value outside
    its options), and its issue is reported after the field issues. A schema accepts its
    input exactly when it reports no issue. zod's built-in e-mail test is the parameter
    `isEmail`. */
module Validation {
  import opened Wrappers
  import opened Text

  /** The rule an issue reports. Field rules are identified by their kind; regex and
      refinement rules by the message the schema gives them. */
  datatype Check =
    | TooShort(minimum: nat)
    | TooLong(maximum: nat)
    | NoMatch(message: string)
    | NotEmail
    | NotAnOption
    | Refinement(message: string)

  /** One reported problem: the field it is attached to and the rule that failed. */
  datatype Issue = Issue(path: string, check: Check)

  predicate OnPath(issues: seq<Issue>, path: string) {
    forall i :: 0 <= i < |issues| ==> issues[i].path == path
  }

  predicate MentionsPath(issues: seq<Issue>, path: string) {
    exists i :: 0 <= i < |issues| && issues[i].path == path
  }

  /** `.min(n)` on a string. */
  function MinLength(path: string, s: string, n: nat): (r: seq<Issue>)
    ensures OnPath(r, path)
    ensures r == [] <==> |s| >= n
  {
    if |s| < n then [Issue(path, TooShort(n))] else []
  }

  /** `.max(n)` on a string. */
  function MaxLength(path: string, s: string, n: nat): (r: seq<Issue>)
    ensures OnPath(r, path)
    ensures r == [] <==> |s| <= n
  {
    if |s| > n then [Issue(path, TooLong(n))] else []
  }

  /** `.regex(re, message)` for a regex given as the predicate `matches`. */
  function Pattern(path: string, matches: bool, message: string): (r: seq<Issue>)
    ensures OnPath(r, path)
    ensures r == [] <==> matches
  {
    if matches then [] else [Issue(path, NoMatch(message))]
  }

  /** `emailSchema`. */
  function EmailIssues(path: string, s: string, isEmail: string -> bool): (r: seq<Issue>)
    ensures OnPath(r, path)
    ensures r == [] <==> isEmail(s)
  {
    if isEmail(s) then [] else [Issue(path, NotEmail)]
  }

  lemma {:induction false} AvoidsPathAppend(a: seq<Issue>, b: seq<Issue>, path: string)
    requires !MentionsPath(a, path) && !MentionsPath(b, path)
    ensures !MentionsPath(a + b, path)
  {
    forall i | 0 <= i < |a + b| ensures (a + b)[i].path != path {
      if i < |a| { assert (a + b)[i] == a[i]; } else { assert (a + b)[i] == b[i - |a|]; }
    }
  }

  lemma OtherPathAvoided(issues: seq<Issue>, own: string, path: string)
    requires OnPath(issues, own) && own != path
    ensures !MentionsPath(issues, path)
  {
  }

  // ---------------------------------------------------------------------------------
  // passwordSchema

  /** The password policy: at least 8 characters, with an upper-case letter, a lower-case
      letter, a digit and a character that is none of these. */
  predicate PasswordPolicy(p: string) {
    |p| >= 8 && ContainsUpper(p) && ContainsLower(p) && ContainsDigit(p) && ContainsSpecial(p)
  }

  /** `passwordSchema`: the length check, then the four regexes. */
  function PasswordIssues(path: string, p: string): (r: seq<Issue>)
    ensures OnPath(r, path)
    ensures r == [] <==> PasswordPolicy(p)
  {
    var r := MinLength(path, p, 8)
      + Pattern(path, ContainsUpper(p), "Password must contain at least one uppercase letter")
      + Pattern(path, ContainsLower(p), "Password must contain at least one lowercase letter")
      + Pattern(path, ContainsDigit(p), "Password must contain at least one number")
      + Pattern(path, ContainsSpecial(p), "Password must contain at least one special character");
    r
  }

  // ---------------------------------------------------------------------------------
  // phoneSchema: /^\+?[1-9]\d{1,14}$/

  /** The states of a matcher running the phone regex from left to right:
      before anything, after the `+`, and after the leading `[1-9]` and `count` digits. */
  datatype PhoneState = AtStart | AfterPlus | InDigits(count: nat)

  function PhoneStep(st: PhoneState, c: char): Option<PhoneState> {
    match st
    case AtStart => if c == '+' then Some(AfterPlus) else if '1' <= c <= '9' then Some(InDigits(0)) else None
    case AfterPlus => if '1' <= c <= '9' then Some(InDigits(0)) else None
    case InDigits(k) => if IsDigit(c) && k < 14 then Some(InDigits(k + 1)) else None
  }

  /** `$`: the input ends after `\d{1,14}`. */
  predicate PhoneAccepts(st: PhoneState) {
    st.InDigits? && 1 <= st.count <= 14
  }

  function PhoneRun(s: string, st: PhoneState): bool {
    if s == [] then PhoneAccepts(st)
    else match PhoneStep(st, s[0])
      case None => false
      case Some(next) => PhoneRun(s[1..], next)
  }

  /** What the regex accepts, said directly: an optional `+`, then 2 to 15 digits of which
      the first is not 0 (the at most 15 digits of an ITU-T E.164 number). */
  predicate PhoneShape(s: string) {
    var digits := PhoneDigits(s);
    2 <= |digits| <= 15 && '1' <= digits[0] <= '9' && AllDigits(digits)
  }

  /** The number without its optional leading `+`. */
  function PhoneDigits(s: string): string {
    if |s| > 0 && s[0] == '+' then s[1..] else s
  }

  predicate AllDigits(s: string) {
    forall i :: 0 <= i < |s| ==> IsDigit(s[i])
  }

  lemma {:induction false} PhoneRunDigits(s: string, k: nat)
    requires k <= 14
    ensures PhoneRun(s, InDigits(k)) <==> 1 <= k + |s| <= 14 && AllDigits(s)
  {
    if s != [] {
      if IsDigit(s[0]) && k < 14 {
        PhoneRunDigits(s[1..], k + 1);
        assert AllDigits(s) <==> AllDigits(s[1..]) by {
          if AllDigits(s[1..]) {
            forall i | 0 <= i < |s| ensures IsDigit(s[i]) {
              if i > 0 { assert s[i] == s[1..][i - 1]; }
            }
          }
        }
      } else {
        assert !AllDigits(s) || k + |s| > 14;
      }
    }
  }

  /** The matcher accepts exactly the strings of the described shape. */
  lemma {:induction false} PhoneRegexShape(s: string)
    ensures PhoneRun(s, AtStart) <==> PhoneShape(s)
  {
    if s == [] {
    } else {
      var digits := PhoneDigits(s);
      if s[0] == '+' {
        assert PhoneRun(s, AtStart) == PhoneRun(digits, AfterPlus);
        if digits != [] && '1' <= digits[0] <= '9' {
          assert PhoneRun(digits, AfterPlus) == PhoneRun(digits[1..], InDigits(0));
          PhoneRunDigits(digits[1..], 0);
          assert AllDigits(digits) <==> AllDigits(digits[1..]) by {
            if AllDigits(digits[1..]) {
              forall i | 0 <= i < |digits| ensures IsDigit(digits[i]) {
                if i > 0 { assert digits[i] == digits[1..][i - 1]; }
              }
            }
          }
        }
      } else if '1' <= s[0] <= '9' {
        PhoneRunDigits(s[1..], 0);
        assert AllDigits(s) <==> AllDigits(s[1..]) by {
          if AllDigits(s[1..]) {
            forall i | 0 <= i < |s| ensures IsDigit(s[i]) {
              if i > 0 { assert s[i] == s[1..][i - 1]; }
            }
          }
        }
      }
    }
  }

  /** `phoneSchema`: absent, or matching the regex. */
  function PhoneIssues(path: string, phone: Option<string>): (r: seq<Issue>)
    ensures OnPath(r, path)
    ensures r == [] <==> phone.None? || PhoneShape(phone.value)
  {
    if phone.Some? then
      PhoneRegexShape(phone.value);
      Pattern(path, PhoneRun(phone.value, AtStart), "Invalid phone number format")
    else []
  }

  // ---------------------------------------------------------------------------------
  // nameSchema

  function NameIssues(path: string, s: string): (r: seq<Issue>)
    ensures OnPath(r, path)
    ensures r == [] <==> 1 <= |s| <= 50
  {
    MinLength(path, s, 1) + MaxLength(path, s, 50)
  }

  /** The `refine` of the password forms: an issue on `confirmPassword` unless the two agree. */
  function ConfirmIssues(password: string, confirm: string): (r: seq<Issue>)
    ensures OnPath(r, "confirmPassword")
    ensures r == [] <==> password == confirm
  {
    if password == confirm then [] else [Issue("confirmPassword", Refinement("Passwords don't match"))]
  }

  // ---------------------------------------------------------------------------------
  // The form schemas

  datatype LoginData = LoginData(email: string, password: string)

  /** `loginSchema`. */
  function LoginIssues(d: LoginData, isEmail: string -> bool): (r: seq<Issue>)
    ensures r == [] <==> isEmail(d.email) && d.password != ""
  {
    EmailIssues("email", d.email, isEmail) + MinLength("password", d.password, 1)
  }

  datatype RegisterData = RegisterData(
    email: string, password: string, confirmPassword: string,
    firstName: string, lastName: string, phoneNumber: Option<string>)

  /** The field issues of `registerSchema`, in the order of its fields. */
  function RegisterFieldIssues(d: RegisterData, isEmail: string -> bool): seq<Issue> {
    EmailIssues("email", d.email, isEmail)
    + PasswordIssues("password", d.password)
    + NameIssues("firstName", d.firstName)
    + NameIssues("lastName", d.lastName)
    + PhoneIssues("phoneNumber", d.phoneNumber)
  }

  /** `registerSchema`: the field issues, then the confirmation refinement. */
  function RegisterIssues(d: RegisterData, isEmail: string -> bool): (r: seq<Issue>)
    ensures r == [] <==>
      && isEmail(d.email) && PasswordPolicy(d.password)
      && 1 <= |d.firstName| <= 50 && 1 <= |d.lastName| <= 50
      && (d.phoneNumber.None? || PhoneShape(d.phoneNumber.value))
      && d.password == d.confirmPassword
  {
    RegisterFieldIssues(d, isEmail) + ConfirmIssues(d.password, d.confirmPassword)
  }

  /** The error on `confirmPassword` is reported exactly when the two passwords differ,
      whatever the other fields hold. */
  lemma RegisterConfirmError(d: RegisterData, isEmail: string -> bool)
    ensures MentionsPath(RegisterIssues(d, isEmail), "confirmPassword") <==> d.password != d.confirmPassword
  {
    var f := RegisterFieldIssues(d, isEmail);
    var c := ConfirmIssues(d.password, d.confirmPassword);
    assert !MentionsPath(f, "confirmPassword") by {
      var e := EmailIssues("email", d.email, isEmail);
      var p := PasswordIssues("password", d.password);
      var n1 := NameIssues("firstName", d.firstName);
      var n2 := NameIssues("lastName", d.lastName);
      var ph := PhoneIssues("phoneNumber", d.phoneNumber);
      OtherPathAvoided(e, "email", "confirmPassword");
      OtherPathAvoided(p, "password", "confirmPassword");
      OtherPathAvoided(n1, "firstName", "confirmPassword");
      OtherPathAvoided(n2, "lastName", "confirmPassword");
      OtherPathAvoided(ph, "phoneNumber", "confirmPassword");
      AvoidsPathAppend(e, p, "confirmPassword");
      AvoidsPathAppend(e + p, n1, "confirmPassword");
      AvoidsPathAppend(e + p + n1, n2, "confirmPassword");
      AvoidsPathAppend(e + p + n1 + n2, ph, "confirmPassword");
    }
    var r := f + c;
    if d.password != d.confirmPassword {
      assert r[|f|].path == "confirmPassword";
    } else {
      assert r == f;
    }
  }

  datatype PaymentMethod = Card | Paypal

  /** The checkout form as submitted: the fields with a default or marked optional may be
      absent. */
  datatype CheckoutForm = CheckoutForm(
    fullName: string,
    shippingStreet: string,
    shippingCity: string,
    shippingState: string,
    shippingPostalCode: string,
    shippingCountry: Option<string>,
    paymentMethod: Option<string>,
    cardNumber: Option<string>,
    expirationDate: Option<string>,
    cvv: Option<string>)

  /** The parsed checkout data, with the defaults applied. */
  datatype CheckoutData = CheckoutData(
    fullName: string,
    shippingStreet: string,
    shippingCity: string,
    shippingState: string,
    shippingPostalCode: string,
    shippingCountry: string,
    paymentMethod: PaymentMethod,
    cardNumber: Option<string>,
    expirationDate: Option<string>,
    cvv: Option<string>)

  const DefaultCountry: string := "USA"

  /** `z.enum(['card', 'paypal']).default('card')`. */
  function ParsePaymentMethod(m: Option<string>): (r: Option<PaymentMethod>)
    ensures m.None? ==> r == Some(Card)
    ensures r == Some(Paypal) <==> m == Some("paypal")
    ensures r.None? <==> m.Some? && m.value != "card" && m.value != "paypal"
  {
    match m
    case None => Some(Card)
    case Some(s) => if s == "card" then Some(Card) else if s == "paypal" then Some(Paypal) else None
  }

  /** A truthy optional string: present and non-empty. */
  predicate Filled(s: Option<string>) {
    s.Some? && s.value != ""
  }

  /** The `refine` of `checkoutSchema`: card payment needs all three card fields. */
  predicate CardDetailsGiven(pm: PaymentMethod, f: CheckoutForm) {
    pm == Card ==> Filled(f.cardNumber) && Filled(f.expirationDate) && Filled(f.cvv)
  }

  function CheckoutFieldIssues(f: CheckoutForm): seq<Issue> {
    MinLength("fullName", f.fullName, 2)
    + MinLength("shippingStreet", f.shippingStreet, 5)
    + MinLength("shippingCity", f.shippingCity, 2)
    + MinLength("shippingState", f.shippingState, 2)
    + MinLength("shippingPostalCode", f.shippingPostalCode, 3)
    + MinLength("shippingCountry", f.shippingCountry.GetOr(DefaultCountry), 2)
    + (if ParsePaymentMethod(f.paymentMethod).None? then [Issue("paymentMethod", NotAnOption)] else [])
  }

  /** `checkoutSchema`: the field issues; then, unless the payment method was rejected
      (which aborts the object, so the refinement does not run), the card-details issue
      on `cardNumber`. */
  function CheckoutIssues(f: CheckoutForm): seq<Issue> {
    var pm := ParsePaymentMethod(f.paymentMethod);
    CheckoutFieldIssues(f)
    + (if pm.Some? && !CardDetailsGiven(pm.value, f)
       then [Issue("cardNumber", Refinement("Card details are required"))] else [])
  }

  /** Parsing a checkout form: the data with its defaults, or the issues. */
  function ParseCheckout(f: CheckoutForm): (r: Result<CheckoutData, seq<Issue>>)
    ensures r.Ok? <==>
      && |f.fullName| >= 2 && |f.shippingStreet| >= 5 && |f.shippingCity| >= 2
      && |f.shippingState| >= 2 && |f.shippingPostalCode| >= 3
      && (f.shippingCountry.None? || |f.shippingCountry.value| >= 2)
      && ParsePaymentMethod(f.paymentMethod).Some?
      && CardDetailsGiven(ParsePaymentMethod(f.paymentMethod).value, f)
    ensures r.Ok? ==>
      && r.value.shippingCountry == (if f.shippingCountry.Some? then f.shippingCountry.value else "USA")
      && r.value.paymentMethod == (if f.paymentMethod.None? then Card else ParsePaymentMethod(f.paymentMethod).value)
    ensures r.Ok? ==>
      && r.value.fullName == f.fullName && r.value.shippingStreet == f.shippingStreet
      && r.value.shippingCity == f.shippingCity && r.value.shippingState == f.shippingState
      && r.value.shippingPostalCode == f.shippingPostalCode
      && r.value.cardNumber == f.cardNumber && r.value.expirationDate == f.expirationDate
      && r.value.cvv == f.cvv
    ensures r.Err? ==> r.error == CheckoutIssues(f) && r.error != []
  {
    var issues := CheckoutIssues(f);
    if issues == [] then
      Ok(CheckoutData(f.fullName, f.shippingStreet, f.shippingCity, f.shippingState,
                      f.shippingPostalCode, f.shippingCountry.GetOr(DefaultCountry),
                      ParsePaymentMethod(f.paymentMethod).value,
                      f.cardNumber, f.expirationDate, f.cvv))
    else Err(issues)
  }

  /** Paying by PayPal never needs card details. */
  lemma PaypalNeedsNoCard(f: CheckoutForm)
    requires f.paymentMethod == Some("paypal")
    ensures !MentionsPath(CheckoutIssues(f), "cardNumber")
  {
    var p := "cardNumber";
    var i1 := MinLength("fullName", f.fullName, 2);
    var i2 := MinLength("shippingStreet", f.shippingStreet, 5);
    var i3 := MinLength("shippingCity", f.shippingCity, 2);
    var i4 := MinLength("shippingState", f.shippingState, 2);
    var i5 := MinLength("shippingPostalCode", f.shippingPostalCode, 3);
    var i6 := MinLength("shippingCountry", f.shippingCountry.GetOr(DefaultCountry), 2);
    OtherPathAvoided(i1, "fullName", p);
    OtherPathAvoided(i2, "shippingStreet", p);
    OtherPathAvoided(i3, "shippingCity", p);
    OtherPathAvoided(i4, "shippingState", p);
    OtherPathAvoided(i5, "shippingPostalCode", p);
    OtherPathAvoided(i6, "shippingCountry", p);
    AvoidsPathAppend(i1, i2, p);
    AvoidsPathAppend(i1 + i2, i3, p);
    AvoidsPathAppend(i1 + i2 + i3, i4, p);
    AvoidsPathAppend(i1 + i2 + i3 + i4, i5, p);
    AvoidsPathAppend(i1 + i2 + i3 + i4 + i5, i6, p);
    assert CheckoutIssues(f) == i1 + i2 + i3 + i4 + i5 + i6;
  }

  datatype ChangePasswordData = ChangePasswordData(
    currentPassword: string, newPassword: string, confirmPassword: string)

  /** `changePasswordSchema`. */
  function ChangePasswordIssues(d: ChangePasswordData): (r: seq<Issue>)
    ensures r == [] <==> d.currentPassword != "" && PasswordPolicy(d.newPassword) && d.newPassword == d.confirmPassword
  {
    MinLength("currentPassword", d.currentPassword, 1)
    + PasswordIssues("newPassword", d.newPassword)
    + ConfirmIssues(d.newPassword, d.confirmPassword)
  }

  datatype ResetPasswordData = ResetPasswordData(
    email: string, token: string, newPassword: string, confirmPassword: string)

  /** `resetPasswordSchema`. */
  function ResetPasswordIssues(d: ResetPasswordData, isEmail: string -> bool): (r: seq<Issue>)
    ensures r == [] <==>
      isEmail(d.email) && d.token != "" && PasswordPolicy(d.newPassword) && d.newPassword == d.confirmPassword
  {
    EmailIssues("email", d.email, isEmail)
    + MinLength("token", d.token, 1)
    + PasswordIssues("newPassword", d.newPassword)
    + ConfirmIssues(d.newPassword, d.confirmPassword)
  }

  datatype ShippingAddress = ShippingAddress(
    shippingStreet: string, shippingCity: string, shippingState: string,
    shippingPostalCode: string, shippingCountry: string)

  /** `shippingAddressSchema`: every field non-empty. */
  function ShippingAddressIssues(a: ShippingAddress): (r: seq<Issue>)
    ensures r == [] <==>
      a.shippingStreet != "" && a.shippingCity != "" && a.shippingState != ""
      && a.shippingPostalCode != "" && a.shippingCountry != ""
  {
    MinLength("shippingStreet", a.shippingStreet, 1)
    + MinLength("shippingCity", a.shippingCity, 1)
    + MinLength("shippingState", a.shippingState, 1)
    + MinLength("shippingPostalCode", a.shippingPostalCode, 1)
    + MinLength("shippingCountry", a.shippingCountry, 1)
  }
}
