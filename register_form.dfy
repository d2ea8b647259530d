/** The password-strength meter of the registration form
    (src/components/auth/RegisterForm.tsx): a score from 0 to 5, one point per criterion
    met, and its label and colour. */
module RegisterForm {
  import opened Text
  import Validation

  /** The five criteria, in the order the score tests them. */
  function Criteria(pass: string): seq<bool> {
    [|pass| >= 8, ContainsUpper(pass), ContainsLower(pass), ContainsDigit(pass), ContainsSpecial(pass)]
  }

  function CountTrue(bs: seq<bool>): (r: nat)
    ensures r <= |bs|
  {
    if bs == [] then 0 else (if bs[0] then 1 else 0) + CountTrue(bs[1..])
  }

  function Point(b: bool): nat { if b then 1 else 0 }

  /** The number of true values among five, written out. */
  lemma CountFive(c: seq<bool>)
    requires |c| == 5
    ensures CountTrue(c) == Point(c[0]) + Point(c[1]) + Point(c[2]) + Point(c[3]) + Point(c[4])
  {
    assert c[1..][1..][1..][1..][1..] == [];
    assert CountTrue(c[1..][1..][1..][1..]) == Point(c[4]);
    assert CountTrue(c[1..][1..][1..]) == Point(c[3]) + Point(c[4]);
    assert CountTrue(c[1..][1..]) == Point(c[2]) + Point(c[3]) + Point(c[4]);
    assert CountTrue(c[1..]) == Point(c[1]) + Point(c[2]) + Point(c[3]) + Point(c[4]);
  }

  /** The score: the number of criteria the password meets. */
  function Strength(pass: string): nat {
    CountTrue(Criteria(pass))
  }

  /** `calculatePasswordStrength`: one increment per criterion met. */
  method CalculatePasswordStrength(pass: string) returns (strength: nat)
    ensures strength == Strength(pass)
    ensures strength <= 5
  {
    strength := 0;
    if |pass| >= 8 { strength := strength + 1; }
    if ContainsUpper(pass) { strength := strength + 1; }
    if ContainsLower(pass) { strength := strength + 1; }
    if ContainsDigit(pass) { strength := strength + 1; }
    if ContainsSpecial(pass) { strength := strength + 1; }
    CountFive(Criteria(pass));
  }

  /** The score is 5 exactly when every criterion is met, and 0 exactly when none is. */
  lemma {:induction false} StrengthExtremes(pass: string)
    ensures Strength(pass) <= 5
    ensures Strength(pass) == 5 <==> forall i :: 0 <= i < 5 ==> Criteria(pass)[i]
    ensures Strength(pass) == 0 <==> forall i :: 0 <= i < 5 ==> !Criteria(pass)[i]
  {
    CountFive(Criteria(pass));
  }

  lemma EmptyPasswordScoresZero()
    ensures Strength("") == 0 && StrengthText(Strength("")) == ""
  {
    StrengthExtremes("");
  }

  datatype Label = NoLabel | Weak | Fair | Good | Strong

  /** The band a score falls in; labels and colours are both read off it. */
  function Band(strength: int): Label {
    if strength == 0 then NoLabel
    else if strength <= 2 then Weak
    else if strength == 3 then Fair
    else if strength == 4 then Good
    else Strong
  }

  /** `getStrengthText`. */
  function StrengthText(strength: int): (r: string)
    ensures r == "" <==> strength == 0
    ensures r == "Weak" <==> strength != 0 && strength <= 2
    ensures r == "Fair" <==> strength == 3
    ensures r == "Good" <==> strength == 4
    ensures r == "Strong" <==> strength >= 5
  {
    if strength == 0 then ""
    else if strength <= 2 then "Weak"
    else if strength == 3 then "Fair"
    else if strength == 4 then "Good"
    else "Strong"
  }

  /** `getStrengthColor`. */
  function StrengthColor(strength: int): (r: string)
    ensures r == "bg-gray-300" <==> strength == 0
    ensures r == "bg-red-500" <==> strength != 0 && strength <= 2
    ensures r == "bg-yellow-500" <==> strength == 3
    ensures r == "bg-blue-500" <==> strength == 4
    ensures r == "bg-green-500" <==> strength >= 5
  {
    if strength == 0 then "bg-gray-300"
    else if strength <= 2 then "bg-red-500"
    else if strength == 3 then "bg-yellow-500"
    else if strength == 4 then "bg-blue-500"
    else "bg-green-500"
  }

  /** Label and colour partition the scores the same way. */
  lemma SamePartition(a: int, b: int)
    ensures StrengthText(a) == StrengthText(b) <==> Band(a) == Band(b)
    ensures StrengthColor(a) == StrengthColor(b) <==> Band(a) == Band(b)
  {
  }

  /** A password is accepted by `passwordSchema` exactly when it scores 5 and is labelled
      Strong. */
  lemma PolicyIsFullStrength(pass: string)
    ensures Validation.PasswordPolicy(pass) <==> Strength(pass) == 5
    ensures Validation.PasswordPolicy(pass) ==> StrengthText(Strength(pass)) == "Strong"
  {
    StrengthExtremes(pass);
    var c := Criteria(pass);
    assert Validation.PasswordPolicy(pass) <==> c[0] && c[1] && c[2] && c[3] && c[4];
  }
}
