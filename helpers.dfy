/** String helpers of src/lib/utils/helpers.ts: `truncate` and `getInitials`. */
module Helpers {
  import opened Text

  /** `text.substring(0, end)` for `end < |text|`: a negative end counts as 0. */
  function PrefixUpTo(text: string, end: int): (r: string)
    requires end < |text|
    ensures |r| == if end < 0 then 0 else end
    ensures r == text[..|r|]
  {
    if end < 0 then "" else text[..end]
  }

  /** `truncate`: the text itself when it fits, else its first `maxLength - 3` characters
      followed by "...". */
  function Truncate(text: string, maxLength: int): (r: string)
    ensures |text| <= maxLength ==> r == text
    ensures |text| > maxLength && maxLength >= 3 ==>
      |r| == maxLength && r == text[..maxLength - 3] + "..."
    ensures |text| > maxLength && maxLength < 3 ==> r == "..."
    ensures |text| > maxLength ==>
      |r| >= 3 && r[|r| - 3..] == "..." && StartsWith(text, r[..|r| - 3])
  {
    if |text| <= maxLength then text
    else
      var kept := PrefixUpTo(text, maxLength - 3);
      var r := kept + "...";
      assert r[..|r| - 3] == kept && r[|r| - 3..] == "...";
      r
  }

  /** Truncating a truncated text to the same length changes nothing more. */
  lemma TruncateIdempotent(text: string, maxLength: int)
    ensures Truncate(Truncate(text, maxLength), maxLength) == Truncate(text, maxLength)
  {
  }

  /** `s.charAt(0)`: the first character, or the empty string. */
  function FirstChar(s: string): (r: string)
    ensures |r| <= 1
    ensures r == [] <==> s == []
    ensures r != [] ==> r[0] == s[0]
  {
    if s == [] then "" else [s[0]]
  }

  /** `getInitials`: the first character of each name, upper-cased. */
  function GetInitials(firstName: string, lastName: string): (r: string)
    ensures |r| == |FirstChar(firstName)| + |FirstChar(lastName)| <= 2
    ensures forall i :: 0 <= i < |r| ==> !IsLower(r[i])
    ensures firstName != [] ==> r[0] == ToUpperChar(firstName[0])
    ensures lastName != [] ==> r[|r| - 1] == ToUpperChar(lastName[0])
  {
    ToUpper(FirstChar(firstName) + FirstChar(lastName))
  }
}
