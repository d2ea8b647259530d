/** The text input component (src/components/ui/Input.tsx): how the element id is derived
    from the `id` and `label` props, and which messages are shown under the field. */
module InputField {
  import opened Wrappers
  import opened Text

  /** The whitespace at the front of `s`, dropped. */
  function DropSpaces(s: string): (r: string)
    ensures |r| <= |s| && (r == [] || !IsSpace(r[0]))
    ensures r == s[|s| - |r|..]
  {
    if s != [] && IsSpace(s[0]) then DropSpaces(s[1..]) else s
  }

  /** `s.replace(/\s+/g, '-')`: every maximal run of whitespace becomes one `-`. */
  function Dashed(s: string): (r: string)
    decreases |s|
  {
    if s == [] then []
    else if IsSpace(s[0]) then "-" + Dashed(DropSpaces(s[1..]))
    else [s[0]] + Dashed(s[1..])
  }

  predicate NoSpace(s: string) {
    forall i :: 0 <= i < |s| ==> !IsSpace(s[i])
  }

  predicate NoUpper(s: string) {
    forall i :: 0 <= i < |s| ==> !IsUpper(s[i])
  }

  /** The result never contains whitespace. */
  lemma {:induction false} DashedNoSpace(s: string)
    ensures NoSpace(Dashed(s))
    decreases |s|
  {
    if s != [] {
      var rest := if IsSpace(s[0]) then DropSpaces(s[1..]) else s[1..];
      var head := if IsSpace(s[0]) then "-" else [s[0]];
      DashedNoSpace(rest);
      assert Dashed(s) == head + Dashed(rest);
      assert NoSpace(head);
      NoSpaceConcat(head, Dashed(rest));
    }
  }

  lemma NoSpaceConcat(a: string, b: string)
    requires NoSpace(a) && NoSpace(b)
    ensures NoSpace(a + b)
  {
    forall i | 0 <= i < |a + b| ensures !IsSpace((a + b)[i]) {
      if i >= |a| { assert (a + b)[i] == b[i - |a|]; }
    }
  }

  /** Each character of the result is a dash or a character of the input. */
  lemma {:induction false} DashedFrom(s: string)
    ensures forall c :: c in Dashed(s) ==> c == '-' || c in s
    decreases |s|
  {
    if s != [] {
      var rest := if IsSpace(s[0]) then DropSpaces(s[1..]) else s[1..];
      var head := if IsSpace(s[0]) then "-" else [s[0]];
      DashedFrom(rest);
      assert Dashed(s) == head + Dashed(rest);
      assert forall c :: c in rest ==> c in s;
    }
  }

  /** Text without whitespace is left as it is. */
  lemma {:induction false} DashedIdentity(s: string)
    requires NoSpace(s)
    ensures Dashed(s) == s
  {
    if s != [] {
      assert NoSpace(s[1..]);
      DashedIdentity(s[1..]);
    }
  }

  /** Only whitespace. */
  predicate AllSpace(w: string) {
    forall i :: 0 <= i < |w| ==> IsSpace(w[i])
  }

  /** Neither end of `s` is whitespace (the empty text included). */
  predicate EndsNoSpace(s: string) { s == [] || !IsSpace(s[|s| - 1]) }
  predicate StartsNoSpace(s: string) { s == [] || !IsSpace(s[0]) }

  /** Dropping a run of whitespace in front of text that does not start with whitespace. */
  lemma {:induction false} DropSpacesRun(w: string, b: string)
    requires AllSpace(w) && StartsNoSpace(b)
    ensures DropSpaces(w + b) == b
  {
    if w != [] {
      assert (w + b)[1..] == w[1..] + b;
      DropSpacesRun(w[1..], b);
    } else {
      assert w + b == b;
    }
  }

  /** Leading whitespace is dropped only up to the first non-space character. */
  lemma {:induction false} DropSpacesPrefix(x: string, y: string)
    requires x != [] && !IsSpace(x[|x| - 1])
    ensures DropSpaces(x + y) == DropSpaces(x) + y
  {
    if IsSpace(x[0]) {
      assert (x + y)[1..] == x[1..] + y;
      DropSpacesPrefix(x[1..], y);
    }
  }

  /** A run of whitespace at the front becomes one dash. */
  lemma DashedLeadingRun(w: string, b: string)
    requires w != [] && AllSpace(w) && StartsNoSpace(b)
    ensures Dashed(w + b) == "-" + Dashed(b)
  {
    var s := w + b;
    assert IsSpace(s[0]);
    assert s[1..] == w[1..] + b;
    DropSpacesRun(w[1..], b);
  }

  lemma DashedCharCons(c: char, x: string)
    requires !IsSpace(c)
    ensures Dashed([c] + x) == [c] + Dashed(x)
  {
    assert ([c] + x)[1..] == x;
  }

  lemma DashedSpaceCons(c: char, x: string)
    requires IsSpace(c)
    ensures Dashed([c] + x) == "-" + Dashed(DropSpaces(x))
  {
    assert ([c] + x)[1..] == x;
  }

  lemma ConcatAssoc(x: string, y: string, z: string)
    ensures x + (y + z) == x + y + z
  {
  }

  /** One step of `DashedRun` when `a` starts with whitespace: the run becomes a dash. */
  lemma DashedSpaceStep(c: char, r: string, t: string)
    requires IsSpace(c) && r != [] && !IsSpace(r[|r| - 1])
    ensures Dashed([c] + r + t) == "-" + Dashed(DropSpaces(r) + t)
    ensures Dashed([c] + r) == "-" + Dashed(DropSpaces(r))
  {
    ConcatAssoc([c], r, t);
    DashedSpaceCons(c, r + t);
    DashedSpaceCons(c, r);
    DropSpacesPrefix(r, t);
  }

  /** One step of `DashedRun` when `a` starts with another character: it is kept. */
  lemma DashedCharStep(c: char, r: string, t: string)
    requires !IsSpace(c)
    ensures Dashed([c] + r + t) == [c] + Dashed(r + t)
    ensures Dashed([c] + r) == [c] + Dashed(r)
  {
    ConcatAssoc([c], r, t);
    DashedCharCons(c, r + t);
    DashedCharCons(c, r);
  }

  /** One step of `DashedRun`: the first character of `a`, and what `Dashed` goes on with. */
  lemma DashedRunHead(a: string, t: string) returns (head: string, rest: string)
    requires a != [] && !IsSpace(a[|a| - 1])
    ensures Dashed(a + t) == head + Dashed(rest + t)
    ensures Dashed(a) == head + Dashed(rest)
    ensures |rest| < |a| && (rest == [] || !IsSpace(rest[|rest| - 1]))
  {
    var c, r := a[0], a[1..];
    assert a == [c] + r;
    if IsSpace(c) {
      DashedSpaceStep(c, r, t);
      head, rest := "-", DropSpaces(r);
    } else {
      DashedCharStep(c, r, t);
      head, rest := [c], r;
    }
  }

  /** A maximal run of whitespace between `a` and `b` becomes exactly one dash. */
  lemma {:induction false} DashedRun(a: string, w: string, b: string)
    requires w != [] && AllSpace(w) && EndsNoSpace(a) && StartsNoSpace(b)
    ensures Dashed(a + w + b) == Dashed(a) + "-" + Dashed(b)
    decreases |a|
  {
    if a == [] {
      assert a + w + b == w + b;
      DashedLeadingRun(w, b);
    } else {
      var head, rest := DashedRunHead(a, w + b);
      ConcatAssoc(a, w, b);
      ConcatAssoc(rest, w, b);
      DashedRun(rest, w, b);
      ConcatAssoc(head, Dashed(rest) + "-", Dashed(b));
      ConcatAssoc(head, Dashed(rest), "-");
    }
  }

  lemma DashedIdempotent(s: string)
    ensures Dashed(Dashed(s)) == Dashed(s)
  {
    DashedNoSpace(s);
    DashedIdentity(Dashed(s));
  }

  lemma {:induction false} ToLowerIdentity(s: string)
    requires NoUpper(s)
    ensures ToLower(s) == s
  {
  }

  /** The id derived from a label: lower-cased, whitespace runs turned into dashes. */
  function LabelSlug(caption: string): (r: string)
    ensures NoSpace(r) && NoUpper(r)
  {
    var lower := ToLower(caption);
    DashedNoSpace(lower);
    DashedFrom(lower);
    assert forall i :: 0 <= i < |Dashed(lower)| ==> Dashed(lower)[i] in Dashed(lower);
    Dashed(lower)
  }

  /** A derived id is a fixed point: deriving an id from it gives it back. */
  lemma LabelSlugIdempotent(caption: string)
    ensures LabelSlug(LabelSlug(caption)) == LabelSlug(caption)
  {
    var s := LabelSlug(caption);
    ToLowerIdentity(s);
    DashedIdentity(s);
  }

  /** `inputId = id || label?.toLowerCase().replace(/\s+/g, '-')`: a non-empty `id` wins;
      otherwise a given label (even an empty one) yields its slug; otherwise no id. */
  function InputId(id: Option<string>, caption: Option<string>): (r: Option<string>)
    ensures id.Some? && id.value != "" ==> r == id
    ensures !(id.Some? && id.value != "") ==> (r.Some? <==> caption.Some?)
    ensures !(id.Some? && id.value != "") && caption.Some? ==> r == Some(LabelSlug(caption.value))
  {
    if id.Some? && id.value != "" then id
    else if caption.Some? then Some(LabelSlug(caption.value))
    else None
  }

  /** An id derived from a label passes through unchanged when used as a label again. */
  lemma DerivedIdStable(caption: string)
    ensures var derived := LabelSlug(caption);
      InputId(None, Some(derived)) == Some(derived)
  {
    LabelSlugIdempotent(caption);
  }

  lemma LowerExample()
    ensures ToLower("A  b") == "a  b"
  {
  }

  lemma DropExample()
    ensures DropSpaces(" b") == "b"
  {
    assert IsSpace(' ') && " b"[1..] == "b";
    assert !IsSpace('b');
  }

  lemma DashRunExample()
    ensures Dashed("  b") == "-b"
  {
    DropExample();
    assert Dashed("b") == "b" by {
      assert !IsSpace('b') && "b"[1..] == [];
    }
    assert IsSpace(' ') && "  b"[1..] == " b";
  }

  lemma DashExample()
    ensures Dashed("a  b") == "a-b"
  {
    DashRunExample();
    assert "a  b"[1..] == "  b";
  }

  /** Upper case is lowered and a run of two spaces becomes a single dash. */
  lemma SlugExample()
    ensures LabelSlug("A  b") == "a-b"
  {
    LowerExample();
    DashExample();
  }

  /** The props that decide what is shown around the field. */
  datatype Props = Props(
    id: Option<string>,
    inputLabel: Option<string>,
    error: Option<string>,
    helperText: Option<string>,
    inputType: Option<string>,
    fullWidth: Option<bool>)

  /** What the component renders: the id, whether a label element appears, the two
      message lines, the input's type and its width. */
  datatype View = View(
    inputId: Option<string>,
    showsLabel: bool,
    errorLine: Option<string>,
    helperLine: Option<string>,
    inputType: string,
    fullWidth: bool)

  predicate Truthy(s: Option<string>) { s.Some? && s.value != "" }

  function Render(p: Props): (v: View)
    ensures v.inputId == InputId(p.id, p.inputLabel)
    ensures v.showsLabel <==> Truthy(p.inputLabel)
    ensures v.errorLine.Some? <==> Truthy(p.error)
    ensures v.helperLine.Some? <==> Truthy(p.helperText) && !Truthy(p.error)
    ensures v.errorLine.Some? ==> v.helperLine.None?
    ensures v.inputType == (if p.inputType.Some? then p.inputType.value else "text")
    ensures v.fullWidth == (p.fullWidth == Some(true))
  {
    View(InputId(p.id, p.inputLabel),
         Truthy(p.inputLabel),
         if Truthy(p.error) then p.error else None,
         if Truthy(p.helperText) && !Truthy(p.error) then p.helperText else None,
         p.inputType.GetOr("text"),
         p.fullWidth.GetOr(false))
  }
}
