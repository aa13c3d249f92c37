/**
 * The checks the extension-creation form runs before asking for an
 * extension: the company name, then the extension name, then the version.
 * The first check that fails sets the form's error message and refuses;
 * when all pass the message is cleared. The label is not checked.
 */
module ExtensionValidator {
  import opened Text

  /** The form's fields as the page holds them. */
  datatype Form = Form(companyName: string, extensionName: string, extensionLabel: string, version: string)

  /** Whether the form may be submitted, and the error message the page
      shows afterwards. */
  datatype Validation = Validation(valid: bool, error: string)

  const CompanyError: string := "Company Name must contain only alphabetical characters."
  const ExtensionError: string :=
    "Extension Name must contain only lowercase letters and dashes, and cannot start with \"itop-\" or \"combodo-\"."
  const VersionError: string := "Version must be in the format x.y.z"

  predicate IsAsciiLetter(c: char) { 'A' <= c <= 'Z' || 'a' <= c <= 'z' }

  /** `/^[A-Za-z]+$/` */
  predicate IsCompanyName(s: string) {
    |s| > 0 && forall i :: 0 <= i < |s| ==> IsAsciiLetter(s[i])
  }

  /** `/^[a-z-]+$/` */
  predicate IsSlug(s: string) {
    |s| > 0 && forall i :: 0 <= i < |s| ==> ('a' <= s[i] <= 'z' || s[i] == '-')
  }

  /** A slug that does not take one of the reserved prefixes. */
  predicate IsExtensionName(s: string) {
    IsSlug(s) && !StartsWith(s, "itop-") && !StartsWith(s, "combodo-")
  }

  /** `/^\d+\.\d+\.\d+$/`: a dot at `i` and one at `j` split the text into
      three non-empty runs of ASCII digits. */
  predicate IsVersion(v: string) {
    exists i, j | 0 < i < |v| && i + 1 < j < |v| - 1 ::
      v[i] == '.' && v[j] == '.' && AllDigits(v[..i]) && AllDigits(v[i + 1..j]) && AllDigits(v[j + 1..])
  }

  /** The checks in order; the first failure decides the message. */
  function ValidateInputs(form: Form): (r: Validation)
    ensures r.valid <==> IsCompanyName(form.companyName) && IsExtensionName(form.extensionName) && IsVersion(form.version)
    ensures r.valid ==> r.error == ""
    ensures !r.valid ==> r.error in {CompanyError, ExtensionError, VersionError}
    ensures r.error == CompanyError <==> !IsCompanyName(form.companyName)
    ensures r.error == ExtensionError <==> IsCompanyName(form.companyName) && !IsExtensionName(form.extensionName)
  {
    if !IsCompanyName(form.companyName) then Validation(false, CompanyError)
    else if !IsSlug(form.extensionName) || StartsWith(form.extensionName, "itop-")
            || StartsWith(form.extensionName, "combodo-") then Validation(false, ExtensionError)
    else if !IsVersion(form.version) then Validation(false, VersionError)
    else Validation(true, "")
  }

  /** The label plays no part in the decision. */
  lemma LabelNeverChecked(form: Form, otherLabel: string)
    ensures ValidateInputs(form.(extensionLabel := otherLabel)) == ValidateInputs(form)
  {
  }

  /** A reserved prefix is refused even when every character is allowed. */
  lemma ReservedPrefixRefused(form: Form)
    requires IsCompanyName(form.companyName)
    requires StartsWith(form.extensionName, "itop-") || StartsWith(form.extensionName, "combodo-")
    ensures ValidateInputs(form) == Validation(false, ExtensionError)
  {
  }

  /** The version is checked only once both names pass. */
  lemma VersionCheckedLast(form: Form)
    requires IsCompanyName(form.companyName) && IsExtensionName(form.extensionName)
    ensures ValidateInputs(form).valid <==> IsVersion(form.version)
    ensures !IsVersion(form.version) ==> ValidateInputs(form).error == VersionError
  {
  }

  // ---------------------------------------------------------------------------
  // The version pattern as three dot-separated groups

  /** Splitting at a first separator. */
  lemma {:induction false} SplitAtFirst(a: string, c: char, rest: string)
    requires c !in a
    ensures Split(a + [c] + rest, c) == [a] + Split(rest, c)
    decreases |a|
  {
    if a == [] {
      assert a + [c] + rest == [c] + rest;
      assert ([c] + rest)[1..] == rest;
    } else {
      SplitAtFirst(a[1..], c, rest);
      assert (a + [c] + rest)[1..] == a[1..] + [c] + rest;
      assert [a[0]] + a[1..] == a;
    }
  }

  lemma {:induction false} SplitNone(a: string, c: char)
    requires c !in a
    ensures Split(a, c) == [a]
    decreases |a|
  {
    if a != [] {
      SplitNone(a[1..], c);
      assert [a[0]] + a[1..] == a;
    }
  }

  predicate DigitGroup(g: string) { g != [] && AllDigits(g) }

  lemma DigitsHaveNoDot(g: string)
    requires AllDigits(g)
    ensures '.' !in g
  {
  }

  lemma SplitThree(a: string, b: string, c: string)
    requires '.' !in a && '.' !in b && '.' !in c
    ensures Split(a + ['.'] + b + ['.'] + c, '.') == [a, b, c]
  {
    assert a + ['.'] + b + ['.'] + c == a + ['.'] + (b + ['.'] + c);
    SplitAtFirst(a, '.', b + ['.'] + c);
    SplitAtFirst(b, '.', c);
    SplitNone(c, '.');
  }

  /** A text cut around two positions. */
  lemma Reassemble(v: string, i: nat, j: nat)
    requires i < j < |v|
    ensures v == v[..i] + [v[i]] + v[i + 1..j] + [v[j]] + v[j + 1..]
  {
    assert v[i..] == [v[i]] + v[i + 1..];
    assert v[i + 1..] == v[i + 1..j] + v[j..];
    assert v[j..] == [v[j]] + v[j + 1..];
  }

  lemma JoinThree(p: seq<string>)
    requires |p| == 3
    ensures Join(p, ".") == p[0] + "." + p[1] + "." + p[2]
  {
    assert p[1..][1..] == [p[2]];
    assert Join(p[1..][1..], ".") == p[2];
    assert Join(p[1..], ".") == p[1] + "." + p[2];
  }

  /** Three digit groups joined by dots split back into those groups. */
  lemma VersionSplits(v: string)
    requires IsVersion(v)
    ensures |Split(v, '.')| == 3 && forall k :: 0 <= k < 3 ==> DigitGroup(Split(v, '.')[k])
  {
    var i, j :| 0 < i < |v| && i + 1 < j < |v| - 1 && v[i] == '.' && v[j] == '.'
                && AllDigits(v[..i]) && AllDigits(v[i + 1..j]) && AllDigits(v[j + 1..]);
    var a, b, c := v[..i], v[i + 1..j], v[j + 1..];
    Reassemble(v, i, j);
    DigitsHaveNoDot(a);
    DigitsHaveNoDot(b);
    DigitsHaveNoDot(c);
    SplitThree(a, b, c);
  }

  /** Three digit groups split at dots form a version. */
  lemma GroupsAreVersion(v: string)
    requires |Split(v, '.')| == 3 && forall k :: 0 <= k < 3 ==> DigitGroup(Split(v, '.')[k])
    ensures IsVersion(v)
  {
    var p := Split(v, '.');
    SplitJoinBack(v, '.');
    JoinThree(p);
    var i, j := |p[0]|, |p[0]| + 1 + |p[1]|;
    assert v[..i] == p[0];
    assert v[i + 1..j] == p[1];
    assert v[j + 1..] == p[2];
    assert DigitGroup(p[0]) && DigitGroup(p[1]) && DigitGroup(p[2]);
    assert v[i] == '.' && v[j] == '.';
  }

  /** The version pattern accepts exactly the texts that split at `.` into
      three non-empty groups of digits. */
  lemma VersionGroups(v: string)
    ensures IsVersion(v) <==> |Split(v, '.')| == 3 && forall k :: 0 <= k < 3 ==> DigitGroup(Split(v, '.')[k])
  {
    if IsVersion(v) {
      VersionSplits(v);
    }
    if |Split(v, '.')| == 3 && forall k :: 0 <= k < 3 ==> DigitGroup(Split(v, '.')[k]) {
      GroupsAreVersion(v);
    }
  }
}
