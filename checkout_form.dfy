/** The checkout form: its field validation, and the component state that
    holds the typed values and the error messages shown under each field. */
module CheckoutForm {

  datatype Field = Name | Email

  datatype FormData = FormData(name: string, email: string)

  const NameRequiredMessage: string := "Name is required"
  const EmailRequiredMessage: string := "Email is required"
  const EmailInvalidMessage: string := "Please enter a valid email"

  // ---------------------------------------------------------------------------
  // Whitespace and trim
  // ---------------------------------------------------------------------------

  /** The characters a JavaScript regular expression's `\s` matches; they are
      also exactly the ones `String.prototype.trim` removes. */
  predicate IsJsSpace(c: char) {
    var n := c as int;
    || n == 0x09 || n == 0x0A || n == 0x0B || n == 0x0C || n == 0x0D || n == 0x20
    || n == 0xA0 || n == 0x1680 || (0x2000 <= n <= 0x200A) || n == 0x2028 || n == 0x2029
    || n == 0x202F || n == 0x205F || n == 0x3000 || n == 0xFEFF
  }

  /** Nothing but whitespace (the empty string included). */
  predicate Blank(s: string) {
    forall i :: 0 <= i < |s| ==> IsJsSpace(s[i])
  }

  function TrimStart(s: string): (r: string)
    ensures |r| <= |s| && r == s[|s| - |r|..]
    ensures forall i :: 0 <= i < |s| - |r| ==> IsJsSpace(s[i])
    ensures |r| > 0 ==> !IsJsSpace(r[0])
  {
    if |s| > 0 && IsJsSpace(s[0]) then TrimStart(s[1..]) else s
  }

  function TrimEnd(s: string): (r: string)
    ensures |r| <= |s| && r == s[..|r|]
    ensures forall i :: |r| <= i < |s| ==> IsJsSpace(s[i])
    ensures |r| > 0 ==> !IsJsSpace(r[|r| - 1])
  {
    if |s| > 0 && IsJsSpace(s[|s| - 1]) then TrimEnd(s[..|s| - 1]) else s
  }

  /** `s.trim()`: the part of `s` between its leading and trailing whitespace.
      It is empty exactly when `s` is blank. */
  function Trim(s: string): (r: string)
    ensures |r| <= |s|
    ensures r == "" <==> Blank(s)
    ensures r != "" ==> !IsJsSpace(r[0]) && !IsJsSpace(r[|r| - 1])
  {
    var t := TrimStart(s);
    var r := TrimEnd(t);
    assert r != "" ==> !Blank(s) by {
      if r != "" {
        assert t[0] == r[0];
        assert s[|s| - |t|] == t[0];
      }
    }
    r
  }

  // ---------------------------------------------------------------------------
  // The email pattern /^[^\s@]+@[^\s@]+\.[^\s@]+$/
  // ---------------------------------------------------------------------------

  /** A character the class `[^\s@]` matches. */
  predicate Plain(c: char) {
    !IsJsSpace(c) && c != '@'
  }

  /** The pattern matches `s` with its "@" at `at` and its "\." at `dot`: three
      non-empty runs of plain characters around the two separators. */
  predicate EmailSplit(s: string, at: int, dot: int) {
    && 0 < at && at + 1 < dot && dot + 1 < |s|
    && s[at] == '@' && s[dot] == '.'
    && forall k :: 0 <= k < |s| && k != at && k != dot ==> Plain(s[k])
  }

  /** `/^[^\s@]+@[^\s@]+\.[^\s@]+$/.test(s)`. */
  ghost predicate MatchesEmailPattern(s: string) {
    exists at, dot :: EmailSplit(s, at, dot)
  }

  function CountOf(s: string, c: char): nat {
    if |s| == 0 then 0 else (if s[0] == c then 1 else 0) + CountOf(s[1..], c)
  }

  /** The position of the first `c` in `s`, or -1. */
  function IndexOf(s: string, c: char): (i: int)
    ensures -1 <= i < |s|
    ensures i >= 0 ==> s[i] == c
    ensures i >= 0 ==> forall k :: 0 <= k < i ==> s[k] != c
    ensures i == -1 <==> forall k :: 0 <= k < |s| ==> s[k] != c
  {
    if |s| == 0 then -1
    else if s[0] == c then 0
    else
      var i := IndexOf(s[1..], c);
      assert forall k :: 1 <= k < |s| ==> s[k] == s[1..][k - 1];
      if i == -1 then -1 else i + 1
  }

  /** A "." that is neither the first nor the last character. */
  predicate HasInnerDot(d: string) {
    exists k :: 0 < k < |d| - 1 && d[k] == '.'
  }

  /** The shape the pattern accepts, checked piece by piece: no whitespace at
      all, exactly one "@" with something before it, and after it a domain
      holding a "." that is neither its first nor its last character. */
  predicate IsEmailShape(s: string) {
    var at := IndexOf(s, '@');
    && (forall k :: 0 <= k < |s| ==> !IsJsSpace(s[k]))
    && CountOf(s, '@') == 1
    && at > 0
    && HasInnerDot(s[at + 1..])
  }

  lemma {:induction false} CountZero(s: string, c: char)
    ensures CountOf(s, c) == 0 <==> forall k :: 0 <= k < |s| ==> s[k] != c
  {
    if |s| > 0 {
      CountZero(s[1..], c);
      assert forall k :: 1 <= k < |s| ==> s[k] == s[1..][k - 1];
    }
  }

  /** With the first `c` at `i`, there is exactly one `c` when none follows it. */
  lemma {:induction false} CountOne(s: string, c: char)
    requires IndexOf(s, c) >= 0
    ensures CountOf(s, c) == 1 <==> forall k :: IndexOf(s, c) < k < |s| ==> s[k] != c
  {
    assert forall k :: 1 <= k < |s| ==> s[k] == s[1..][k - 1];
    if s[0] == c {
      CountZero(s[1..], c);
    } else {
      CountOne(s[1..], c);
    }
  }

  /** The piecewise shape check accepts exactly the strings the pattern matches. */
  lemma EmailShapeMatchesPattern(s: string)
    ensures IsEmailShape(s) <==> MatchesEmailPattern(s)
  {
    if IsEmailShape(s) {
      var at := IndexOf(s, '@');
      CountOne(s, '@');
      var d := s[at + 1..];
      var k :| 0 < k < |d| - 1 && d[k] == '.';
      assert EmailSplit(s, at, at + 1 + k);
    }
    if MatchesEmailPattern(s) {
      var at, dot :| EmailSplit(s, at, dot);
      assert forall k :: 0 <= k < |s| && k != at ==> s[k] != '@';
      assert IndexOf(s, '@') == at;
      CountOne(s, '@');
      var d := s[at + 1..];
      assert d[dot - at - 1] == '.';
      assert HasInnerDot(d);
    }
  }

  // ---------------------------------------------------------------------------
  // validateForm
  // ---------------------------------------------------------------------------

  /** `validateForm`: the error message for each field that fails. */
  function ValidateForm(form: FormData): map<Field, string> {
    var nameErrors: map<Field, string> :=
      if Trim(form.name) == "" then map[Name := NameRequiredMessage] else map[];
    if Trim(form.email) == "" then nameErrors[Email := EmailRequiredMessage]
    else if !IsEmailShape(form.email) then nameErrors[Email := EmailInvalidMessage]
    else nameErrors
  }

  /** What the validation reports: a name error exactly when the name is
      blank; an email error exactly when the email is blank or, untrimmed,
      does not match the pattern, with "required" for the first and "invalid"
      for the second. `Field` has no other keys to report. */
  lemma ValidationErrors(form: FormData)
    ensures Name in ValidateForm(form) <==> Blank(form.name)
    ensures Name in ValidateForm(form) ==> ValidateForm(form)[Name] == NameRequiredMessage
    ensures Email in ValidateForm(form) <==> Blank(form.email) || !MatchesEmailPattern(form.email)
    ensures Email in ValidateForm(form) && Blank(form.email) ==> ValidateForm(form)[Email] == EmailRequiredMessage
    ensures Email in ValidateForm(form) && !Blank(form.email) ==> ValidateForm(form)[Email] == EmailInvalidMessage
  {
    EmailShapeMatchesPattern(form.email);
  }

  /** A form passes validation exactly when the name is not blank and the
      email matches the pattern. */
  lemma PassesExactlyWhenComplete(form: FormData)
    ensures ValidateForm(form) == map[] <==> !Blank(form.name) && MatchesEmailPattern(form.email)
  {
    ValidationErrors(form);
    var errors := ValidateForm(form);
    if errors != map[] {
      var f :| f in errors;
    }
  }

  /** The pattern is tested on the untrimmed value, so an email with a
      leading or trailing space is reported invalid, not accepted. */
  lemma PaddedEmailRejected(form: FormData)
    requires !Blank(form.email)
    requires IsJsSpace(form.email[0]) || IsJsSpace(form.email[|form.email| - 1])
    ensures Email in ValidateForm(form) && ValidateForm(form)[Email] == EmailInvalidMessage
  {
    ValidationErrors(form);
  }

  /** Whether the name has an error, and which, does not depend on the email,
      and the other way round. */
  lemma FieldsIndependent(a: FormData, b: FormData)
    ensures a.name == b.name ==>
      (Name in ValidateForm(a) <==> Name in ValidateForm(b))
      && (Name in ValidateForm(a) ==> ValidateForm(a)[Name] == ValidateForm(b)[Name])
    ensures a.email == b.email ==>
      (Email in ValidateForm(a) <==> Email in ValidateForm(b))
      && (Email in ValidateForm(a) ==> ValidateForm(a)[Email] == ValidateForm(b)[Email])
  {
    ValidationErrors(a);
    ValidationErrors(b);
  }

  // ---------------------------------------------------------------------------
  // The component's state
  // ---------------------------------------------------------------------------

  /** The component: what the fields hold, the messages shown under them, and
      each value handed to the `onSubmit` callback, in order. */
  class Form {
    var formData: FormData
    var errors: map<Field, string>
    var submitted: seq<FormData>

    constructor ()
      ensures formData == FormData("", "") && errors == map[] && submitted == []
    {
      formData := FormData("", "");
      errors := map[];
      submitted := [];
    }

    /** `handleChange`: store the new value; when that field shows an error,
        blank that message and leave every other one as it was. */
    method HandleChange(field: Field, value: string)
      modifies this
      ensures formData == if field == Name then old(formData).(name := value) else old(formData).(email := value)
      ensures errors == if field in old(errors) && old(errors)[field] != "" then old(errors)[field := ""] else old(errors)
      ensures forall f :: f != field ==> (f in errors <==> f in old(errors))
      ensures forall f :: f != field && f in errors ==> errors[f] == old(errors)[f]
      ensures submitted == old(submitted)
    {
      if field == Name {
        formData := formData.(name := value);
      } else {
        formData := formData.(email := value);
      }
      if field in errors && errors[field] != "" {
        errors := errors[field := ""];
      }
    }

    /** `handleSubmit`: validate; with any error, show the errors and stop;
        otherwise hand the values to `onSubmit`. */
    method HandleSubmit()
      modifies this
      ensures formData == old(formData)
      ensures var found := ValidateForm(old(formData));
        if found != map[] then errors == found && submitted == old(submitted)
        else errors == old(errors) && submitted == old(submitted) + [old(formData)]
      ensures |submitted| > |old(submitted)| ==> ValidateForm(formData) == map[]
    {
      var newErrors := ValidateForm(formData);
      if newErrors != map[] {
        errors := newErrors;
        return;
      }
      submitted := submitted + [formData];
    }
  }
}
