/** The login / sign-up form (AuthForms.tsx): the e-mail and password checks, the
    per-field error messages and their precedence, input editing, the mode switch, and the
    submit guard. */
module AuthForms {
  import opened Js

  // ---------------------------------------------------------------- e-mail check

  /** A character the pattern's `[^\s@]` class accepts. */
  predicate PlainChar(c: char)
  {
    !IsWhitespace(c) && c != '@'
  }

  /** One `[^\s@]+` run. */
  predicate Segment(s: string)
  {
    s != [] && forall i :: 0 <= i < |s| ==> PlainChar(s[i])
  }

  /** What `/^[^\s@]+@[^\s@]+\.[^\s@]+$/` matches: three runs joined by an `@` and a dot. */
  ghost predicate MatchesEmailPattern(e: string)
  {
    exists a: string, b: string, c: string :: e == a + "@" + b + "." + c && Segment(a) && Segment(b) && Segment(c)
  }

  /** The part after the `@` is acceptable when it is one `@`-free, whitespace-free run with
      a dot that is neither its first nor its last character. */
  predicate DomainOk(d: string)
  {
    && (forall i :: 0 <= i < |d| ==> PlainChar(d[i]))
    && exists j :: 0 < j < |d| - 1 && d[j] == '.'
  }

  /** `validateEmail`: no whitespace, exactly one `@` with something before it, and a domain
      as above. */
  predicate ValidateEmail(e: string)
  {
    exists p :: 0 < p < |e| && e[p] == '@' && Segment(e[..p]) && DomainOk(e[p + 1..])
  }

  lemma SplitAt(e: string, p: int, j: int)
    requires 0 < p < |e| && e[p] == '@'
    requires 0 < j < |e| - p - 2 && e[p + 1 + j] == '.'
    ensures e == e[..p] + "@" + e[p + 1..][..j] + "." + e[p + 1..][j + 1..]
  {
    var d := e[p + 1..];
    assert d == d[..j] + "." + d[j + 1..];
    assert e == e[..p] + "@" + d;
  }

  lemma MatchFromCheck(e: string)
    requires ValidateEmail(e)
    ensures MatchesEmailPattern(e)
  {
    var p :| 0 < p < |e| && e[p] == '@' && Segment(e[..p]) && DomainOk(e[p + 1..]);
    var d := e[p + 1..];
    var j :| 0 < j < |d| - 1 && d[j] == '.';
    var a, b, c := e[..p], d[..j], d[j + 1..];
    SplitAt(e, p, j);
    assert Segment(b) by {
      forall i | 0 <= i < |b|
        ensures PlainChar(b[i])
      {
        assert b[i] == d[i];
      }
    }
    assert Segment(c) by {
      forall i | 0 <= i < |c|
        ensures PlainChar(c[i])
      {
        assert c[i] == d[j + 1 + i];
      }
    }
    assert e == a + "@" + b + "." + c && Segment(a) && Segment(b) && Segment(c);
  }

  lemma CheckFromMatch(a: string, b: string, c: string)
    requires Segment(a) && Segment(b) && Segment(c)
    ensures ValidateEmail(a + "@" + b + "." + c)
  {
    var e := a + "@" + b + "." + c;
    var p := |a|;
    var d := b + "." + c;
    assert e == a + "@" + d;
    assert e[..p] == a && e[p] == '@' && e[p + 1..] == d;
    assert d[|b|] == '.';
    forall i | 0 <= i < |d|
      ensures PlainChar(d[i])
    {
      if i < |b| {
        assert d[i] == b[i];
      } else if i > |b| {
        assert d[i] == c[i - |b| - 1];
      }
    }
    assert DomainOk(d);
  }

  /** The check accepts exactly the strings the pattern matches. */
  lemma ValidateEmailMatchesPattern(e: string)
    ensures ValidateEmail(e) <==> MatchesEmailPattern(e)
  {
    if ValidateEmail(e) {
      MatchFromCheck(e);
    }
    if MatchesEmailPattern(e) {
      var a: string, b: string, c: string :| e == a + "@" + b + "." + c && Segment(a) && Segment(b) && Segment(c);
      CheckFromMatch(a, b, c);
    }
  }

  /** Examples: a plain address is accepted; a dot right after the `@` or at the end is
      refused, and so is a second `@`. */
  lemma EmailAccepted()
    ensures ValidateEmail("ann@x.io")
  {
    var e := "ann@x.io";
    assert e[..3] == "ann" && e[4..] == "x.io" && "x.io"[1] == '.';
    assert DomainOk(e[4..]);
  }

  lemma EmailDotAfterAtRefused()
    ensures !ValidateEmail("ann@.io")
  {
    var e := "ann@.io";
    forall p | 0 < p < |e| && e[p] == '@'
      ensures !DomainOk(e[p + 1..])
    {
      assert p == 3;
      assert e[p + 1..] == ".io";
    }
  }

  lemma EmailDotAtEndRefused()
    ensures !ValidateEmail("ann@io.")
  {
    var e := "ann@io.";
    forall p | 0 < p < |e| && e[p] == '@'
      ensures !DomainOk(e[p + 1..])
    {
      assert p == 3;
      assert e[p + 1..] == "io.";
    }
  }

  lemma EmailTwoAtsRefused()
    ensures !ValidateEmail("a@b@c.d")
  {
    var e := "a@b@c.d";
    forall p | 0 < p < |e| && e[p] == '@'
      ensures !(Segment(e[..p]) && DomainOk(e[p + 1..]))
    {
      if p == 1 {
        assert e[p + 1..][1] == '@';
      } else {
        assert p == 3;
        assert e[..p][1] == '@';
      }
    }
  }

  /** `validatePassword`: at least eight characters. */
  predicate ValidatePassword(p: string)
  {
    |p| >= 8
  }

  // ---------------------------------------------------------------- form state

  datatype FormData = FormData(name: string, email: string, password: string, confirmPassword: string)

  const EmptyForm := FormData("", "", "", "")

  /** The messages the form can show. */
  datatype Message =
    | EmailRequired | EmailInvalid | PasswordRequired | PasswordTooShort
    | NameRequired | NameTooShort | ConfirmRequired | PasswordMismatch | SomethingWentWrong

  function Text(m: Message): (t: string)
    ensures t != ""
  {
    match m
    case EmailRequired => "Email is required"
    case EmailInvalid => "Please enter a valid email address"
    case PasswordRequired => "Password is required"
    case PasswordTooShort => "Password must be at least 8 characters long"
    case NameRequired => "Name is required"
    case NameTooShort => "Name must be at least 2 characters long"
    case ConfirmRequired => "Please confirm your password"
    case PasswordMismatch => "Passwords do not match"
    case SomethingWentWrong => "Something went wrong. Please try again."
  }

  /** The per-field messages; `None` is an absent key. */
  datatype FormErrors = FormErrors(
    name: Option<Message>, email: Option<Message>, password: Option<Message>,
    confirmPassword: Option<Message>, general: Option<Message>)

  const NoErrors := FormErrors(None, None, None, None, None)

  /** The four inputs. */
  datatype Field = NameField | EmailField | PasswordField | ConfirmPasswordField

  function FieldOf(d: FormData, f: Field): string
  {
    match f
    case NameField => d.name
    case EmailField => d.email
    case PasswordField => d.password
    case ConfirmPasswordField => d.confirmPassword
  }

  function WithField(d: FormData, f: Field, v: string): (r: FormData)
    ensures forall g :: FieldOf(r, g) == if g == f then v else FieldOf(d, g)
  {
    match f
    case NameField => d.(name := v)
    case EmailField => d.(email := v)
    case PasswordField => d.(password := v)
    case ConfirmPasswordField => d.(confirmPassword := v)
  }

  function ErrorOf(e: FormErrors, f: Field): Option<Message>
  {
    match f
    case NameField => e.name
    case EmailField => e.email
    case PasswordField => e.password
    case ConfirmPasswordField => e.confirmPassword
  }

  function WithoutError(e: FormErrors, f: Field): (r: FormErrors)
    ensures ErrorOf(r, f) == None && r.general == e.general
    ensures forall g :: g != f ==> ErrorOf(r, g) == ErrorOf(e, g)
  {
    match f
    case NameField => e.(name := None)
    case EmailField => e.(email := None)
    case PasswordField => e.(password := None)
    case ConfirmPasswordField => e.(confirmPassword := None)
  }

  /** The messages `validateForm` collects. The e-mail and password get the "required"
      message exactly when empty and the format message exactly when non-empty but
      refused; in login mode name and confirmation are never checked; no message at all
      exactly when the form is acceptable. */
  function Errors(isLogin: bool, d: FormData): (errs: FormErrors)
    ensures errs.email == Some(EmailRequired) <==> d.email == ""
    ensures errs.email == Some(EmailInvalid) <==> d.email != "" && !ValidateEmail(d.email)
    ensures errs.email == None <==> ValidateEmail(d.email)
    ensures errs.password == Some(PasswordRequired) <==> d.password == ""
    ensures errs.password == Some(PasswordTooShort) <==> d.password != "" && !ValidatePassword(d.password)
    ensures errs.password == None <==> ValidatePassword(d.password)
    ensures isLogin ==> errs.name == None && errs.confirmPassword == None
    ensures !isLogin ==> (errs.name == Some(NameRequired) <==> d.name == "")
    ensures !isLogin ==> (errs.name == Some(NameTooShort) <==> |d.name| == 1)
    ensures !isLogin ==> (errs.name == None <==> |d.name| >= 2)
    ensures !isLogin ==> (errs.confirmPassword == Some(ConfirmRequired) <==> d.confirmPassword == "")
    ensures !isLogin ==> (errs.confirmPassword == Some(PasswordMismatch) <==> d.confirmPassword != "" && d.confirmPassword != d.password)
    ensures !isLogin ==> (errs.confirmPassword == None <==> d.confirmPassword != "" && d.confirmPassword == d.password)
    ensures errs.general == None
    ensures errs == NoErrors <==> Acceptable(isLogin, d)
  {
    FormErrors(
      if isLogin then None
      else if d.name == "" then Some(NameRequired)
      else if |d.name| < 2 then Some(NameTooShort)
      else None,
      if d.email == "" then Some(EmailRequired)
      else if !ValidateEmail(d.email) then Some(EmailInvalid)
      else None,
      if d.password == "" then Some(PasswordRequired)
      else if !ValidatePassword(d.password) then Some(PasswordTooShort)
      else None,
      if isLogin then None
      else if d.confirmPassword == "" then Some(ConfirmRequired)
      else if d.password != d.confirmPassword then Some(PasswordMismatch)
      else None,
      None)
  }

  /** `validateForm`'s body: start from no messages and set them one field after another. */
  method ComputeErrors(isLogin: bool, d: FormData) returns (errs: FormErrors)
    ensures errs == Errors(isLogin, d)
  {
    errs := NoErrors;
    if d.email == "" {
      errs := errs.(email := Some(EmailRequired));
    } else if !ValidateEmail(d.email) {
      errs := errs.(email := Some(EmailInvalid));
    }
    if d.password == "" {
      errs := errs.(password := Some(PasswordRequired));
    } else if !ValidatePassword(d.password) {
      errs := errs.(password := Some(PasswordTooShort));
    }
    if !isLogin {
      if d.name == "" {
        errs := errs.(name := Some(NameRequired));
      } else if |d.name| < 2 {
        errs := errs.(name := Some(NameTooShort));
      }
      if d.confirmPassword == "" {
        errs := errs.(confirmPassword := Some(ConfirmRequired));
      } else if d.password != d.confirmPassword {
        errs := errs.(confirmPassword := Some(PasswordMismatch));
      }
    }
  }

  /** The form is acceptable exactly when the e-mail and password pass and, when signing
      up, the name has two characters and the confirmation repeats the password. */
  predicate Acceptable(isLogin: bool, d: FormData)
  {
    && ValidateEmail(d.email) && ValidatePassword(d.password)
    && (!isLogin ==> |d.name| >= 2 && d.confirmPassword == d.password)
  }

  /** The component's state. */
  class AuthForm {
    var isLogin: bool
    var isLoading: bool
    var formData: FormData
    var errors: FormErrors

    constructor ()
      ensures isLogin && !isLoading && formData == EmptyForm && errors == NoErrors
    {
      isLogin, isLoading, formData, errors := true, false, EmptyForm, NoErrors;
    }

    /** `validateForm`: replace the errors by the freshly computed ones, and report whether
      none was set. */
    method ValidateForm() returns (ok: bool)
      modifies this`errors
      ensures errors == Errors(isLogin, formData)
      ensures ok <==> errors == NoErrors
      ensures ok <==> Acceptable(isLogin, formData)
    {
      errors := ComputeErrors(isLogin, formData);
      ok := errors == NoErrors;
    }

    /** `handleInputChange`: the field takes the value and its error is cleared; every other
      field and error stays. */
    method HandleInputChange(f: Field, value: string)
      modifies this`formData, this`errors
      ensures formData == WithField(old(formData), f, value)
      ensures errors == WithoutError(old(errors), f)
    {
      formData := WithField(formData, f, value);
      // Every message text is non-empty, so the truthiness test is a presence test.
      if ErrorOf(errors, f).Some? {
        errors := WithoutError(errors, f);
      }
    }

    /** `toggleMode`: switch between login and sign-up and start from a blank form. */
    method ToggleMode()
      modifies this`isLogin, this`formData, this`errors
      ensures isLogin == !old(isLogin)
      ensures formData == EmptyForm && errors == NoErrors
    {
      isLogin := !isLogin;
      formData := EmptyForm;
      errors := NoErrors;
    }

    /** `handleSubmit` run to completion with the simulated request succeeding: a refused
      form only gets its error messages; an accepted one ends with a blank form, no errors,
      and loading finished. The mode is never changed. */
    method HandleSubmit() returns (submitted: bool)
      modifies this`errors, this`formData, this`isLoading
      ensures submitted <==> old(Acceptable(isLogin, formData))
      ensures !submitted ==> formData == old(formData) && isLoading == old(isLoading)
      ensures !submitted ==> errors == Errors(isLogin, formData) && errors != NoErrors
      ensures submitted ==> formData == EmptyForm && errors == NoErrors && !isLoading
    {
      submitted := ValidateForm();
      if !submitted {
        return;
      }
      isLoading := true;
      errors := NoErrors;
      formData := EmptyForm;
      isLoading := false;
    }
  }
}
