/**
 * The sign-in form: touched-gated field validation, the email pattern
 * `^[^\s@]+@[^\s@]+\.[^\s@]+$`, the submit button's disabled condition, and the
 * route the user is sent to after signing in.
 */
module SignIn {
  import opened Common

  /**
   * The characters `\s` matches: ECMAScript's WhiteSpace (tab, vertical tab, form feed,
   * space, no-break space, byte order mark and the other space separators) and its
   * LineTerminator set.
   */
  const Whitespace: set<char> := {
    '\t', '\n', '\U{000B}', '\U{000C}', '\r', ' ', '\U{00A0}', '\U{1680}',
    '\U{2000}', '\U{2001}', '\U{2002}', '\U{2003}', '\U{2004}', '\U{2005}', '\U{2006}',
    '\U{2007}', '\U{2008}', '\U{2009}', '\U{200A}', '\U{2028}', '\U{2029}', '\U{202F}',
    '\U{205F}', '\U{3000}', '\U{FEFF}'}

  /** Every character is matched by `[^\s@]`. */
  predicate Plain(t: string)
  {
    forall k :: 0 <= k < |t| ==> t[k] !in Whitespace && t[k] != '@'
  }

  /**
   * The anchored pattern matches when the string splits as local part, `@`, a first
   * domain run, `.`, and a last run, each run non-empty and `Plain`.
   */
  predicate MatchesEmailPattern(s: string)
  {
    exists i, j :: 0 < i < |s| && i + 1 < j < |s| - 1 && s[i] == '@' && s[j] == '.'
      && Plain(s[..i]) && Plain(s[i + 1..j]) && Plain(s[j + 1..])
  }

  /**
   * The same language said plainly: no whitespace, exactly one `@`, not at the start,
   * and after it a `.` that is neither the first nor the last character of the domain.
   */
  predicate EmailShape(s: string)
  {
    && (forall k :: 0 <= k < |s| ==> s[k] !in Whitespace)
    && exists i :: 0 < i < |s| && s[i] == '@'
         && (forall k :: 0 <= k < |s| && k != i ==> s[k] != '@')
         && (exists j :: i + 1 < j < |s| - 1 && s[j] == '.')
  }

  lemma PatternHasShape(s: string, i: int, j: int)
    requires 0 < i < |s| && i + 1 < j < |s| - 1 && s[i] == '@' && s[j] == '.'
    requires Plain(s[..i]) && Plain(s[i + 1..j]) && Plain(s[j + 1..])
    ensures EmailShape(s)
  {
    forall k | 0 <= k < |s| && k != i
      ensures s[k] !in Whitespace && s[k] != '@'
    {
      if k < i {
        assert s[..i][k] == s[k];
      } else if k < j {
        assert s[i + 1..j][k - i - 1] == s[k];
      } else if k > j {
        assert s[j + 1..][k - j - 1] == s[k];
      }
    }
    assert s[i] !in Whitespace;
  }

  lemma ShapeHasPattern(s: string)
    requires EmailShape(s)
    ensures MatchesEmailPattern(s)
  {
    var i :| 0 < i < |s| && s[i] == '@'
      && (forall k :: 0 <= k < |s| && k != i ==> s[k] != '@')
      && (exists j :: i + 1 < j < |s| - 1 && s[j] == '.');
    var j :| i + 1 < j < |s| - 1 && s[j] == '.';
    var local, first, last := s[..i], s[i + 1..j], s[j + 1..];
    forall k | 0 <= k < |local| ensures local[k] !in Whitespace && local[k] != '@' {
      assert local[k] == s[k];
    }
    forall k | 0 <= k < |first| ensures first[k] !in Whitespace && first[k] != '@' {
      assert first[k] == s[i + 1 + k];
    }
    forall k | 0 <= k < |last| ensures last[k] !in Whitespace && last[k] != '@' {
      assert last[k] == s[j + 1 + k];
    }
  }

  /** The pattern accepts exactly the strings of `EmailShape`. */
  lemma EmailPatternMeaning(s: string)
    ensures MatchesEmailPattern(s) <==> EmailShape(s)
  {
    if MatchesEmailPattern(s) {
      var i, j :| 0 < i < |s| && i + 1 < j < |s| - 1 && s[i] == '@' && s[j] == '.'
        && Plain(s[..i]) && Plain(s[i + 1..j]) && Plain(s[j + 1..]);
      PatternHasShape(s, i, j);
    }
    if EmailShape(s) {
      ShapeHasPattern(s);
    }
  }

  // ---------------------------------------------------------------------------
  // Validation.

  const EmailRequired: string := "Email is required"
  const EmailInvalid: string := "Email is invalid"
  const PasswordRequired: string := "Password is required"

  /** Which fields have been blurred at least once. */
  datatype Touched = Touched(email: bool, password: bool)

  const NoneTouched: Touched := Touched(false, false)
  const AllTouched: Touched := Touched(true, true)

  /** The error map; a key is present exactly when its field has an error. */
  datatype Errors = Errors(email: Option<string>, password: Option<string>)
  {
    /** `Object.keys(errors).length === 0` */
    predicate IsEmpty() { email.None? && password.None? }
  }

  /** The error map `validate` builds from the touched flags and the field values. */
  function FieldErrors(touched: Touched, email: string, password: string): Errors
  {
    Errors(
      if !touched.email then None
      else if email == "" then Some(EmailRequired)
      else if !MatchesEmailPattern(email) then Some(EmailInvalid)
      else None,
      if touched.password && password == "" then Some(PasswordRequired) else None)
  }

  /**
   * An untouched field has no error whatever it holds; a touched email is reported
   * missing, then malformed, and otherwise not at all; a touched password only when
   * empty; and the map is empty exactly when every touched field is acceptable.
   */
  lemma FieldErrorsMeaning(touched: Touched, email: string, password: string)
    ensures !touched.email ==> FieldErrors(touched, email, password).email == None
    ensures !touched.password ==> FieldErrors(touched, email, password).password == None
    ensures touched.email && email == "" ==> FieldErrors(touched, email, password).email == Some(EmailRequired)
    ensures touched.email && email != "" && !EmailShape(email) ==>
              FieldErrors(touched, email, password).email == Some(EmailInvalid)
    ensures touched.email && EmailShape(email) ==> FieldErrors(touched, email, password).email == None
    ensures touched.password ==>
              (FieldErrors(touched, email, password).password == Some(PasswordRequired) <==> password == "")
    ensures FieldErrors(touched, email, password).IsEmpty() <==>
              (touched.email ==> EmailShape(email)) && (touched.password ==> password != "")
  {
    EmailPatternMeaning(email);
    if email == "" {
      assert !EmailShape(email);
    }
  }

  /** `!email || !password || Object.keys(errors).length > 0` */
  predicate SubmitDisabled(email: string, password: string, errors: Errors)
  {
    email == "" || password == "" || !errors.IsEmpty()
  }

  /**
   * Once both fields are touched, an enabled submit button means the credentials are
   * well-formed; with the errors of any touched state it still means both are non-empty.
   */
  lemma SubmitEnabledMeaning(touched: Touched, email: string, password: string)
    ensures !SubmitDisabled(email, password, FieldErrors(touched, email, password)) ==> email != "" && password != ""
    ensures !SubmitDisabled(email, password, FieldErrors(AllTouched, email, password)) <==>
              EmailShape(email) && password != ""
  {
    FieldErrorsMeaning(AllTouched, email, password);
    EmailPatternMeaning(email);
    if EmailShape(email) {
      assert email != "";
    }
  }

  // ---------------------------------------------------------------------------
  // Redirect target.

  datatype PathInfo = PathInfo(pathname: Option<string>)
  datatype RouteState = RouteState(from: Option<PathInfo>)
  /** The router location the form is shown at; `state` is what a guarded route left there. */
  datatype Location = Location(state: Option<RouteState>)

  /** `location.state?.from?.pathname ?? "/"` */
  function RedirectTarget(loc: Location): (target: string)
    ensures loc.state.Some? && loc.state.value.from.Some? && loc.state.value.from.value.pathname.Some? ==>
              target == loc.state.value.from.value.pathname.value
    ensures loc.state.None? || loc.state.value.from.None? || loc.state.value.from.value.pathname.None? ==>
              target == "/"
  {
    match loc.state
    case None => "/"
    case Some(st) =>
      match st.from
      case None => "/"
      case Some(info) => Coalesce(info.pathname, "/")
  }

  // ---------------------------------------------------------------------------
  // The form.

  class SignInForm {
    var email: string
    var password: string
    var touched: Touched
    var errors: Errors
    /** Where a successful sign-in navigates to. */
    const from: string

    /** A fresh form; the mount-time validation of untouched fields yields no errors. */
    constructor (loc: Location)
      ensures from == RedirectTarget(loc)
      ensures email == "" && password == "" && touched == NoneTouched && errors.IsEmpty()
    {
      email, password, touched := "", "", NoneTouched;
      errors := FieldErrors(NoneTouched, "", "");
      from := RedirectTarget(loc);
    }

    /** `validate`, given the touched flags it reads. */
    method Validate(t: Touched) returns (ok: bool)
      modifies this`errors
      ensures errors == FieldErrors(t, email, password)
      ensures ok <==> errors.IsEmpty()
    {
      var newErrors := Errors(None, None);
      if t.email {
        if email == "" {
          newErrors := newErrors.(email := Some(EmailRequired));
        } else if !MatchesEmailPattern(email) {
          newErrors := newErrors.(email := Some(EmailInvalid));
        }
      }
      if t.password {
        if password == "" {
          newErrors := newErrors.(password := Some(PasswordRequired));
        }
      }
      errors := newErrors;
      ok := newErrors.email.None? && newErrors.password.None?;
    }

    /** Typing in the email field; the live validation runs afterwards. */
    method SetEmail(value: string)
      modifies this`email, this`errors
      ensures email == value && errors == FieldErrors(touched, value, password)
    {
      email := value;
      var _ := Validate(touched);
    }

    /** Typing in the password field; the live validation runs afterwards. */
    method SetPassword(value: string)
      modifies this`password, this`errors
      ensures password == value && errors == FieldErrors(touched, email, value)
    {
      password := value;
      var _ := Validate(touched);
    }

    method BlurEmail()
      modifies this`touched, this`errors
      ensures touched == old(touched).(email := true)
      ensures errors == FieldErrors(touched, email, password)
    {
      touched := touched.(email := true);
      var _ := Validate(touched);
    }

    method BlurPassword()
      modifies this`touched, this`errors
      ensures touched == old(touched).(password := true)
      ensures errors == FieldErrors(touched, email, password)
    {
      touched := touched.(password := true);
      var _ := Validate(touched);
    }

    /**
     * `handleLogin` as written: it marks both fields touched but validates with the
     * touched flags of the render it was created in, so login is attempted whenever
     * those earlier flags let the fields pass. The live validation then recomputes the
     * errors with both fields touched.
     */
    method HandleLoginAsWritten(loginSucceeds: bool) returns (loginCalled: bool, navigateTo: Option<string>)
      modifies this`touched, this`errors
      ensures touched == AllTouched
      ensures loginCalled <==> FieldErrors(old(touched), email, password).IsEmpty()
      ensures navigateTo == (if loginCalled && loginSucceeds then Some(from) else None)
      ensures errors == FieldErrors(AllTouched, email, password)
    {
      var rendered := touched;
      touched := AllTouched;
      loginCalled := Validate(rendered);
      navigateTo := if loginCalled && loginSucceeds then Some(from) else None;
      var _ := Validate(touched);
    }

    /**
     * `handleLogin` as its comment intends: validate with every field touched, and
     * attempt login only with a well-formed email and a non-empty password.
     */
    method HandleLogin(loginSucceeds: bool) returns (loginCalled: bool, navigateTo: Option<string>)
      modifies this`touched, this`errors
      ensures touched == AllTouched
      ensures errors == FieldErrors(AllTouched, email, password)
      ensures loginCalled <==> EmailShape(email) && password != ""
      ensures navigateTo == (if loginCalled && loginSucceeds then Some(from) else None)
    {
      touched := AllTouched;
      loginCalled := Validate(touched);
      FieldErrorsMeaning(AllTouched, email, password);
      navigateTo := if loginCalled && loginSucceeds then Some(from) else None;
    }
  }

  /**
   * The as-written handler lets an invalid email through: when the password was
   * filled in first and the email typed last, with Enter pressed in the email field,
   * only the password has been blurred; then "abc" and "pw" enable the submit button
   * and pass the stale validation, yet fail the intended one.
   */
  lemma StaleValidationAdmitsInvalidEmail()
    ensures !SubmitDisabled("abc", "pw", FieldErrors(Touched(false, true), "abc", "pw"))
    ensures FieldErrors(Touched(false, true), "abc", "pw").IsEmpty()
    ensures FieldErrors(AllTouched, "abc", "pw").email == Some(EmailInvalid)
  {
    EmailPatternMeaning("abc");
  }
}
