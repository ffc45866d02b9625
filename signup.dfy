/**
 * The sign-up page: the password-strength meter, the per-field validation
 * that fills the error dictionary, the change handler that clears a
 * field's error, and the submit gate in front of the root's `signup`.
 */
module Signup {
  import opened MockData
  import opened JsString
  import App

  // ---------------------------------------------------------------------
  // Password strength (`getPasswordStrength`)
  // ---------------------------------------------------------------------

  predicate HasLower(p: string) { exists i :: 0 <= i < |p| && IsLower(p[i]) }

  predicate HasUpper(p: string) { exists i :: 0 <= i < |p| && IsUpper(p[i]) }

  predicate HasDigit(p: string) { exists i :: 0 <= i < |p| && IsDigit(p[i]) }

  /** The three look-aheads of the strength pattern: a lower-case letter, an upper-case letter and a digit. */
  predicate Mixed(p: string)
  {
    HasLower(p) && HasUpper(p) && HasDigit(p)
  }

  /**
   * 0 for nothing, 1 below six code units, 2 below eight, then 4 with the
   * full mix and 3 without; lengths are `length`, in UTF-16 code units.
   */
  function PasswordStrength(p: string): (s: int)
    ensures 0 <= s <= 4
    ensures s == 0 <==> p == ""
  {
    if Utf16Length(p) == 0 then 0
    else if Utf16Length(p) < 6 then 1
    else if Utf16Length(p) < 8 then 2
    else if Mixed(p) then 4
    else 3
  }

  /** The strength bands by length, and what separates "Strong" from "Good". */
  lemma StrengthBands(p: string)
    ensures 1 <= Utf16Length(p) < 6 ==> PasswordStrength(p) == 1
    ensures 6 <= Utf16Length(p) < 8 ==> PasswordStrength(p) == 2
    ensures PasswordStrength(p) == 4 <==> Utf16Length(p) >= 8 && Mixed(p)
    ensures PasswordStrength(p) == 3 <==> Utf16Length(p) >= 8 && !Mixed(p)
  {
  }

  /** Three characters beyond U+FFFF already make six code units: the meter shows "Fair", not "Weak". */
  lemma ThreeEmojiAreFair()
    ensures PasswordStrength("\U{1F600}\U{1F600}\U{1F600}") == 2
  {
    var p := "\U{1F600}\U{1F600}\U{1F600}";
    assert p[1..][1..][1..] == [];
  }

  /** Typing one more character never lowers the strength shown. */
  lemma StrengthGrowsWithTyping(p: string, c: char)
    ensures PasswordStrength(p) <= PasswordStrength(p + [c])
  {
    var q := p + [c];
    Utf16LengthAppend(p, [c]);
    assert [c][1..] == [];
    if Mixed(p) {
      var i :| 0 <= i < |p| && IsLower(p[i]);
      var j :| 0 <= j < |p| && IsUpper(p[j]);
      var k :| 0 <= k < |p| && IsDigit(p[k]);
      assert q[i] == p[i] && q[j] == p[j] && q[k] == p[k];
    }
  }

  // ---------------------------------------------------------------------
  // Field checks (`validateForm`)
  // ---------------------------------------------------------------------

  datatype Field = Name | Email | Password | ConfirmPassword

  datatype SignupForm = SignupForm(name: string, email: string, password: string, confirmPassword: string)

  const BlankForm := SignupForm("", "", "", "")

  /** `\S+` over the half-open range `lo..hi`, which must not be empty. */
  predicate NonBlankRun(s: string, lo: int, hi: int)
  {
    0 <= lo < hi <= |s| && forall m :: lo <= m < hi ==> !IsWhitespace(s[m])
  }

  /** `\S+@\S+\.\S+` matches with its `@` at `at` and its `.` at `dot`. */
  predicate EmailMatchAt(s: string, at: int, dot: int)
  {
    && 0 < at < dot < |s| - 1
    && s[at] == '@' && s[dot] == '.'
    && NonBlankRun(s, at - 1, at) && NonBlankRun(s, at + 1, dot) && NonBlankRun(s, dot + 1, dot + 2)
  }

  /** `/\S+@\S+\.\S+/.test(email)`: the pattern matches somewhere in the text. */
  predicate EmailShaped(s: string)
  {
    exists at, dot | 0 < at < dot < |s| - 1 :: EmailMatchAt(s, at, dot)
  }

  /** A match found with longer runs around the `@` and the `.` is also found with the shortest ones. */
  lemma EmailShapedIntro(s: string, a0: int, at: int, dot: int, b1: int)
    requires NonBlankRun(s, a0, at) && NonBlankRun(s, at + 1, dot) && NonBlankRun(s, dot + 1, b1)
    requires s[at] == '@' && s[dot] == '.'
    ensures EmailShaped(s)
  {
    assert EmailMatchAt(s, at, dot);
  }

  /** The demo account's address passes the e-mail check. */
  lemma DemoEmailShaped()
    ensures EmailShaped(DemoEmail)
  {
    assert DemoEmail[8] == '@' && DemoEmail[16] == '.';
    assert EmailMatchAt(DemoEmail, 8, 16);
  }

  /** A single character beyond U+FFFF is two code units, so it passes as a name of "at least 2 characters". */
  lemma OneEmojiIsLongEnoughName()
    ensures NameError("\U{1F600}") == None
  {
    var n := "\U{1F600}";
    assert !IsWhitespace(n[0]);
    assert TrimStart(n) == n;
    assert TrimEnd(n) == n;
    assert Trim(n) == n;
    assert n[1..] == [];
  }

  /** An address without `@` never matches the pattern. */
  lemma NoAtMeansInvalidEmail(s: string)
    requires '@' !in s
    ensures !EmailShaped(s)
  {
  }

  /** The trimmed name must be there and at least two UTF-16 code units long. */
  function NameError(name: string): (e: Option<string>)
    ensures e.None? <==> Utf16Length(Trim(name)) >= 2
    ensures e == Some("Name is required") <==> Trim(name) == ""
    ensures e.Some? ==> e.value == "Name is required" || e.value == "Name must be at least 2 characters"
  {
    if Trim(name) == "" then Some("Name is required")
    else if Utf16Length(Trim(name)) < 2 then Some("Name must be at least 2 characters")
    else None
  }

  function EmailError(email: string): (e: Option<string>)
    ensures e.None? <==> email != "" && EmailShaped(email)
    ensures e == Some("Email is required") <==> email == ""
    ensures e.Some? ==> e.value == "Email is required" || e.value == "Email is invalid"
  {
    if email == "" then Some("Email is required")
    else if !EmailShaped(email) then Some("Email is invalid")
    else None
  }

  /** The password must be there and at least six UTF-16 code units long. */
  function PasswordError(password: string): (e: Option<string>)
    ensures e.None? <==> Utf16Length(password) >= 6
    ensures e == Some("Password is required") <==> password == ""
    ensures e.Some? ==> e.value == "Password is required" || e.value == "Password must be at least 6 characters"
  {
    if password == "" then Some("Password is required")
    else if Utf16Length(password) < 6 then Some("Password must be at least 6 characters")
    else None
  }

  function ConfirmError(password: string, confirmPassword: string): (e: Option<string>)
    ensures e.None? <==> confirmPassword != "" && password == confirmPassword
    ensures e == Some("Please confirm your password") <==> confirmPassword == ""
    ensures e.Some? ==> e.value == "Please confirm your password" || e.value == "Passwords do not match"
  {
    if confirmPassword == "" then Some("Please confirm your password")
    else if password != confirmPassword then Some("Passwords do not match")
    else None
  }

  /** The check `validateForm` runs for one field. */
  function FieldError(form: SignupForm, f: Field): Option<string>
  {
    match f
    case Name => NameError(form.name)
    case Email => EmailError(form.email)
    case Password => PasswordError(form.password)
    case ConfirmPassword => ConfirmError(form.password, form.confirmPassword)
  }

  /** Every field passes its check. */
  predicate FormValid(form: SignupForm)
  {
    && FieldError(form, Name).None? && FieldError(form, Email).None?
    && FieldError(form, Password).None? && FieldError(form, ConfirmPassword).None?
  }

  /**
   * What a valid form guarantees: a name of two or more UTF-16 code units
   * once trimmed, an e-mail of the pattern (so with an `@`), a password of
   * six or more code units, and the same password typed twice.
   */
  lemma ValidFormMeans(form: SignupForm)
    ensures FormValid(form) <==>
      && Utf16Length(Trim(form.name)) >= 2
      && EmailShaped(form.email)
      && Utf16Length(form.password) >= 6
      && form.confirmPassword == form.password
    ensures FormValid(form) ==> '@' in form.email
  {
    assert FieldError(form, Name) == NameError(form.name);
    assert FieldError(form, Email) == EmailError(form.email);
    assert FieldError(form, Password) == PasswordError(form.password);
    assert FieldError(form, ConfirmPassword) == ConfirmError(form.password, form.confirmPassword);
    if FormValid(form) && '@' !in form.email {
      NoAtMeansInvalidEmail(form.email);
    }
  }

  /** A non-empty confirmation that differs from the password is reported as a mismatch. */
  lemma MismatchReported(form: SignupForm)
    requires form.confirmPassword != "" && form.confirmPassword != form.password
    ensures FieldError(form, ConfirmPassword) == Some("Passwords do not match")
    ensures !FormValid(form)
  {
    assert FieldError(form, ConfirmPassword).Some?;
  }

  /** `newErrors.<field> = message` when the check failed. */
  function WithError(errors: map<Field, string>, f: Field, e: Option<string>): map<Field, string>
  {
    if e.Some? then errors[f := e.value] else errors
  }

  /** One `if` of `validateForm`: the message is entered under the field when its check failed. */
  method AddError(errors: map<Field, string>, f: Field, e: Option<string>) returns (r: map<Field, string>)
    ensures r == WithError(errors, f, e)
    ensures e.Some? ==> f in r && r[f] == e.value
    ensures e.None? ==> r == errors
  {
    r := errors;
    if e.Some? {
      r := r[f := e.value];
    }
  }

  /** The dictionary `validateForm` builds, one field after another. */
  function ErrorsOf(form: SignupForm): map<Field, string>
  {
    var m := WithError(map[], Name, NameError(form.name));
    var m := WithError(m, Email, EmailError(form.email));
    var m := WithError(m, Password, PasswordError(form.password));
    WithError(m, ConfirmPassword, ConfirmError(form.password, form.confirmPassword))
  }

  /** The four `WithError` steps, over any four check results: an entry exactly for each failure, holding its message. */
  lemma WithErrorsChain(e1: Option<string>, e2: Option<string>, e3: Option<string>, e4: Option<string>)
    ensures var m := WithError(WithError(WithError(WithError(map[], Name, e1), Email, e2), Password, e3), ConfirmPassword, e4);
      && (Name in m <==> e1.Some?) && (Name in m ==> m[Name] == e1.value)
      && (Email in m <==> e2.Some?) && (Email in m ==> m[Email] == e2.value)
      && (Password in m <==> e3.Some?) && (Password in m ==> m[Password] == e3.value)
      && (ConfirmPassword in m <==> e4.Some?) && (ConfirmPassword in m ==> m[ConfirmPassword] == e4.value)
      && (m == map[] <==> e1.None? && e2.None? && e3.None? && e4.None?)
  {
    var m := WithError(WithError(WithError(WithError(map[], Name, e1), Email, e2), Password, e3), ConfirmPassword, e4);
    if e1.Some? {
      assert Name in m;
    } else if e2.Some? {
      assert Email in m;
    } else if e3.Some? {
      assert Password in m;
    } else if e4.Some? {
      assert ConfirmPassword in m;
    }
  }

  /**
   * The dictionary has an entry exactly for each failing field, holding
   * that field's first failing message, and it is empty exactly when the
   * form is valid.
   */
  lemma ErrorsOfMeans(form: SignupForm)
    ensures forall f :: f in ErrorsOf(form) <==> FieldError(form, f).Some?
    ensures forall f :: f in ErrorsOf(form) ==> ErrorsOf(form)[f] == FieldError(form, f).value
    ensures ErrorsOf(form) == map[] <==> FormValid(form)
  {
    var e1, e2, e3, e4 := NameError(form.name), EmailError(form.email), PasswordError(form.password),
      ConfirmError(form.password, form.confirmPassword);
    WithErrorsChain(e1, e2, e3, e4);
    var errors := ErrorsOf(form);
    assert errors == WithError(WithError(WithError(WithError(map[], Name, e1), Email, e2), Password, e3), ConfirmPassword, e4);
    forall f
      ensures f in errors <==> FieldError(form, f).Some?
      ensures f in errors ==> errors[f] == FieldError(form, f).value
    {
      match f
      case Name =>
      case Email =>
      case Password =>
      case ConfirmPassword =>
    }
  }

  // ---------------------------------------------------------------------
  // The page state
  // ---------------------------------------------------------------------

  class SignupPage {
    var formData: SignupForm
    var errors: map<Field, string>
    var showPassword: bool
    var showConfirmPassword: bool
    var loading: bool

    /** Mounting the page: an empty form, no errors, both passwords hidden. */
    constructor ()
      ensures formData == BlankForm && errors == map[]
      ensures !showPassword && !showConfirmPassword && !loading
    {
      formData := BlankForm;
      errors := map[];
      showPassword, showConfirmPassword, loading := false, false, false;
    }

    /**
     * `validateForm`: the error dictionary is replaced by one holding an
     * entry exactly for each failing field, with that field's first failing
     * message; the answer is whether the dictionary came out empty.
     */
    method ValidateForm() returns (valid: bool)
      modifies this`errors
      ensures errors == ErrorsOf(formData)
      ensures forall f :: f in errors <==> FieldError(formData, f).Some?
      ensures forall f :: f in errors ==> errors[f] == FieldError(formData, f).value
      ensures valid <==> errors == map[]
      ensures valid <==> FormValid(formData)
    {
      var newErrors: map<Field, string> := map[];
      newErrors := AddError(newErrors, Name, NameError(formData.name));
      newErrors := AddError(newErrors, Email, EmailError(formData.email));
      newErrors := AddError(newErrors, Password, PasswordError(formData.password));
      newErrors := AddError(newErrors, ConfirmPassword, ConfirmError(formData.password, formData.confirmPassword));
      errors := newErrors;
      valid := |newErrors| == 0;
      ErrorsOfMeans(formData);
      assert valid <==> newErrors == map[] by {
        if !valid {
          var f :| f in newErrors;
        }
      }
    }

    /** `handleChange`: only the named field takes the new value, and only that field's error is blanked, if it had a message. */
    method HandleChange(field: Field, value: string)
      modifies this`formData, this`errors
      ensures formData == match field
        case Name => old(formData).(name := value)
        case Email => old(formData).(email := value)
        case Password => old(formData).(password := value)
        case ConfirmPassword => old(formData).(confirmPassword := value)
      ensures field in old(errors) && old(errors)[field] != "" ==> errors == old(errors)[field := ""]
      ensures !(field in old(errors) && old(errors)[field] != "") ==> errors == old(errors)
    {
      match field {
        case Name => formData := formData.(name := value);
        case Email => formData := formData.(email := value);
        case Password => formData := formData.(password := value);
        case ConfirmPassword => formData := formData.(confirmPassword := value);
      }
      if field in errors && errors[field] != "" {
        errors := errors[field := ""];
      }
    }

    /** The eye button of the password field. */
    method ToggleShowPassword()
      modifies this`showPassword
      ensures showPassword == !old(showPassword)
    {
      showPassword := !showPassword;
    }

    /** The eye button of the confirmation field. */
    method ToggleShowConfirmPassword()
      modifies this`showConfirmPassword
      ensures showConfirmPassword == !old(showConfirmPassword)
    {
      showConfirmPassword := !showConfirmPassword;
    }

    /**
     * `handleSubmit`: a form that fails validation stops here and the
     * session is untouched; a valid one is handed to the root's `signup`,
     * which signs in the user with the typed name and e-mail.
     */
    method HandleSubmit(app: App.AppComponent) returns (submitted: bool)
      requires app.Valid()
      modifies this, app, app.store
      ensures submitted <==> FormValid(old(formData))
      ensures formData == old(formData) && errors == ErrorsOf(old(formData))
      ensures showPassword == old(showPassword) && showConfirmPassword == old(showConfirmPassword)
      ensures !submitted ==> loading == old(loading)
      ensures submitted ==> !loading
      ensures !submitted ==>
        && app.isAuthenticated == old(app.isAuthenticated) && app.user == old(app.user)
        && app.store.items == old(app.store.items)
      ensures submitted ==>
        && app.isAuthenticated
        && app.user == Some(MockUser.(name := old(formData).name, email := old(formData).email))
        && app.store.items == SessionSaved(old(app.store.items), app.user.value)
      ensures app.Valid() && app.theme == old(app.theme)
    {
      var valid := ValidateForm();
      if !valid {
        return false;
      }
      loading := true;
      var result := app.Signup(formData.name, formData.email, formData.password);
      loading := false;
      return true;
    }
  }
}
