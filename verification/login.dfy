/** The login form (app/login.tsx): the form values, the per-field error
    messages, the validation rules behind the "Sign in" button and the
    clearing of a field's error when the user edits it. */
module Login {
  import opened Seqs
  import opened Text

  datatype Field = Email | Password

  datatype FormData = FormData(email: string, password: string)

  /** An absent message is a field without an error. */
  datatype FormErrors = FormErrors(email: Option<string>, password: Option<string>)

  const EmailRequired: string := "Email is required"
  const EmailInvalid: string := "Please enter a valid email"
  const PasswordRequired: string := "Password is required"
  const PasswordTooShort: string := "Password must be at least 6 characters"
  const MinPasswordLength: nat := 6

  /** A character of the class `[^\s@]`. */
  predicate PlainChar(c: char)
  {
    c != '@' && !IsWhitespace(c)
  }

  /** Every character of `s[lo..hi]` is in `[^\s@]`. */
  predicate PlainBetween(s: string, lo: int, hi: int)
    requires 0 <= lo <= hi <= |s|
  {
    forall i :: lo <= i < hi ==> PlainChar(s[i])
  }

  /** The language of the regular expression `^[^\s@]+@[^\s@]+\.[^\s@]+$`:
      `s` splits at an '@' and a later '.' into three non-empty runs of
      characters that are neither white space nor '@'. */
  ghost function MatchesEmailPattern(s: string): (matches: bool)
    ensures matches ==> |s| >= 5 && '@' in s && '.' in s
    ensures matches ==> forall i :: 0 <= i < |s| ==> !IsWhitespace(s[i])
  {
    exists at, dot :: 0 < at && at + 1 < dot && dot + 1 < |s| &&
      s[at] == '@' && s[dot] == '.' &&
      PlainBetween(s, 0, at) && PlainBetween(s, at + 1, dot) && PlainBetween(s, dot + 1, |s|)
  }

  /** The same shape stated clause by clause: no white space, exactly one
      '@', something before it, and after it a '.' that is neither the first
      nor the last character of the domain. */
  predicate IsEmailShaped(s: string)
  {
    (forall i :: 0 <= i < |s| ==> !IsWhitespace(s[i])) &&
    exists at :: 0 < at < |s| && s[at] == '@' &&
      (forall j :: 0 <= j < |s| && s[j] == '@' ==> j == at) &&
      exists dot :: at + 1 < dot < |s| - 1 && s[dot] == '.'
  }

  /** The clause-by-clause reading accepts exactly the strings the regular
      expression accepts. */
  lemma EmailShapeMatchesPattern(s: string)
    ensures IsEmailShaped(s) <==> MatchesEmailPattern(s)
  {
    if MatchesEmailPattern(s) {
      var at, dot :| 0 < at && at + 1 < dot && dot + 1 < |s| &&
        s[at] == '@' && s[dot] == '.' &&
        PlainBetween(s, 0, at) && PlainBetween(s, at + 1, dot) && PlainBetween(s, dot + 1, |s|);
      forall i | 0 <= i < |s| ensures !IsWhitespace(s[i]) && (s[i] == '@' ==> i == at) {
        if i < at {
          assert PlainChar(s[i]);
        } else if at < i < dot {
          assert PlainChar(s[i]);
        } else if dot < i {
          assert PlainChar(s[i]);
        }
      }
      assert at + 1 < dot < |s| - 1 && s[dot] == '.';
    }
    if IsEmailShaped(s) {
      var at :| 0 < at < |s| && s[at] == '@' &&
        (forall j :: 0 <= j < |s| && s[j] == '@' ==> j == at) &&
        exists dot :: at + 1 < dot < |s| - 1 && s[dot] == '.';
      var dot :| at + 1 < dot < |s| - 1 && s[dot] == '.';
      assert PlainBetween(s, 0, at) && PlainBetween(s, at + 1, dot) && PlainBetween(s, dot + 1, |s|);
    }
  }

  /** The email rule: an empty email is required; a non-empty one is
      invalid exactly when it does not match the pattern, and then the shape
      is the only thing checked. */
  function EmailError(email: string): (error: Option<string>)
    ensures email == "" <==> error == Some(EmailRequired)
    ensures error == None <==> email != "" && MatchesEmailPattern(email)
    ensures error == Some(EmailInvalid) <==> email != "" && !MatchesEmailPattern(email)
  {
    EmailShapeMatchesPattern(email);
    if email == "" then Some(EmailRequired)
    else if !IsEmailShaped(email) then Some(EmailInvalid)
    else None
  }

  /** The password rule: required, and at least six characters. */
  function PasswordError(password: string): (error: Option<string>)
    ensures password == "" <==> error == Some(PasswordRequired)
    ensures error == None <==> |password| >= MinPasswordLength
    ensures error == Some(PasswordTooShort) <==> 0 < |password| < MinPasswordLength
  {
    if password == "" then Some(PasswordRequired)
    else if |password| < MinPasswordLength then Some(PasswordTooShort)
    else None
  }

  class LoginForm {
    var formData: FormData
    var errors: FormErrors

    /** Both fields start empty and without errors. */
    constructor ()
      ensures formData == FormData("", "") && errors == FormErrors(None, None)
    {
      formData := FormData("", "");
      errors := FormErrors(None, None);
    }

    /** `validateForm`: recompute both errors from scratch, each from its own
        field only, store them, and report whether there are none. */
    method ValidateForm() returns (ok: bool)
      modifies this
      ensures formData == old(formData)
      ensures errors == FormErrors(EmailError(formData.email), PasswordError(formData.password))
      ensures ok <==> errors == FormErrors(None, None)
      ensures ok <==> MatchesEmailPattern(formData.email) && |formData.password| >= MinPasswordLength
    {
      var newErrors := FormErrors(None, None);
      if formData.email == "" {
        newErrors := newErrors.(email := Some(EmailRequired));
      } else if !IsEmailShaped(formData.email) {
        newErrors := newErrors.(email := Some(EmailInvalid));
      }
      if formData.password == "" {
        newErrors := newErrors.(password := Some(PasswordRequired));
      } else if |formData.password| < MinPasswordLength {
        newErrors := newErrors.(password := Some(PasswordTooShort));
      }
      EmailShapeMatchesPattern(formData.email);
      errors := newErrors;
      ok := newErrors.email.None? && newErrors.password.None?;
    }

    /** `updateFormData(field, value)`: the edited field takes the new value
        and loses its error; the other field's value and error stay. */
    method UpdateFormData(field: Field, value: string)
      modifies this
      ensures field == Email ==>
        formData == old(formData).(email := value) && errors == old(errors).(email := None)
      ensures field == Password ==>
        formData == old(formData).(password := value) && errors == old(errors).(password := None)
    {
      match field {
        case Email =>
          formData := formData.(email := value);
          if errors.email.Some? {
            errors := errors.(email := None);
          }
        case Password =>
          formData := formData.(password := value);
          if errors.password.Some? {
            errors := errors.(password := None);
          }
      }
    }
  }
}
