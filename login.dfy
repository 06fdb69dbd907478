/**
 * The login form: an email and a password, one message per field, and a loading flag that
 * is raised only for a form that validates.
 */
module Login {
  import opened Text

  const EmailRequired: string := "Email is required"
  const EmailInvalid: string := "Please enter a valid email"
  const PasswordRequired: string := "Password is required"
  const PasswordShort: string := "Password must be at least 6 characters"

  /** The shortest password accepted. */
  const MinPasswordLength: nat := 6

  /** The part of `s` from `at - 1` to `dot + 1` matches `\S+@\S+\.\S+`: an `@` at `at` and
      a `.` at `dot`, at least one character before the `@`, between them and after the `.`,
      and no whitespace from the character before the `@` to the character after the `.`. */
  predicate MatchAt(s: string, at: int, dot: int) {
    && 1 <= at < |s| && at + 2 <= dot < |s| - 1
    && s[at] == '@' && s[dot] == '.' && forall k | at - 1 <= k <= dot + 1 :: !IsWhitespace(s[k])
  }

  /** `/\S+@\S+\.\S+/.test(s)`: the pattern matches somewhere in `s`. It is not anchored,
      so anything may surround the matching part. A matching email has at least five
      characters: one each before the `@`, between the `@` and the `.`, and after the `.`. */
  predicate EmailShaped(s: string)
    ensures EmailShaped(s) ==> |s| >= 5 && '@' in s && '.' in s
  {
    exists at, dot | 0 <= at < dot < |s| :: MatchAt(s, at, dot)
  }

  /** Because the pattern is not anchored, text around a match does not stop it matching. */
  lemma EmailShapedUnanchored(prefix: string, s: string, suffix: string)
    requires EmailShaped(s)
    ensures EmailShaped(prefix + s + suffix)
  {
    var at, dot :| 0 <= at < dot < |s| && MatchAt(s, at, dot);
    var t := prefix + s + suffix;
    var p := |prefix|;
    forall k | 0 <= k < |s| ensures t[p + k] == s[k] {
      assert t[p + k] == (prefix + s)[p + k];
    }
    assert t[p + at] == '@' && t[p + dot] == '.';
    forall k | p + at - 1 <= k <= p + dot + 1 ensures !IsWhitespace(t[k]) {
      assert t[k] == s[k - p];
    }
    assert MatchAt(t, p + at, p + dot);
  }

  /** The smallest address shape matches. */
  lemma ShortestEmailShaped()
    ensures EmailShaped("a@b.c")
  {
    assert MatchAt("a@b.c", 1, 3);
  }

  /** A space just before the `@` stops the match when the `@` has nothing else before it. */
  lemma SpaceBeforeAtNotShaped()
    ensures !EmailShaped(" @b.c")
  {
    var s := " @b.c";
    forall at, dot | MatchAt(s, at, dot) ensures false {
      assert s[at] == '@';
      assert at == 1;
      assert IsWhitespace(s[at - 1]);
    }
  }

  /** The email field's message: "required" when empty, "valid email" when it does not match,
      none ("") otherwise. */
  function EmailError(email: string): (m: string)
    ensures m == "" <==> EmailShaped(email)
    ensures m == EmailRequired <==> email == []
    ensures m == EmailInvalid <==> email != [] && !EmailShaped(email)
  {
    if email == [] then EmailRequired
    else if !EmailShaped(email) then EmailInvalid
    else ""
  }

  /** The password field's message: "required" when empty, "at least 6" for one to five
      characters, none ("") from six on. */
  function PasswordError(password: string): (m: string)
    ensures m == "" <==> |password| >= MinPasswordLength
    ensures m == PasswordRequired <==> password == []
    ensures m == PasswordShort <==> 0 < |password| < MinPasswordLength
  {
    if password == [] then PasswordRequired
    else if |password| < MinPasswordLength then PasswordShort
    else ""
  }

  /** The two inputs. */
  datatype LoginField = EmailInput | PasswordInput

  /** The login component's state. */
  class LoginForm {
    var email: string
    var password: string
    var emailError: string
    var passwordError: string
    var isLoading: bool

    constructor()
      ensures email == "" && password == "" && emailError == "" && passwordError == "" && !isLoading
    {
      email := "";
      password := "";
      emailError := "";
      passwordError := "";
      isLoading := false;
    }

    /** `validateForm`: replaces both messages and answers whether both are empty, which is
        when the email matches and the password has at least six characters. */
    method ValidateForm() returns (ok: bool)
      modifies this
      ensures email == old(email) && password == old(password) && isLoading == old(isLoading)
      ensures emailError == EmailError(email) && passwordError == PasswordError(password)
      ensures ok <==> EmailShaped(email) && |password| >= MinPasswordLength
    {
      var newEmailError := "";
      var newPasswordError := "";
      if email == [] {
        newEmailError := EmailRequired;
      } else if !EmailShaped(email) {
        newEmailError := EmailInvalid;
      }
      if password == [] {
        newPasswordError := PasswordRequired;
      } else if |password| < MinPasswordLength {
        newPasswordError := PasswordShort;
      }
      emailError := newEmailError;
      passwordError := newPasswordError;
      ok := newEmailError == [] && newPasswordError == [];
    }

    /** `handleLogin` up to the wait: validates, and raises the loading flag only when the
        form is valid; otherwise the flag is left as it was. */
    method BeginLogin() returns (started: bool)
      modifies this
      ensures email == old(email) && password == old(password)
      ensures emailError == EmailError(email) && passwordError == PasswordError(password)
      ensures started <==> EmailShaped(email) && |password| >= MinPasswordLength
      ensures started ==> isLoading
      ensures !started ==> isLoading == old(isLoading)
    {
      started := ValidateForm();
      if !started {
        return;
      }
      isLoading := true;
    }

    /** `handleLogin` after the wait: the loading flag goes down; nothing else changes. */
    method FinishLogin()
      modifies this
      ensures !isLoading
      ensures email == old(email) && password == old(password)
      ensures emailError == old(emailError) && passwordError == old(passwordError)
    {
      isLoading := false;
    }

    /** `handleInputChange`: sets the one field and empties only that field's message. */
    method HandleInputChange(field: LoginField, value: string)
      modifies this
      ensures field == EmailInput ==> email == value && password == old(password)
      ensures field == PasswordInput ==> password == value && email == old(email)
      ensures field == EmailInput ==> emailError == "" && passwordError == old(passwordError)
      ensures field == PasswordInput ==> passwordError == "" && emailError == old(emailError)
      ensures isLoading == old(isLoading)
    {
      match field
      case EmailInput =>
        email := value;
        if emailError != "" {
          emailError := "";
        }
      case PasswordInput =>
        password := value;
        if passwordError != "" {
          passwordError := "";
        }
    }
  }
}
