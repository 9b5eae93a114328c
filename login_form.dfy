/** The login page: the declared rules of its two fields, its initial values and
    what a submit does with the session manager's answer. */
module LoginForm {
  import opened Remote
  import Auth

  datatype LoginValues = LoginValues(username: string, password: string)

  const MinPasswordLength := 6

  /** `username`: required. */
  predicate UsernameValid(username: string)
  {
    username != ""
  }

  /** The length a JavaScript string reports: UTF-16 code units, so a character
      outside the Basic Multilingual Plane counts twice. */
  function Utf16Length(s: string): nat
  {
    if s == [] then 0 else (if s[0] as int >= 0x1_0000 then 2 else 1) + Utf16Length(s[1..])
  }

  /** `password`: required, and at least six characters as JavaScript counts them. */
  predicate PasswordValid(password: string)
  {
    password != "" && Utf16Length(password) >= MinPasswordLength
  }

  predicate LoginValid(v: LoginValues)
  {
    UsernameValid(v.username) && PasswordValid(v.password)
  }

  const InitialValues := LoginValues("", "")

  /** A string's JavaScript length lies between its character count and twice it,
      and equals the character count when every character is in the Basic
      Multilingual Plane. */
  lemma {:induction false} Utf16LengthBounds(s: string)
    ensures |s| <= Utf16Length(s) <= 2 * |s|
    ensures (forall i :: 0 <= i < |s| ==> s[i] as int < 0x1_0000) ==> Utf16Length(s) == |s|
    decreases |s|
  {
    if s != [] {
      Utf16LengthBounds(s[1..]);
      if forall i :: 0 <= i < |s| ==> s[i] as int < 0x1_0000 {
        assert forall i :: 0 <= i < |s| - 1 ==> s[1..][i] == s[i + 1];
      }
    }
  }

  /** The password rule is a pure length rule in UTF-16 code units, which six
      characters always meet and fewer than three never do; the form starts out
      invalid. */
  lemma LoginRules(v: LoginValues)
    ensures PasswordValid(v.password) <==> Utf16Length(v.password) >= 6
    ensures |v.password| >= 6 ==> PasswordValid(v.password)
    ensures PasswordValid(v.password) ==> |v.password| >= 3
    ensures LoginValid(v) <==> |v.username| > 0 && Utf16Length(v.password) >= 6
    ensures !LoginValid(InitialValues)
  {
    Utf16LengthBounds(v.password);
  }

  /** Three emoji are six code units long, so they make a valid password. */
  lemma AstralPassword()
    ensures PasswordValid("\U{1F600}\U{1F600}\U{1F600}")
  {
    var p := "\U{1F600}\U{1F600}\U{1F600}";
    assert p[1..][1..][1..] == [];
  }

  class LoginPage {
    var values: LoginValues
    var error: string

    constructor ()
      ensures values == InitialValues && error == ""
    {
      values := InitialValues;
      error := "";
    }

    /** Typing into the fields. */
    method Change(v: LoginValues)
      modifies this`values
      ensures values == v
    {
      values := v;
    }

    /** The submit: the form runs its rules first and calls the handler only when they
        pass; the handler hands the fields unchanged to the session manager and then
        either navigates to `/` or shows the returned message. */
    method Submit(auth: Auth.AuthProvider, reply: Remote.Reply<Auth.LoginReply>)
      returns (request: Option<Auth.Request>, navigateTo: Option<string>)
      requires auth.Valid()
      modifies this`error, auth
      ensures auth.Valid()
      ensures !LoginValid(values) ==>
        request.None? && navigateTo.None? && error == old(error) && auth.State() == old(auth.State())
      ensures LoginValid(values) ==>
        && request == Some(Auth.LoginRequest(values.username, values.password, Auth.TokenLifetimeMins))
        && auth.State() == Auth.LoggedIn(old(auth.State()), reply)
      ensures LoginValid(values) && reply.Ok? ==> navigateTo == Some("/") && error == old(error)
      ensures LoginValid(values) && reply.Fail? ==>
        navigateTo.None? && error == MessageOr(reply.message, "Login failed")
    {
      request, navigateTo := None, None;
      if LoginValid(values) {
        var sent, result := auth.Login(values.username, values.password, reply);
        request := Some(sent);
        if result.success {
          navigateTo := Some("/");
        } else {
          error := result.message.value;
        }
      }
    }
  }
}
