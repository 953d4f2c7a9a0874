/**
 * The demo sign-in form: any non-empty credentials are accepted, login
 * derives the display name from the e-mail's local part, signup takes
 * the typed name.
 */
module DemoAuth {
  import opened Wrappers
  import opened Text

  /** The user object handed to `onLogin`. */
  datatype DemoUser = DemoUser(name: string, email: string, picture: string)

  const Picture := "https://via.placeholder.com/150/4F46E5/FFFFFF?text=U"
  const FallbackName := "Demo User"

  /** `email.split('@')[0] || 'Demo User'`. */
  function LoginName(email: string): (name: string)
    ensures name != ""
    ensures name == FallbackName || (|name| <= |email| && name == email[..|name|] && '@' !in name)
  {
    var local := BeforeFirst(email, '@');
    if local == "" then FallbackName else local
  }

  /** The login name is the text before the first '@', unless that is empty (the address is empty or starts with '@'). */
  lemma LoginNameSpec(email: string)
    ensures email == "" || email[0] == '@' ==> LoginName(email) == FallbackName
    ensures email != "" && email[0] != '@' ==>
      var n := LoginName(email);
      n != "" && n == email[..|n|] && '@' !in n && (|n| < |email| ==> email[|n|] == '@')
  {
    if email != "" && email[0] != '@' {
      assert BeforeFirst(email, '@')[0] == email[0];
    }
  }

  /** `handleSubmit`: the user passed to `onLogin`, or `None` when the failure toast is shown instead. */
  function Submit(isLogin: bool, email: string, password: string, name: string): (r: Option<DemoUser>)
    ensures isLogin ==> (r.Some? <==> email != "" && password != "")
    ensures !isLogin ==> (r.Some? <==> email != "" && password != "" && name != "")
    ensures r.Some? ==> r.value.email == email && r.value.picture == Picture && r.value.name != ""
    ensures r.Some? && isLogin ==> r.value.name == LoginName(email)
    ensures r.Some? && !isLogin ==> r.value.name == name
  {
    if isLogin then
      if email != "" && password != "" then Some(DemoUser(LoginName(email), email, Picture)) else None
    else
      if email != "" && password != "" && name != "" then Some(DemoUser(name, email, Picture)) else None
  }

  /** The typed name plays no part in a login. */
  lemma LoginIgnoresName(email: string, password: string, n1: string, n2: string)
    ensures Submit(true, email, password, n1) == Submit(true, email, password, n2)
  {
  }

  /** Whatever signup accepts, login with the same credentials accepts too. */
  lemma SignupImpliesLogin(email: string, password: string, name: string)
    ensures Submit(false, email, password, name).Some? ==> Submit(true, email, password, name).Some?
  {
  }

  /** The form's state: `isLogin`, `email`, `password`, `name`. */
  class AuthForm {
    var isLogin: bool
    var email: string
    var password: string
    var name: string

    constructor ()
      ensures isLogin && email == "" && password == "" && name == ""
    {
      isLogin := true;
      email := "";
      password := "";
      name := "";
    }

    /** The link under the form switches between login and signup, keeping the typed fields. */
    method ToggleMode()
      modifies this
      ensures isLogin == !old(isLogin)
      ensures email == old(email) && password == old(password) && name == old(name)
    {
      isLogin := !isLogin;
    }

    method SetEmail(value: string)
      modifies this
      ensures email == value
      ensures isLogin == old(isLogin) && password == old(password) && name == old(name)
    {
      email := value;
    }

    method SetPassword(value: string)
      modifies this
      ensures password == value
      ensures isLogin == old(isLogin) && email == old(email) && name == old(name)
    {
      password := value;
    }

    method SetName(value: string)
      modifies this
      ensures name == value
      ensures isLogin == old(isLogin) && email == old(email) && password == old(password)
    {
      name := value;
    }

    /** Submitting the form reads the fields and changes none of them. */
    method HandleSubmit() returns (user: Option<DemoUser>)
      ensures user == Submit(isLogin, email, password, name)
    {
      user := Submit(isLogin, email, password, name);
    }
  }
}
