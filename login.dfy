/** The sign-in page's form (src/pages/Login.tsx): a login mode and a
    two-step signup mode, a password-visibility switch and the entered
    field values. Submitting only moves between the signup steps; the page
    signs no one in. */
module LoginPage {

  const EmailField: string := "email"
  const PasswordField: string := "password"
  const NameField: string := "name"

  /** The text of the submit button for a mode and step. */
  function SubmitLabel(isLogin: bool, step: nat): (text: string)
    ensures isLogin ==> text == "Login to Dashboard"
    ensures !isLogin && step == 1 ==> text == "Continue"
    ensures !isLogin && step != 1 ==> text == "Create Account"
  {
    if isLogin then "Login to Dashboard" else if step == 1 then "Continue" else "Create Account"
  }

  /** With the step always 1 or 2, the label tells the mode and, in signup
      mode, the step. */
  lemma SubmitLabelDistinguishes(isLogin1: bool, step1: nat, isLogin2: bool, step2: nat)
    requires step1 in {1, 2} && step2 in {1, 2}
    requires SubmitLabel(isLogin1, step1) == SubmitLabel(isLogin2, step2)
    ensures isLogin1 == isLogin2
    ensures !isLogin1 ==> step1 == step2
  {
    var l1 := SubmitLabel(isLogin1, step1);
    var l2 := SubmitLabel(isLogin2, step2);
    assert l1[0] == l2[0];
    if !isLogin1 {
      assert l1[1] == l2[1];
    }
  }

  class LoginForm {
    var isLogin: bool
    var showPassword: bool
    var loginData: map<string, string>
    var step: nat

    /** The step is 1 or 2, and the three fields always have a value. */
    ghost predicate Valid()
      reads this
    {
      && (step == 1 || step == 2)
      && EmailField in loginData && PasswordField in loginData && NameField in loginData
    }

    /** The page opens in login mode at step 1, with the password hidden
        and every field empty. */
    constructor ()
      ensures Valid()
      ensures isLogin && !showPassword && step == 1
      ensures loginData == map[EmailField := "", PasswordField := "", NameField := ""]
    {
      isLogin := true;
      showPassword := false;
      loginData := map[EmailField := "", PasswordField := "", NameField := ""];
      step := 1;
    }

    /** toggleView: switches between login and signup, back at step 1. */
    method ToggleView()
      requires Valid()
      modifies this
      ensures Valid()
      ensures isLogin == !old(isLogin) && step == 1
      ensures showPassword == old(showPassword) && loginData == old(loginData)
    {
      isLogin := !isLogin;
      step := 1;
    }

    /** toggleShowPassword: shows or hides the password. */
    method ToggleShowPassword()
      requires Valid()
      modifies this
      ensures Valid()
      ensures showPassword == !old(showPassword)
      ensures isLogin == old(isLogin) && step == old(step) && loginData == old(loginData)
    {
      showPassword := !showPassword;
    }

    /** handleInputChange: the input's field takes the input's value and
        every other field keeps its own. */
    method HandleInputChange(name: string, value: string)
      requires Valid()
      modifies this
      ensures Valid()
      ensures name in loginData && loginData[name] == value
      ensures loginData.Keys == old(loginData).Keys + {name}
      ensures forall k :: k in old(loginData) && k != name ==> loginData[k] == old(loginData)[k]
      ensures isLogin == old(isLogin) && showPassword == old(showPassword) && step == old(step)
    {
      loginData := loginData[name := value];
    }

    /** handleSubmit: in login mode nothing changes; in signup mode the
        first submit moves to step 2 and a later one stays there. */
    method HandleSubmit()
      requires Valid()
      modifies this
      ensures Valid()
      ensures old(isLogin) ==> unchanged(this)
      ensures !old(isLogin) ==> step == 2
      ensures isLogin == old(isLogin) && showPassword == old(showPassword) && loginData == old(loginData)
    {
      if !isLogin && step == 1 {
        step := 2;
      }
    }
  }

  /** Showing the password twice over restores the original setting and
      nothing else moves. */
  method ToggleShowPasswordTwice(form: LoginForm)
    requires form.Valid()
    modifies form
    ensures form.Valid()
    ensures form.showPassword == old(form.showPassword)
    ensures form.isLogin == old(form.isLogin) && form.step == old(form.step)
    ensures form.loginData == old(form.loginData)
  {
    form.ToggleShowPassword();
    form.ToggleShowPassword();
  }
}
