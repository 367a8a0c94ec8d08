/** The login / register form (src/pages/Auth.tsx). */
module AuthPage {
  import opened Wrappers
  import opened BrowserState

  const DashboardRoute := "/dashboard"
  const LoginOk := "Login realizado com sucesso!"
  const RegisterOk := "Conta criada com sucesso! Faça login para continuar."
  const MissingFields := "Por favor, preencha todos os campos"

  class AuthForm {
    var isLogin: bool
    var email: string
    var password: string
    var name: string
    const browser: Browser

    /** The initial state: login mode, every field empty. */
    constructor (browser: Browser)
      ensures this.browser == browser
      ensures isLogin && email == "" && password == "" && name == ""
    {
      this.browser := browser;
      isLogin := true;
      email := "";
      password := "";
      name := "";
    }

    method SetEmail(value: string)
      modifies this
      ensures email == value
      ensures isLogin == old(isLogin) && password == old(password) && name == old(name)
    {
      email := value;
    }

    method SetPassword(value: string)
      modifies this
      ensures password == value
      ensures isLogin == old(isLogin) && email == old(email) && name == old(name)
    {
      password := value;
    }

    method SetName(value: string)
      modifies this
      ensures name == value
      ensures isLogin == old(isLogin) && email == old(email) && password == old(password)
    {
      name := value;
    }

    /** The "Cadastre-se" / "Faça login" link: flips the mode and keeps every field. */
    method ToggleMode()
      modifies this
      ensures isLogin == !old(isLogin)
      ensures email == old(email) && password == old(password) && name == old(name)
    {
      isLogin := !isLogin;
    }

    /**
     * `handleSubmit`, returning the route it navigates to (if any) and the toast it shows.
     * A login with both fields stores the flag and goes to the dashboard; a registration
     * with all three fields returns to login mode with only the password cleared; anything
     * else changes nothing and shows the missing-fields error.
     */
    method HandleSubmit() returns (navigation: Option<string>, toast: Toast)
      modifies this, browser
      ensures browser.classList == old(browser.classList)
      ensures old(isLogin) && old(email) != "" && old(password) != "" ==>
                && browser.storage == old(browser.storage)[AuthKey := "true"]
                && navigation == Some(DashboardRoute) && toast == ToastSuccess(LoginOk)
                && isLogin && email == old(email) && password == old(password) && name == old(name)
      ensures !old(isLogin) && old(email) != "" && old(password) != "" && old(name) != "" ==>
                && browser.storage == old(browser.storage)
                && navigation == None && toast == ToastSuccess(RegisterOk)
                && isLogin && email == old(email) && password == "" && name == old(name)
      ensures (old(isLogin) && (old(email) == "" || old(password) == "")) ||
              (!old(isLogin) && (old(email) == "" || old(password) == "" || old(name) == "")) ==>
                && browser.storage == old(browser.storage)
                && navigation == None && toast == ToastError(MissingFields)
                && isLogin == old(isLogin) && email == old(email) && password == old(password) && name == old(name)
    {
      if isLogin {
        if email != "" && password != "" {
          browser.SetItem(AuthKey, "true");
          navigation := Some(DashboardRoute);
          toast := ToastSuccess(LoginOk);
        } else {
          navigation := None;
          toast := ToastError(MissingFields);
        }
      } else {
        if email != "" && password != "" && name != "" {
          isLogin := true;
          password := "";
          navigation := None;
          toast := ToastSuccess(RegisterOk);
        } else {
          navigation := None;
          toast := ToastError(MissingFields);
        }
      }
    }
  }

  /**
   * Registering and then logging in with the same e-mail and a retyped password
   * authenticates the browser.
   */
  method RegisterThenLogin(browser: Browser, email: string, password: string, name: string)
    returns (navigation: Option<string>)
    requires email != "" && password != "" && name != ""
    modifies browser
    ensures navigation == Some(DashboardRoute)
    ensures browser.IsAuthenticated()
    ensures browser.storage == old(browser.storage)[AuthKey := "true"]
  {
    var form := new AuthForm(browser);
    form.ToggleMode();
    form.SetEmail(email);
    form.SetPassword(password);
    form.SetName(name);
    var _, _ := form.HandleSubmit();
    assert form.isLogin && form.password == "" && form.email == email;
    form.SetPassword(password);
    var toast;
    navigation, toast := form.HandleSubmit();
  }
}
