/** The user login / registration page: the ordered checks of its submit
    handler, the call it then makes, the session it writes and the redirect
    made when a session already exists. */
module UserAuth {
  import opened Common
  import RouteGuards

  /** The form's text fields (the constant `role: 'user'` is left implicit). */
  datatype AuthForm = AuthForm(username: string, email: string, password: string, confirmPassword: string)

  datatype AuthField = Username | Email | Password | ConfirmPassword

  /** Which early return of `handleSubmit` is taken, if any. */
  datatype FormCheck =
    | PasswordsDiffer   // "Passwords do not match!"
    | FieldsMissing     // "Please fill all the fields!"
    | ConfirmMissing    // "Please confirm your password!"
    | FormAccepted

  /** The three checks of `handleSubmit`, in order. The second is written
      `isLogin && !username || !password`, which groups as
      `(isLogin && !username) || !password`. A form is accepted exactly when
      the password is non-empty, the username is non-empty in login mode,
      and in register mode the confirmation equals the password; the
      "confirm your password" message is never produced, because an empty
      confirmation either differs from the password or comes with an empty
      password, and both are caught first. */
  function CheckForm(isLogin: bool, f: AuthForm): (r: FormCheck)
    ensures r == FormAccepted <==>
      (isLogin ==> f.username != "") && f.password != "" && (!isLogin ==> f.password == f.confirmPassword)
    ensures r == PasswordsDiffer <==> !isLogin && f.password != f.confirmPassword
    ensures r != ConfirmMissing
  {
    if !isLogin && f.password != f.confirmPassword then PasswordsDiffer
    else if (isLogin && f.username == "") || f.password == "" then FieldsMissing
    else if !isLogin && f.confirmPassword == "" then ConfirmMissing
    else FormAccepted
  }

  /** In register mode the username is never looked at: an empty username is
      rejected only when logging in. */
  lemma RegisterIgnoresUsername(f: AuthForm, name: string)
    ensures CheckForm(false, f) == CheckForm(false, f.(username := name))
  {
  }

  /** What a login answers with on success. */
  datatype LoginData = LoginData(token: string, userId: string)

  /** The request `handleSubmit` sends, or the check that stopped it. */
  datatype AuthCall = NoCall(check: FormCheck) | LoginCall(login: AuthForm) | RegisterCall(register: AuthForm)

  /** The session a successful login leaves: the token, `isAdmin` "false"
      and the user's id, over whatever was stored before. */
  function LoggedInSession(before: map<string, string>, d: LoginData): (s: map<string, string>)
    ensures s.Keys == before.Keys + {"token", "isAdmin", "userId"}
    ensures s["token"] == d.token && s["isAdmin"] == "false" && s["userId"] == d.userId
    ensures forall k :: k in before && k !in {"token", "isAdmin", "userId"} ==> s[k] == before[k]
  {
    before["token" := d.token]["isAdmin" := "false"]["userId" := d.userId]
  }

  /** The mount-time redirect: a stored token with `isAdmin` "false" goes to
      the games list, with "true" to the admin dashboard; otherwise the page
      stays. */
  function MountRedirect(isAdmin: Option<string>, token: Option<string>): (r: Option<Route>)
    ensures r == Some(Games) <==> Truthy(token) && isAdmin == Some("false")
    ensures r == Some(AdminDashboardPage) <==> Truthy(token) && isAdmin == Some("true")
    ensures r.Some? ==> r == Some(Games) || r == Some(AdminDashboardPage)
  {
    if Truthy(token) && isAdmin == Some("false") then Some(Games)
    else if Truthy(token) && isAdmin == Some("true") then Some(AdminDashboardPage)
    else None
  }

  /** The mount redirect sends a session only where the matching guard lets
      it in, and a successful login leaves a session the user guard admits
      and the admin guard refuses. */
  lemma RedirectsAgreeWithGuards(isAdmin: Option<string>, token: Option<string>, before: map<string, string>, d: LoginData)
    requires d.token != ""
    ensures MountRedirect(isAdmin, token) == Some(Games) ==> RouteGuards.UserGuard(isAdmin, token) == RouteGuards.Render
    ensures MountRedirect(isAdmin, token) == Some(AdminDashboardPage) ==> RouteGuards.AdminGuard(isAdmin, token) == RouteGuards.Render
    ensures var s := LoggedInSession(before, d);
      && RouteGuards.UserGuard(Some(s["isAdmin"]), Some(s["token"])) == RouteGuards.Render
      && RouteGuards.AdminGuard(Some(s["isAdmin"]), Some(s["token"])) != RouteGuards.Render
  {
  }

  class UserAuthPage {
    var isLogin: bool
    var form: AuthForm
    var loading: bool

    /** No request is in flight between events. */
    ghost predicate Valid()
      reads this
    {
      !loading
    }

    /** The page opens in login mode with an empty form. */
    constructor ()
      ensures Valid() && isLogin && form == AuthForm("", "", "", "")
    {
      isLogin, form, loading := true, AuthForm("", "", "", ""), false;
    }

    /** The inputs' change handlers: one field replaced, the rest kept. */
    method ChangeField(field: AuthField, value: string)
      requires Valid()
      modifies this`form
      ensures Valid()
      ensures form == match field
        case Username => old(form).(username := value)
        case Email => old(form).(email := value)
        case Password => old(form).(password := value)
        case ConfirmPassword => old(form).(confirmPassword := value)
    {
      match field {
        case Username => form := form.(username := value);
        case Email => form := form.(email := value);
        case Password => form := form.(password := value);
        case ConfirmPassword => form := form.(confirmPassword := value);
      }
    }

    /** The "Need an account? / Already have an account?" toggle. */
    method ToggleMode()
      requires Valid()
      modifies this`isLogin
      ensures Valid() && isLogin == !old(isLogin)
    {
      isLogin := !isLogin;
    }

    /** `handleSubmit`. `login` and `register` are the answers of the two
        calls (only the one for the current mode is used). A rejected form
        makes no call. An accepted one calls login in login mode and register
        otherwise. A 200 login writes the session and goes to the games list;
        a 201 registration switches to login mode; nothing else changes
        anything. */
    method HandleSubmit(storage: LocalStorage, login: Reply<LoginData>, register: Reply<()>)
      returns (call: AuthCall, nav: Option<Route>)
      requires Valid()
      modifies this`isLogin, this`loading, storage
      ensures Valid() && form == old(form)
      ensures var c := CheckForm(old(isLogin), form);
        c != FormAccepted ==>
          && call == NoCall(c) && nav == None
          && isLogin == old(isLogin) && storage.items == old(storage.items)
      ensures CheckForm(old(isLogin), form) == FormAccepted && old(isLogin) ==>
        && call == LoginCall(form)
        && isLogin
        && (if login.Response? && login.status == 200
            then storage.items == LoggedInSession(old(storage.items), login.data) && nav == Some(Games)
            else storage.items == old(storage.items) && nav == None)
      ensures CheckForm(old(isLogin), form) == FormAccepted && !old(isLogin) ==>
        && call == RegisterCall(form)
        && nav == None
        && storage.items == old(storage.items)
        && isLogin == (register.Response? && register.status == 201)
    {
      nav := None;
      var check := CheckForm(isLogin, form);
      if check != FormAccepted {
        return NoCall(check), None;
      }
      if isLogin {
        loading := true;
        call := LoginCall(form);
        if login.Response? && login.status == 200 {
          storage.SetItem("token", login.data.token);
          storage.SetItem("isAdmin", "false");
          storage.SetItem("userId", login.data.userId);
          nav := Some(Games);
        }
        loading := false;
      } else {
        loading := true;
        call := RegisterCall(form);
        if register.Response? && register.status == 201 {
          isLogin := true;
        }
        loading := false;
      }
    }
  }
}
