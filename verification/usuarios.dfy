/**
 * The user-account rules: the password policy of the registration form, the e-mail copy when
 * the form saves the user, and the role gate that protects views.
 */
module Usuarios {
  import opened Outcomes

  // ---------------------------------------------------------------- password policy

  /** `[A-Za-z]`: an ASCII letter. */
  predicate IsAsciiLetter(c: char) {
    ('A' <= c <= 'Z') || ('a' <= c <= 'z')
  }

  /** `\d`, restricted to the ASCII digits. */
  predicate IsDigit(c: char) {
    '0' <= c <= '9'
  }

  /** The position of the first character satisfying `p`, as a regular-expression search finds it. */
  function Search(s: string, p: char -> bool): (r: Option<nat>)
    ensures r.Some? ==> r.value < |s| && p(s[r.value]) && forall k | 0 <= k < r.value :: !p(s[k])
    ensures r.None? ==> forall k | 0 <= k < |s| :: !p(s[k])
  {
    if |s| == 0 then None
    else if p(s[0]) then Some(0)
    else
      var r := Search(s[1..], p);
      assert forall k | 1 <= k < |s| :: s[k] == s[1..][k - 1];
      if r.Some? then Some(r.value + 1) else None
  }

  predicate HasLetter(s: string) {
    exists k | 0 <= k < |s| :: IsAsciiLetter(s[k])
  }

  predicate HasDigit(s: string) {
    exists k | 0 <= k < |s| :: IsDigit(s[k])
  }

  /** The three refusals of the password policy, in the order they are checked. */
  datatype PasswordError = WrongLength | NoLetter | NoDigit

  /**
   * `RegistroForm.clean_password1`: exactly 8 characters, then at least one letter, then at least
   * one digit; the first rule that fails is the one reported, and an accepted password is returned as is.
   */
  function CleanPassword1(password: string): (r: Result<string, PasswordError>)
    ensures r == Err(WrongLength) <==> |password| != 8
    ensures r == Err(NoLetter) <==> |password| == 8 && !HasLetter(password)
    ensures r == Err(NoDigit) <==> |password| == 8 && HasLetter(password) && !HasDigit(password)
    ensures r.Ok? <==> |password| == 8 && HasLetter(password) && HasDigit(password)
    ensures r.Ok? ==> r.value == password
  {
    if |password| != 8 then Err(WrongLength)
    else if Search(password, IsAsciiLetter).None? then Err(NoLetter)
    else if Search(password, IsDigit).None? then Err(NoDigit)
    else Ok(password)
  }

  /** A registered user as the form builds it. */
  datatype Account = Account(username: string, email: string, password: string)

  /** `RegistroForm.save`: the user gets the cleaned e-mail field; the rest of the account is untouched. */
  function RegistrationSave(user: Account, cleanedEmail: string): (r: Account)
    ensures r.email == cleanedEmail
    ensures r.username == user.username && r.password == user.password
  {
    user.(email := cleanedEmail)
  }

  // ---------------------------------------------------------------- role gate

  /** `Perfil.ROLES`: 'admin', 'encargado' (manager) and 'vendedor' (seller). */
  datatype Role = Admin | Manager | Seller

  /** Who makes the request: logged in or not, and the role of their profile if they have one. */
  datatype Requester = Requester(authenticated: bool, profile: Option<Role>)

  datatype DenyReason = NoProfile | RoleNotAllowed

  /**
   * What a gated view answers: a redirect to the login page, a refusal, the view's own response,
   * or a server error raised before the view runs.
   */
  datatype Response<R> =
    | RedirectToLogin
    | PermissionDenied(reason: DenyReason)
    | ViewResponse(value: R)
    | ServerError

  /**
   * `rol_requerido(*roles)`: an anonymous request goes to the login page before anything else is
   * looked at; a user without a profile, then a user whose role is not listed, is refused; anyone
   * else gets the wrapped view called with the same arguments.
   */
  function RolRequerido<A, R(==)>(roles: set<Role>, view: A -> R, user: Requester, args: A): (r: Response<R>)
    ensures r.RedirectToLogin? <==> !user.authenticated
    ensures r == PermissionDenied(NoProfile) <==> user.authenticated && user.profile.None?
    ensures r == PermissionDenied(RoleNotAllowed) <==>
      user.authenticated && user.profile.Some? && user.profile.value !in roles
    ensures r.ViewResponse? <==> user.authenticated && user.profile.Some? && user.profile.value in roles
    ensures r.ViewResponse? ==> r.value == view(args)
  {
    if !user.authenticated then RedirectToLogin
    else if user.profile.None? then PermissionDenied(NoProfile)
    else if user.profile.value !in roles then PermissionDenied(RoleNotAllowed)
    else ViewResponse(view(args))
  }

  /**
   * `rol_requerido(*roles)` as written: the anonymous branch calls `redirect`, which the module never
   * imports, so it raises `NameError` and the request ends in a server error. The other branches
   * are those of `RolRequerido`.
   */
  function RolRequeridoAsWritten<A, R(==)>(roles: set<Role>, view: A -> R, user: Requester, args: A): (r: Response<R>)
    ensures r == ServerError <==> !user.authenticated
    ensures !r.RedirectToLogin?
    ensures user.authenticated ==> r == RolRequerido(roles, view, user, args)
  {
    if !user.authenticated then ServerError
    else if user.profile.None? then PermissionDenied(NoProfile)
    else if user.profile.value !in roles then PermissionDenied(RoleNotAllowed)
    else ViewResponse(view(args))
  }

  /**
   * The two gates differ exactly on anonymous requests: the code as written fails with a server
   * error where the redirect to the login page is meant. Neither lets the view run.
   */
  lemma AnonymousRequestIsServerError<A, R>(roles: set<Role>, view: A -> R, user: Requester, args: A)
    ensures RolRequeridoAsWritten(roles, view, user, args) != RolRequerido(roles, view, user, args)
      <==> !user.authenticated
    ensures !user.authenticated ==>
      && RolRequeridoAsWritten(roles, view, user, args) == ServerError
      && RolRequerido(roles, view, user, args) == RedirectToLogin
  {
  }

  /** `solo_admin`: only administrators reach the view. */
  function SoloAdmin<A, R(==)>(view: A -> R, user: Requester, args: A): (r: Response<R>)
    ensures r.ViewResponse? <==> user.authenticated && user.profile == Some(Admin)
    ensures r.ViewResponse? ==> r.value == view(args)
    ensures user.authenticated && user.profile.Some? && user.profile.value != Admin ==>
      r == PermissionDenied(RoleNotAllowed)
  {
    RolRequerido({Admin}, view, user, args)
  }

  /** `admin_o_encargado`: administrators and managers reach the view; sellers are refused. */
  function AdminOEncargado<A, R(==)>(view: A -> R, user: Requester, args: A): (r: Response<R>)
    ensures r.ViewResponse? <==> user.authenticated && user.profile in {Some(Admin), Some(Manager)}
    ensures r.ViewResponse? ==> r.value == view(args)
    ensures user.authenticated && user.profile == Some(Seller) ==> r == PermissionDenied(RoleNotAllowed)
  {
    RolRequerido({Admin, Manager}, view, user, args)
  }
}
