/** The admin login form's submit handler. */
module AdminLogin {
  import opened Shop
  import AdminDashboard

  const AdminEmail := "admin@demo.com"
  const AdminPassword := "admin123"
  const InvalidCredentials := "Invalid email or password"
  const DashboardRoute := "/admin/dashboard"
  const FlagValue := "true"

  /** The form's fields, its error line, the value stored under
      `adminLoggedIn` (None when absent) and the route the router was sent
      to. */
  datatype LoginPage = LoginPage(
    email: string,
    password: string,
    error: string,
    adminLoggedIn: Option<string>,
    navigatedTo: Option<string>)

  /** Exact comparison: no trimming, no case folding. */
  predicate Accepted(email: string, password: string)
  {
    email == AdminEmail && password == AdminPassword
  }

  /** handleSubmit. The error line is cleared first; `hasWindow` is the
      `typeof window !== 'undefined'` guard around the storage write. */
  function HandleSubmit(p: LoginPage, hasWindow: bool): (r: LoginPage)
    ensures r.email == p.email && r.password == p.password
    ensures r.error == "" <==> Accepted(p.email, p.password)
    ensures !Accepted(p.email, p.password) ==>
              r == p.(error := InvalidCredentials)
    ensures Accepted(p.email, p.password) ==>
              && r.navigatedTo == Some(DashboardRoute)
              && r.adminLoggedIn == (if hasWindow then Some(FlagValue) else p.adminLoggedIn)
  {
    var cleared := p.(error := "");
    if p.email == AdminEmail && p.password == AdminPassword then
      var stored := if hasWindow then cleared.(adminLoggedIn := Some(FlagValue)) else cleared;
      stored.(navigatedTo := Some(DashboardRoute))
    else
      cleared.(error := InvalidCredentials)
  }

  /** Whatever error an earlier attempt left, a submission shows either no
      error or exactly the invalid-credentials message. */
  lemma ErrorResetOnSubmit(p: LoginPage, hasWindow: bool)
    ensures HandleSubmit(p, hasWindow).error in {"", InvalidCredentials}
  {
  }

  /** The handler's comparison does no trimming or case folding: a value
      with anything added before or after a credential (spaces included)
      is rejected, and so is any other e-mail of the same length (a
      different letter case among them). Values are taken as `onChange`
      delivers them, after the browser's own sanitisation. */
  lemma NoNormalisation(s: string, email: string, password: string)
    requires s != ""
    ensures !Accepted(s + AdminEmail, password) && !Accepted(AdminEmail + s, password)
    ensures !Accepted(email, s + AdminPassword) && !Accepted(email, AdminPassword + s)
    ensures |email| == |AdminEmail| && email != AdminEmail ==> !Accepted(email, password)
  {
    assert |s + AdminEmail| != |AdminEmail| && |AdminEmail + s| != |AdminEmail|;
    assert |s + AdminPassword| != |AdminPassword| && |AdminPassword + s| != |AdminPassword|;
  }

  /** A successful login in the browser stores the flag that lets the
      dashboard's gate through; a rejected one leaves the gate as it was. */
  lemma LoginOpensDashboard(p: LoginPage)
    ensures Accepted(p.email, p.password) ==>
              AdminDashboard.Gate(HandleSubmit(p, true).adminLoggedIn).None?
    ensures !Accepted(p.email, p.password) ==>
              AdminDashboard.Gate(HandleSubmit(p, true).adminLoggedIn) == AdminDashboard.Gate(p.adminLoggedIn)
  {
  }
}
