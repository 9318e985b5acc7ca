/** The route table and its guard (`src/App.jsx`): public pages, and five
    groups of pages each open to one role only. */
module Routes {
  import opened JsValues

  /** What the router shows for a path. */
  datatype Outcome = Render | RedirectToLogin | RedirectToHome

  /** `ProtectedRoute`: no role (`!role`) goes to the login page, a role the
      group does not list (`allowedRoles.includes(role)` is false) goes home. */
  function Guard(role: Value, allowedRoles: seq<string>): (o: Outcome)
    ensures o == RedirectToLogin <==> !Truthy(role)
    ensures o == Render <==> Truthy(role) && role.Str? && role.s in allowedRoles
  {
    if !Truthy(role) then RedirectToLogin
    else if role.Str? && role.s in allowedRoles then Render
    else RedirectToHome
  }

  const PublicPaths: seq<string> := ["/login", "/add-user-admin", "/", "/about", "/services"]

  /** The guarded pages, each with the one role its group allows. A map, so
      no page belongs to two groups. */
  const Groups: map<string, string> := map[
    "/accountant" := "accountant",
    "/register-customer" := "accountant",
    "/transaction-history" := "accountant",
    "/accountant/view-report" := "accountant",
    "/accountant/view-customer" := "accountant",
    "/view-meeting" := "accountant",
    "/accountant/view-feedback" := "accountant",
    "/admin" := "admin",
    "/admin/view-log" := "admin",
    "/admin/view-feedback" := "admin",
    "/admin/view-meeting" := "admin",
    "/admin/view-user" := "admin",
    "/customer" := "customer",
    "/customer/send-request" := "customer",
    "/customer/view-meeting" := "customer",
    "/customer/send-feedback" := "customer",
    "/customer/my-transactions" := "customer",
    "/loan-committee" := "loan-committee",
    "/loan-committee/view-meeting" := "loan-committee",
    "/loan-committee/view-loan-request" := "loan-committee",
    "/loan-committee/view-feedback" := "loan-committee",
    "/loan-committee/view-transactions" := "loan-committee",
    "/manager" := "manager",
    "/manager/view-employee" := "manager",
    "/manager/view-meeting" := "manager",
    "/manager/view-report" := "manager",
    "/manager/view-feedback" := "manager",
    "/manager/view-customers" := "manager",
    "/manager/view-transactions" := "manager"
  ]

  /** The role allowed on `path`, or `None` for a page outside every group. */
  function GroupOf(path: string): (r: Option<string>)
    ensures r.Some? <==> path in Groups
    ensures r.Some? ==> r.value == Groups[path]
  {
    if path in Groups then Some(Groups[path]) else None
  }

  /** What a user with `role` sees at one of the routed paths: public pages
      are shown to everyone; a guarded page goes through its group's guard. */
  function Access(path: string, role: Value): (o: Outcome)
    requires path in PublicPaths || path in Groups
  {
    match GroupOf(path)
    case None => Render
    case Some(r) => Guard(role, [r])
  }

  /** A guarded page is shown to exactly the role of its group. */
  lemma GuardedPageShownToItsRoleOnly(path: string, role: Value)
    requires path in Groups
    ensures Access(path, role) == Render <==> role == Str(Groups[path])
  {
  }

  /** Without a role every guarded page sends the visitor to the login page. */
  lemma SignedOutGoesToLogin(path: string)
    requires path in Groups
    ensures Access(path, Null) == RedirectToLogin
  {
  }

  /** No public page is guarded. */
  lemma PublicPagesAreOpen(path: string, role: Value)
    requires path in PublicPaths
    ensures Access(path, role) == Render
  {
  }
}
