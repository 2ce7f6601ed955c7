/** Client methods that drive the wizard, the sign-in page and the dashboard
    through whole user journeys, using only the contracts of their methods. */
module Scenarios {
  import opened Common
  import opened ComplaintWizard
  import opened Session
  import opened AdminLogin
  import opened AdminDashboard

  /** Steps 1 to 3 of a complaint with valid name, branch and problem end on step 4. */
  method FillInSteps(w: Wizard, name: string, branch: string, problem: string)
    requires w.Valid() && !w.isSuccess && w.step == 1
    requires FullNameValid(Some(name)) && BranchValid(Some(branch)) && ProblemValid(Some(problem))
    modifies w
    ensures w.Valid() && !w.isSuccess && w.step == 4 && w.isSubmitting == old(w.isSubmitting)
    ensures w.form == old(w.form).(fullName := Some(name), branch := Some(branch), problem := Some(problem))
    ensures w.captchaToken == old(w.captchaToken)
  {
    w.EnterText(FullName, name);
    w.EnterText(BranchName, branch);
    var advanced := w.NextStep();
    StepGate(w.form, 1);
    w.EnterText(Problem, problem);
    advanced := w.NextStep();
    StepGate(w.form, 2);
    advanced := w.NextStep();
    StepGate(w.form, 3);
  }

  /** Without a token nothing is posted; with one, the post carries exactly
      the entered fields and the token; success and then the reset return
      to an empty step 1. */
  method SubmitAndReset(w: Wizard, name: string, branch: string, problem: string)
    requires w.Valid() && !w.isSuccess && !w.isSubmitting && w.step == 4 && w.captchaToken == None
    requires w.form == FormData(Some(name), Some(branch), Some(problem), None, None, None)
    requires FullNameValid(Some(name)) && BranchValid(Some(branch)) && ProblemValid(Some(problem))
    modifies w
  {
    w.RateStar(4);
    SchemaValidIff(w.form);
    var request, alerted := w.BeginSubmit();
    assert request == None && alerted;  // valid form but no token: alert, no post

    w.SetCaptchaToken(Some("tok"));
    request, alerted := w.BeginSubmit();
    assert request == Some(Payload(FormData(Some(name), Some(branch), Some(problem), None, None, Some(4)), "tok"));

    alerted := w.FinishSubmit(Ok(()));
    assert w.isSuccess && !w.isSubmitting;
    w.Reset();
    assert w.step == 1 && w.form == EmptyForm && w.captchaToken == None && !w.isSuccess;
  }

  /** A failed post keeps the wizard on step 4 with its token, ready to retry. */
  method FailedSubmitKeepsToken(w: Wizard)
    requires w.Valid() && !w.isSuccess && !w.isSubmitting && w.step == 4
    requires SchemaValid(w.form) && w.captchaToken == Some("tok")
    modifies w
  {
    var request, alerted := w.BeginSubmit();
    assert request.Some?;
    alerted := w.FinishSubmit(Failed);
    assert alerted && !w.isSuccess && w.step == 4 && w.captchaToken == Some("tok");
  }

  /** The submit button is disabled during a post, but "back" is not: back
      on step 1, Enter in the name field submits again, and a second post of
      the same complaint starts before the first has settled. */
  method SecondPostWhileInFlight(w: Wizard)
    requires w.Valid() && !w.isSuccess && !w.isSubmitting && w.step == 4
    requires SchemaValid(w.form) && Truthy(w.captchaToken)
    modifies w
  {
    var first, alerted := w.BeginSubmit();
    assert first.Some? && w.isSubmitting && !SubmitEnabled(w.isSubmitting, w.captchaToken);
    w.PrevStep();
    w.PrevStep();
    w.PrevStep();
    var second, alerted2 := w.BeginSubmit();
    assert w.step == 1 && second == first;
  }

  /** An admin signs in on a fresh browser and is sent to the dashboard; an
      empty password is stopped by the browser before anything is sent. */
  method SignIn() returns (store: Storage)
    ensures store.items == map[TokenKey := "jwt", RoleKey := "admin"]
  {
    store := new Storage(map[]);
    var login := new LoginPage(store);
    login.Mount();
    assert login.redirectedTo == None;
    var sent := login.BeginLogin(Credentials("admin", ""));
    assert sent == None && !login.loading;
    sent := login.BeginLogin(Credentials("admin", "secret"));
    assert sent == Some(Credentials("admin", "secret"));
    var alerted := login.FinishLogin(Ok(LoginReply("jwt", Some("admin"))));
    assert login.redirectedTo == Some(DashboardPath) && !login.loading;
  }

  /** With an admin session the first fetch also loads the users, and the
      page count comes from the reply. */
  method FirstFetchAsAdmin(d: Dashboard, complaints: seq<Complaint>, branches: seq<Branch>, users: seq<User>)
    requires d.store.items == map[TokenKey := "jwt", RoleKey := "admin"]
    modifies d
    ensures d.userRole == Some("admin") && d.users == users && d.totalPages == 3 && !d.initialLoading
    ensures d.page == old(d.page) && d.activeTab == old(d.activeTab) && d.selectedBranch == old(d.selectedBranch)
    ensures d.analytics == Analytics(40, 4.5)
  {
    var batch := Batch(ComplaintsPage(complaints, Some(3)), branches, AnalyticsReply(true, Analytics(40, 4.5)));
    var params, usersRequested := d.FetchData(Ok(batch), Ok(users));
    assert usersRequested;
  }

  /** "Next" from page 1 of 3 changes a dependency of the fetch effect, so
      a fetch of page 2 in the current order follows; a reply without
      analytics keeps the old figures. */
  method NextPageFetches(d: Dashboard, complaints: seq<Complaint>, branches: seq<Branch>)
    requires d.page == 1 && d.totalPages == 3 && !d.initialLoading && d.sortOrder == "date_desc"
    requires d.activeTab == ComplaintsTab && d.selectedBranch == AllBranches
    modifies d
  {
    var before := d.analytics;
    var refetch := d.NextPage();
    assert d.page == 2 && refetch;
    var batch := Batch(ComplaintsPage(complaints, Some(3)), branches, AnalyticsReply(false, Analytics(0, 0.0)));
    var params, usersRequested := d.FetchData(Ok(batch), Failed);
    QueryParamsLookups(2, ComplaintsTab, AllBranches, "date_desc");
    assert Lookup(params, "page") == Some(Num(2)) && Lookup(params, "sort") == Some(Text("date_desc"));
    assert d.analytics == before;
    assert PrevEnabled(d.page) && NextEnabled(d.page, d.totalPages);
  }

  /** A new sort order on page 2 is a second change, followed by a second
      fetch: page 2 again, now sorted by rating, with no branch filter.
      Choosing the order already in effect fetches nothing. */
  method SortChangeFetches(d: Dashboard, complaints: seq<Complaint>, branches: seq<Branch>)
    requires d.page == 2 && d.totalPages == 3 && !d.initialLoading && d.sortOrder == "date_desc"
    requires d.activeTab == ComplaintsTab && d.selectedBranch == AllBranches
    modifies d
  {
    var refetch := d.SelectSortOrder("date_desc");
    assert !refetch;
    refetch := d.SelectSortOrder("rating_desc");
    assert refetch;
    var batch := Batch(ComplaintsPage(complaints, Some(3)), branches, AnalyticsReply(false, Analytics(0, 0.0)));
    var params, usersRequested := d.FetchData(Ok(batch), Failed);
    QueryParamsLookups(2, ComplaintsTab, AllBranches, "rating_desc");
    assert Lookup(params, "page") == Some(Num(2)) && Lookup(params, "sort") == Some(Text("rating_desc"));
    assert Lookup(params, "branch") == None;
  }

  /** Signing out removes the session, so the sign-in page stays put. */
  method SignOut(d: Dashboard, login: LoginPage)
    requires d.store == login.store && !d.initialLoading
    requires d.store.items == map[TokenKey := "jwt", RoleKey := "admin"]
    requires login.redirectedTo == None
    modifies d.store, d, login
  {
    d.Logout();
    LoginThenLogout(map[], "jwt", "admin");
    assert d.store.items == map[];
    login.Mount();
    assert login.redirectedTo == None;
  }
}
