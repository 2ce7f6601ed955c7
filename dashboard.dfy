/** The admin console: a paginated, filterable complaints table, branch and
    user management, and a details view with status and comment editing,
    gated by the role kept in the session store. */
module AdminDashboard {
  import opened Common
  import opened JsStrings
  import opened Session

  datatype Status = New | InProgress | Solved

  datatype Complaint = Complaint(
    id: string,
    fullName: string,
    branch: string,
    problem: string,
    solution: Option<string>,
    contact: Option<string>,
    rating: Option<int>,
    adminComment: Option<string>,
    createdAt: string,
    status: Status)

  datatype Role = Admin | Manager

  datatype User = User(id: string, username: string, role: Role)

  /** The analytics snapshot; the average is only displayed, never computed here. */
  datatype Analytics = Analytics(total: int, globalAvgRating: real)

  datatype Tab = ComplaintsTab | BranchesTab | UsersTab

  const PageSize := 15
  const AllBranches := "all"
  const AdminRole := "admin"
  const LoginPath := "/admin"

  // ---------------------------------------------------------------------
  // Query parameters of the complaints listing

  datatype ParamValue = Num(n: int) | Text(s: string)

  /** One query parameter, in the order the request object received it. */
  datatype Param = Param(key: string, value: ParamValue)

  /** The value of `key` among `ps`, the first one if several. */
  function Lookup(ps: seq<Param>, key: string): Option<ParamValue> {
    if ps == [] then None
    else if ps[0].key == key then Some(ps[0].value)
    else Lookup(ps[1..], key)
  }

  /** Appending a parameter leaves the earlier lookups alone and answers a
      key that was missing with the appended value. */
  lemma {:induction false} LookupAppend(ps: seq<Param>, q: Param, key: string)
    ensures Lookup(ps + [q], key) ==
      if Lookup(ps, key).Some? then Lookup(ps, key) else if q.key == key then Some(q.value) else None
  {
    if ps != [] {
      assert (ps + [q])[1..] == ps[1..] + [q];
      LookupAppend(ps[1..], q, key);
    }
  }

  /** The parameters of the listing request, in the order they are added. */
  function QueryParams(page: int, tab: Tab, selectedBranch: string, sortOrder: string): (ps: seq<Param>)
    ensures |ps| >= 2 && ps[0] == Param("page", Num(page)) && ps[1] == Param("limit", Num(PageSize))
  {
    var base := [Param("page", Num(page)), Param("limit", Num(PageSize))];
    var withBranch :=
      if tab == ComplaintsTab && selectedBranch != AllBranches
      then base + [Param("branch", Text(selectedBranch))] else base;
    if tab == ComplaintsTab && sortOrder != "" then withBranch + [Param("sort", Text(sortOrder))]
    else withBranch
  }

  /** The listing request always carries the page and the fixed page size
      15; it carries the branch filter only on the complaints tab and only
      when a branch other than "all" is chosen, and the sort order only on
      the complaints tab (and only when it is non-empty). */
  lemma QueryParamsLookups(page: int, tab: Tab, selectedBranch: string, sortOrder: string)
    ensures var ps := QueryParams(page, tab, selectedBranch, sortOrder);
      && Lookup(ps, "page") == Some(Num(page))
      && Lookup(ps, "limit") == Some(Num(PageSize))
      && Lookup(ps, "branch") ==
           (if tab == ComplaintsTab && selectedBranch != AllBranches then Some(Text(selectedBranch)) else None)
      && Lookup(ps, "sort") ==
           (if tab == ComplaintsTab && sortOrder != "" then Some(Text(sortOrder)) else None)
  {
    QueryParamsLookup(page, tab, selectedBranch, sortOrder, "page");
    QueryParamsLookup(page, tab, selectedBranch, sortOrder, "limit");
    QueryParamsLookup(page, tab, selectedBranch, sortOrder, "branch");
    QueryParamsLookup(page, tab, selectedBranch, sortOrder, "sort");
  }

  /** The lookup of one key in the listing request, built up one appended
      parameter at a time. */
  lemma QueryParamsLookup(page: int, tab: Tab, selectedBranch: string, sortOrder: string, key: string)
    ensures Lookup(QueryParams(page, tab, selectedBranch, sortOrder), key) ==
      if key == "page" then Some(Num(page))
      else if key == "limit" then Some(Num(PageSize))
      else if key == "branch" && tab == ComplaintsTab && selectedBranch != AllBranches then Some(Text(selectedBranch))
      else if key == "sort" && tab == ComplaintsTab && sortOrder != "" then Some(Text(sortOrder))
      else None
  {
    var p0, p1 := Param("page", Num(page)), Param("limit", Num(PageSize));
    var base := [p0, p1];
    var b := Param("branch", Text(selectedBranch));
    var withBranch := if tab == ComplaintsTab && selectedBranch != AllBranches then base + [b] else base;
    var q := Param("sort", Text(sortOrder));
    assert [p0] == [] + [p0] && base == [p0] + [p1];
    LookupAppend([], p0, key);
    LookupAppend([p0], p1, key);
    LookupAppend(base, b, key);
    LookupAppend(withBranch, q, key);
  }

  // ---------------------------------------------------------------------
  // The result of one fetch

  /** One page of the listing; `totalPages` is `None` when the body has none. */
  datatype ComplaintsPage = ComplaintsPage(data: seq<Complaint>, totalPages: Option<int>)

  datatype AnalyticsReply = AnalyticsReply(success: bool, data: Analytics)

  /** The three requests issued together: listing, branches and analytics. */
  datatype Batch = Batch(complaints: ComplaintsPage, branches: seq<Branch>, analytics: AnalyticsReply)

  /** `totalPages || 1`: the server's count when it is present and non-zero,
      else exactly 1. The result is never 0, and it is at least 1 unless the
      server sent a negative count. */
  function EffectiveTotalPages(t: Option<int>): (n: int)
    ensures n != 0
    ensures t.Some? && t.value != 0 ==> n == t.value
    ensures t.None? || t.value == 0 ==> n == 1
    ensures (t.None? || t.value >= 0) ==> n >= 1
  {
    if t.Some? && t.value != 0 then t.value else 1
  }

  // ---------------------------------------------------------------------
  // Pagination

  /** "Previous": one page back, never below 1. */
  function PrevTarget(page: int): int {
    if page - 1 > 1 then page - 1 else 1
  }

  /** "Next": one page on, never past the last page. */
  function NextTarget(page: int, totalPages: int): int {
    if page + 1 < totalPages then page + 1 else totalPages
  }

  predicate PrevEnabled(page: int) {
    page != 1
  }

  predicate NextEnabled(page: int, totalPages: int) {
    page != totalPages
  }

  predicate PageInRange(page: int, totalPages: int) {
    1 <= page <= totalPages
  }

  /** Both buttons keep the page within [1, totalPages]; within that range a
      button is disabled exactly when its click would change nothing, and an
      enabled one moves by exactly one page. */
  lemma PaginationStaysInRange(page: int, totalPages: int)
    requires PageInRange(page, totalPages)
    ensures PageInRange(PrevTarget(page), totalPages)
    ensures PageInRange(NextTarget(page, totalPages), totalPages)
    ensures PrevEnabled(page) <==> PrevTarget(page) != page
    ensures NextEnabled(page, totalPages) <==> NextTarget(page, totalPages) != page
    ensures PrevEnabled(page) ==> PrevTarget(page) == page - 1
    ensures NextEnabled(page, totalPages) ==> NextTarget(page, totalPages) == page + 1
  {
  }

  /** Whatever the state, "previous" never goes below page 1 and "next"
      never goes past the last page. */
  lemma PaginationBounds(page: int, totalPages: int)
    ensures PrevTarget(page) >= 1
    ensures NextTarget(page, totalPages) <= totalPages
  {
  }

  /** The page is not reset when a fetch shrinks the page count, so the page
      can lie past the last page; "next" is then enabled and moves back to
      the last page. */
  lemma NextFromBeyondLastPage(page: int, totalPages: int)
    requires page > totalPages
    ensures NextEnabled(page, totalPages) && NextTarget(page, totalPages) == totalPages < page
  {
  }

  // ---------------------------------------------------------------------
  // Local patch of one complaint after an update request

  /** The body of an update request: the new status, or the admin comment. */
  datatype PatchBody = StatusPatch(status: Status) | CommentPatch(adminComment: Option<string>)

  datatype PatchRequest = PatchRequest(id: string, body: PatchBody)

  function Apply(c: Complaint, p: PatchBody): Complaint {
    match p
    case StatusPatch(s) => c.(status := s)
    case CommentPatch(a) => c.(adminComment := a)
  }

  /** A patch changes only the field it names. */
  lemma ApplyChangesOneField(c: Complaint, p: PatchBody)
    ensures p.StatusPatch? ==> Apply(c, p).status == p.status && Apply(c, p).(status := c.status) == c
    ensures p.CommentPatch? ==>
      Apply(c, p).adminComment == p.adminComment && Apply(c, p).(adminComment := c.adminComment) == c
    ensures Apply(Apply(c, p), p) == Apply(c, p)
  {
  }

  /** The list after the entries whose id is `id` received the patch: same
      length, same ids in the same order, the matching entries patched and
      every other entry untouched. */
  function PatchById(cs: seq<Complaint>, id: string, p: PatchBody): (r: seq<Complaint>)
    ensures |r| == |cs|
    ensures forall i :: 0 <= i < |cs| ==> r[i].id == cs[i].id
    ensures forall i :: 0 <= i < |cs| && cs[i].id != id ==> r[i] == cs[i]
    ensures forall i :: 0 <= i < |cs| && cs[i].id == id ==> r[i] == Apply(cs[i], p)
  {
    if cs == [] then []
    else [if cs[0].id == id then Apply(cs[0], p) else cs[0]] + PatchById(cs[1..], id, p)
  }

  predicate UniqueIds(cs: seq<Complaint>) {
    forall i, j :: 0 <= i < j < |cs| ==> cs[i].id != cs[j].id
  }

  /** With unique ids, a patch changes at most one entry of the list, and
      if the id is listed it changes only that entry. */
  lemma PatchChangesAtMostOne(cs: seq<Complaint>, id: string, p: PatchBody, i: int, j: int)
    requires UniqueIds(cs)
    requires 0 <= i < |cs| && 0 <= j < |cs|
    requires PatchById(cs, id, p)[i] != cs[i] && PatchById(cs, id, p)[j] != cs[j]
    ensures i == j
  {
  }

  /** Patching an id the list does not hold leaves the list as it was. */
  lemma {:induction false} PatchAbsentId(cs: seq<Complaint>, id: string, p: PatchBody)
    requires forall i :: 0 <= i < |cs| ==> cs[i].id != id
    ensures PatchById(cs, id, p) == cs
  {
    if cs != [] {
      PatchAbsentId(cs[1..], id, p);
    }
  }

  /** Applying the same patch twice is applying it once. */
  lemma {:induction false} PatchIdempotent(cs: seq<Complaint>, id: string, p: PatchBody)
    ensures PatchById(PatchById(cs, id, p), id, p) == PatchById(cs, id, p)
  {
    if cs != [] {
      PatchIdempotent(cs[1..], id, p);
      ApplyChangesOneField(cs[0], p);
    }
  }

  // ---------------------------------------------------------------------
  // Role gating

  /** `userRole === 'admin'` on the role read from the session store. */
  predicate IsAdmin(role: Option<string>) {
    role == Some(AdminRole)
  }

  /** What decides what is rendered. */
  datatype View = View(initialLoading: bool, userRole: Option<string>, activeTab: Tab, detailsOpen: bool)

  datatype Control =
    | ComplaintsTabButton | BranchesTabButton | UsersTabButton | RefreshButton | LogoutButton
    | Filters | Pager | BranchDeleteButton | AddBranchForm | UsersPanel | StatusSelect | CommentEditor

  /** Whether a control is rendered: nothing but a spinner before the first
      fetch ends; the users tab, the users panel, branch deletion, the
      add-branch form and the status and comment editors only for an admin;
      filters and pager only on the complaints tab. */
  predicate Visible(v: View, c: Control) {
    !v.initialLoading &&
    match c
    case ComplaintsTabButton => true
    case BranchesTabButton => true
    case RefreshButton => true
    case LogoutButton => true
    case UsersTabButton => IsAdmin(v.userRole)
    case Filters => v.activeTab == ComplaintsTab
    case Pager => v.activeTab == ComplaintsTab
    case BranchDeleteButton => v.activeTab == BranchesTab && IsAdmin(v.userRole)
    case AddBranchForm => v.activeTab == BranchesTab && IsAdmin(v.userRole)
    case UsersPanel => v.activeTab == UsersTab && IsAdmin(v.userRole)
    case StatusSelect => v.detailsOpen && IsAdmin(v.userRole)
    case CommentEditor => v.detailsOpen && IsAdmin(v.userRole)
  }

  predicate AdminOnly(c: Control) {
    c.UsersTabButton? || c.UsersPanel? || c.BranchDeleteButton? || c.AddBranchForm?
    || c.StatusSelect? || c.CommentEditor?
  }

  /** The admin-only controls are rendered only for the "admin" role, and
      for an admin each is rendered wherever its tab or the details view is
      open; the other controls do not depend on the role at all. */
  lemma RoleGating(v: View, c: Control, otherRole: Option<string>)
    ensures AdminOnly(c) && Visible(v, c) ==> IsAdmin(v.userRole)
    ensures AdminOnly(c) && !IsAdmin(v.userRole) ==> !Visible(v, c)
    ensures !AdminOnly(c) ==> (Visible(v, c) <==> Visible(v.(userRole := otherRole), c))
    ensures IsAdmin(v.userRole) && !v.initialLoading ==>
      Visible(v, UsersTabButton)
      && (v.activeTab == BranchesTab ==> Visible(v, BranchDeleteButton) && Visible(v, AddBranchForm))
      && (v.activeTab == UsersTab ==> Visible(v, UsersPanel))
      && (v.detailsOpen ==> Visible(v, StatusSelect) && Visible(v, CommentEditor))
  {
  }

  // ---------------------------------------------------------------------
  // Mutation requests

  datatype NewUser = NewUser(username: string, password: string, role: Role)

  const SortOrders := ["date_desc", "date_asc", "rating_asc", "rating_desc"]

  /** The dashboard's screen state. The session store is shared with the
      sign-in page. */
  class Dashboard {
    const store: Storage
    var activeTab: Tab
    var complaints: seq<Complaint>
    var selectedComplaint: Option<Complaint>
    var branches: seq<Branch>
    var users: seq<User>
    var initialLoading: bool
    var fetching: bool
    var userRole: Option<string>
    var analytics: Analytics
    var selectedBranch: string
    var sortOrder: string
    var page: int
    var totalPages: int
    var newBranchName: string
    var branchSubmitting: bool
    var newUsername: string
    var newPassword: string
    var newUserRole: Role
    var userSubmitting: bool
    var statusUpdating: bool
    var commentSaving: bool
    var redirectedTo: Option<string>

    constructor (store: Storage)
      ensures this.store == store
      ensures activeTab == ComplaintsTab && complaints == [] && selectedComplaint == None
      ensures branches == [] && users == [] && initialLoading && !fetching && userRole == None
      ensures analytics == Analytics(0, 0.0) && selectedBranch == AllBranches && sortOrder == "date_desc"
      ensures page == 1 && totalPages == 1
      ensures newBranchName == "" && !branchSubmitting
      ensures newUsername == "" && newPassword == "" && newUserRole == Manager && !userSubmitting
      ensures !statusUpdating && !commentSaving && redirectedTo == None
    {
      this.store := store;
      activeTab := ComplaintsTab;
      complaints := [];
      selectedComplaint := None;
      branches := [];
      users := [];
      initialLoading := true;
      fetching := false;
      userRole := None;
      analytics := Analytics(0, 0.0);
      selectedBranch := AllBranches;
      sortOrder := "date_desc";
      page := 1;
      totalPages := 1;
      newBranchName := "";
      branchSubmitting := false;
      newUsername := "";
      newPassword := "";
      newUserRole := Manager;
      userSubmitting := false;
      statusUpdating := false;
      commentSaving := false;
      redirectedTo := None;
    }

    function CurrentView(): View
      reads this
    {
      View(initialLoading, userRole, activeTab, selectedComplaint.Some?)
    }

    /** One fetch, taken as one atomic step. The listing, branches and
        analytics are requested together: if that batch fails, nothing is
        updated (stale data stays). Otherwise the list, the page count
        (default 1), the branches and, when the analytics reply says
        `success`, the analytics are replaced; the role is then read from the
        store, and only for "admin" are the users requested and, when that
        request succeeds, replaced. Loading ends on every path. */
    method FetchData(batch: Reply<Batch>, usersReply: Reply<seq<User>>)
      returns (params: seq<Param>, usersRequested: bool)
      modifies this`complaints, this`totalPages, this`branches, this`analytics, this`userRole,
               this`users, this`initialLoading, this`fetching
      ensures params == QueryParams(page, activeTab, selectedBranch, sortOrder)
      ensures !initialLoading && !fetching
      ensures batch.Failed? ==>
        !usersRequested
        && complaints == old(complaints) && totalPages == old(totalPages) && branches == old(branches)
        && analytics == old(analytics) && userRole == old(userRole) && users == old(users)
      ensures batch.Ok? ==>
        complaints == batch.body.complaints.data
        && totalPages == EffectiveTotalPages(batch.body.complaints.totalPages)
        && branches == batch.body.branches
        && analytics == (if batch.body.analytics.success then batch.body.analytics.data else old(analytics))
        && userRole == store.GetItem(RoleKey)
        && usersRequested == IsAdmin(userRole)
        && users == (if usersRequested && usersReply.Ok? then usersReply.body else old(users))
    {
      fetching := true;
      params := QueryParams(page, activeTab, selectedBranch, sortOrder);
      usersRequested := false;
      if batch.Ok? {
        usersRequested := ApplyBatch(batch.body, usersReply);
      }
      initialLoading := false;
      fetching := false;
    }

    /** The updates after the batch succeeded: list, page count, branches and
        (when successful) analytics, then the role and, for an admin, the users. */
    method ApplyBatch(b: Batch, usersReply: Reply<seq<User>>) returns (usersRequested: bool)
      modifies this`complaints, this`totalPages, this`branches, this`analytics, this`userRole, this`users
      ensures complaints == b.complaints.data
      ensures totalPages == EffectiveTotalPages(b.complaints.totalPages)
      ensures branches == b.branches
      ensures analytics == if b.analytics.success then b.analytics.data else old(analytics)
      ensures userRole == store.GetItem(RoleKey)
      ensures usersRequested == IsAdmin(userRole)
      ensures users == if usersRequested && usersReply.Ok? then usersReply.body else old(users)
    {
      complaints := b.complaints.data;
      totalPages := EffectiveTotalPages(b.complaints.totalPages);
      branches := b.branches;
      if b.analytics.success {
        analytics := b.analytics.data;
      }
      var role := store.GetItem(RoleKey);
      userRole := role;
      usersRequested := IsAdmin(role);
      if usersRequested && usersReply.Ok? {
        users := usersReply.body;
      }
    }

    // The tab, the branch filter, the sort order and the page are the
    // dependencies of the effect that runs FetchData: each method below
    // reports `refetch` exactly when it changed its value, since an effect
    // whose dependencies keep their values does not run again.

    /** Switching tabs (the users tab is offered to an admin only). */
    method SelectTab(tab: Tab) returns (refetch: bool)
      requires tab == UsersTab ==> Visible(CurrentView(), UsersTabButton)
      modifies this`activeTab
      ensures activeTab == tab
      ensures refetch <==> tab != old(activeTab)
    {
      refetch := tab != activeTab;
      activeTab := tab;
    }

    /** Choosing "all" or a listed branch in the filter; the page is kept. */
    method SelectBranchFilter(name: string) returns (refetch: bool)
      requires Visible(CurrentView(), Filters)
      requires name == AllBranches || exists b :: b in branches && b.name == name
      modifies this`selectedBranch
      ensures selectedBranch == name
      ensures refetch <==> name != old(selectedBranch)
    {
      refetch := name != selectedBranch;
      selectedBranch := name;
    }

    /** Choosing one of the four sort orders; the page is kept. */
    method SelectSortOrder(order: string) returns (refetch: bool)
      requires Visible(CurrentView(), Filters) && order in SortOrders
      modifies this`sortOrder
      ensures sortOrder == order
      ensures refetch <==> order != old(sortOrder)
    {
      refetch := order != sortOrder;
      sortOrder := order;
    }

    /** "Previous": a click on page 1 (where the button is disabled) changes
        nothing and fetches nothing. */
    method PrevPage() returns (refetch: bool)
      requires Visible(CurrentView(), Pager)
      modifies this`page
      ensures page == PrevTarget(old(page))
      ensures refetch <==> page != old(page)
    {
      var target := PrevTarget(page);
      refetch := target != page;
      page := target;
    }

    /** "Next": on the last page (where the button is disabled) nothing
        changes and nothing is fetched. */
    method NextPage() returns (refetch: bool)
      requires Visible(CurrentView(), Pager)
      modifies this`page
      ensures page == NextTarget(old(page), totalPages)
      ensures refetch <==> page != old(page)
    {
      var target := NextTarget(page, totalPages);
      refetch := target != page;
      page := target;
    }

    /** Logout removes both session keys and returns to the sign-in page. */
    method Logout()
      requires Visible(CurrentView(), LogoutButton)
      modifies store, this`redirectedTo
      ensures store.items == ClearSession(old(store.items))
      ensures redirectedTo == Some(LoginPath)
    {
      store.RemoveItem(TokenKey);
      store.RemoveItem(RoleKey);
      assert store.items == old(store.items) - {TokenKey, RoleKey};
      redirectedTo := Some(LoginPath);
    }

    method EditNewBranchName(text: string)
      requires Visible(CurrentView(), AddBranchForm)
      modifies this`newBranchName
      ensures newBranchName == text
    {
      newBranchName := text;
    }

    /** Adding a branch. A name that is blank after trimming sends nothing
        and changes nothing. Otherwise the trimmed name is sent; on success
        the input is cleared and a refetch follows, on failure the user is
        alerted and the input is kept. */
    method AddBranch(reply: Reply<()>) returns (request: Option<string>, refetch: bool, alerted: bool)
      requires Visible(CurrentView(), AddBranchForm) && !branchSubmitting
      modifies this`newBranchName, this`branchSubmitting
      ensures !branchSubmitting
      ensures Trim(old(newBranchName)) == "" ==>
        request == None && !refetch && !alerted && newBranchName == old(newBranchName)
      ensures Trim(old(newBranchName)) != "" ==>
        request == Some(Trim(old(newBranchName)))
        && refetch == reply.Ok? && alerted == reply.Failed?
        && newBranchName == (if reply.Ok? then "" else old(newBranchName))
    {
      request, refetch, alerted := None, false, false;
      var name := Trim(newBranchName);
      if name == "" {
        return;
      }
      branchSubmitting := true;
      request := Some(name);
      if reply.Ok? {
        newBranchName := "";
        refetch := true;
      } else {
        alerted := true;
      }
      branchSubmitting := false;
    }

    /** Deleting a listed branch: nothing happens unless the user confirms;
        then the delete is sent, and success is followed by a refetch while
        failure alerts. */
    method DeleteBranch(id: string, confirmed: bool, reply: Reply<()>)
      returns (request: Option<string>, refetch: bool, alerted: bool)
      requires Visible(CurrentView(), BranchDeleteButton)
      requires exists b :: b in branches && b.id == id
      ensures request == (if confirmed then Some(id) else None)
      ensures refetch <==> confirmed && reply.Ok?
      ensures alerted <==> confirmed && reply.Failed?
    {
      request, refetch, alerted := None, false, false;
      if !confirmed {
        return;
      }
      request := Some(id);
      if reply.Ok? {
        refetch := true;
      } else {
        alerted := true;
      }
    }

    method EditNewUser(username: string, password: string, role: Role)
      requires Visible(CurrentView(), UsersPanel)
      modifies this`newUsername, this`newPassword, this`newUserRole
      ensures newUsername == username && newPassword == password && newUserRole == role
    {
      newUsername, newPassword, newUserRole := username, password, role;
    }

    /** Adding a user. Nothing happens unless both the trimmed username and
        the trimmed password are non-empty. The request carries the trimmed
        username, the password as typed and the chosen role. On success the
        inputs are cleared, the role resets to manager and a refetch follows;
        on failure the user is alerted and the inputs are kept. */
    method AddUser(reply: Reply<()>) returns (request: Option<NewUser>, refetch: bool, alerted: bool)
      requires Visible(CurrentView(), UsersPanel) && !userSubmitting
      modifies this`newUsername, this`newPassword, this`newUserRole, this`userSubmitting
      ensures !userSubmitting
      ensures (Trim(old(newUsername)) == "" || Trim(old(newPassword)) == "") ==>
        request == None && !refetch && !alerted
        && newUsername == old(newUsername) && newPassword == old(newPassword) && newUserRole == old(newUserRole)
      ensures Trim(old(newUsername)) != "" && Trim(old(newPassword)) != "" ==>
        request == Some(NewUser(Trim(old(newUsername)), old(newPassword), old(newUserRole)))
        && refetch == reply.Ok? && alerted == reply.Failed?
        && (reply.Ok? ==> newUsername == "" && newPassword == "" && newUserRole == Manager)
        && (reply.Failed? ==>
              newUsername == old(newUsername) && newPassword == old(newPassword) && newUserRole == old(newUserRole))
    {
      request, refetch, alerted := None, false, false;
      var username, trimmedPassword := Trim(newUsername), Trim(newPassword);
      if username != [] && trimmedPassword != [] {
        var password, role := newPassword, newUserRole;
        userSubmitting := true;
        request := Some(NewUser(username, password, role));
        if reply.Ok? {
          newUsername := "";
          newPassword := "";
          newUserRole := Manager;
          refetch := true;
        } else {
          alerted := true;
        }
      }
      userSubmitting := false;
    }

    /** Opening the details view on a row of the table. */
    method OpenDetails(k: int)
      requires Visible(CurrentView(), ComplaintsTabButton) && activeTab == ComplaintsTab
      requires 0 <= k < |complaints|
      modifies this`selectedComplaint
      ensures selectedComplaint == Some(complaints[k])
    {
      selectedComplaint := Some(complaints[k]);
    }

    method CloseDetails()
      modifies this`selectedComplaint
      ensures selectedComplaint == None
    {
      selectedComplaint := None;
    }

    /** Changing the status in the details view. The select is controlled by
        the selected complaint's status and reports only a different choice,
        so the handler never runs for the status already shown. The update is
        sent for the selected complaint; only after it succeeds do the details view and
        the list entries with that id show the new status, every other entry
        and field staying as it was. On failure the user is alerted and
        neither changes. */
    method ChangeStatus(status: Status, reply: Reply<()>) returns (request: PatchRequest, alerted: bool)
      requires Visible(CurrentView(), StatusSelect) && !statusUpdating
      requires status != selectedComplaint.value.status
      modifies this`selectedComplaint, this`complaints, this`statusUpdating
      ensures !statusUpdating
      ensures request == PatchRequest(old(selectedComplaint).value.id, StatusPatch(status))
      ensures alerted <==> reply.Failed?
      ensures reply.Ok? ==>
        selectedComplaint == Some(old(selectedComplaint).value.(status := status))
        && complaints == PatchById(old(complaints), request.id, StatusPatch(status))
        && forall i :: 0 <= i < |complaints| && complaints[i].id == request.id ==> complaints[i].status == status
      ensures reply.Failed? ==>
        selectedComplaint == old(selectedComplaint) && complaints == old(complaints)
    {
      statusUpdating := true;
      var sel := selectedComplaint.value;
      request := PatchRequest(sel.id, StatusPatch(status));
      alerted := false;
      if reply.Ok? {
        selectedComplaint := Some(sel.(status := status));
        complaints := PatchById(complaints, sel.id, StatusPatch(status));
      } else {
        alerted := true;
      }
      statusUpdating := false;
    }

    /** Typing in the comment box edits the selected complaint only. */
    method EditComment(text: string)
      requires Visible(CurrentView(), CommentEditor) && !commentSaving
      modifies this`selectedComplaint
      ensures selectedComplaint == Some(old(selectedComplaint).value.(adminComment := Some(text)))
    {
      selectedComplaint := Some(selectedComplaint.value.(adminComment := Some(text)));
    }

    /** Saving the comment: the selected complaint's comment is sent; after
        success the list entries with that id take it over; on failure the
        user is alerted and the list is unchanged. The details view keeps the
        edited text either way. */
    method SaveComment(reply: Reply<()>) returns (request: PatchRequest, alerted: bool)
      requires Visible(CurrentView(), CommentEditor) && !commentSaving
      modifies this`complaints, this`commentSaving
      ensures !commentSaving
      ensures request == PatchRequest(selectedComplaint.value.id, CommentPatch(selectedComplaint.value.adminComment))
      ensures alerted <==> reply.Failed?
      ensures reply.Ok? ==>
        complaints == PatchById(old(complaints), request.id, request.body)
        && forall i :: 0 <= i < |complaints| && complaints[i].id == request.id ==>
             complaints[i].adminComment == selectedComplaint.value.adminComment
      ensures reply.Failed? ==> complaints == old(complaints)
    {
      commentSaving := true;
      var sel := selectedComplaint.value;
      request := PatchRequest(sel.id, CommentPatch(sel.adminComment));
      alerted := false;
      if reply.Ok? {
        complaints := PatchById(complaints, sel.id, CommentPatch(sel.adminComment));
      } else {
        alerted := true;
      }
      commentSaving := false;
    }
  }
}
