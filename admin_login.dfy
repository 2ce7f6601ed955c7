/** The admin sign-in page: redirects to the dashboard when a session token
    is already stored, and on a successful login stores the session and
    redirects. */
module AdminLogin {
  import opened Common
  import opened Session

  const DashboardPath := "/admin/dashboard"

  /** The form values posted to the login endpoint, as entered. */
  datatype Credentials = Credentials(username: string, password: string)

  /** The login response body: the issued token, and the role of the `user`
      object, `None` when the body carries no `user` object. */
  datatype LoginReply = LoginReply(token: string, userRole: Option<string>)

  /** Whether the mount check sends the visitor on to the dashboard. */
  predicate RedirectsOnMount(items: map<string, string>) {
    Truthy(Get(items, TokenKey))
  }

  /** After a login that stored the session, the mount check redirects
      exactly when the issued token is non-empty; after a logout it never does. */
  lemma MountAfterLoginAndLogout(items: map<string, string>, token: string, role: string)
    ensures RedirectsOnMount(WriteSession(items, token, role)) <==> token != ""
    ensures !RedirectsOnMount(ClearSession(items))
  {
  }

  class LoginPage {
    const store: Storage
    var loading: bool
    var redirectedTo: Option<string>

    constructor (store: Storage)
      ensures this.store == store && !loading && redirectedTo == None
    {
      this.store := store;
      loading := false;
      redirectedTo := None;
    }

    /** The mount check: a stored, non-empty token redirects to the
        dashboard; otherwise the page stays. The store is only read. */
    method Mount()
      modifies this`redirectedTo
      ensures redirectedTo == if RedirectsOnMount(store.items) then Some(DashboardPath) else old(redirectedTo)
    {
      var token := store.GetItem(TokenKey);
      if Truthy(token) {
        redirectedTo := Some(DashboardPath);
      }
    }

    /** Submitting the form (the button is disabled while loading). Both
        inputs are `required`, so the browser does not submit while either is
        empty: nothing is sent and the page is unchanged. Otherwise the
        request carries the credentials as entered and the page is loading
        until the reply comes. */
    method BeginLogin(credentials: Credentials) returns (request: Option<Credentials>)
      requires !loading
      modifies this`loading
      ensures request.Some? <==> credentials.username != "" && credentials.password != ""
      ensures request.Some? ==> request.value == credentials
      ensures loading <==> request.Some?
    {
      if credentials.username == "" || credentials.password == "" {
        return None;
      }
      loading := true;
      request := Some(credentials);
    }

    /** The login request settles. A rejected request alerts, writes no key
        and does not redirect. A reply with a `user` stores its token and role
        and redirects. A reply without `user` fails after the token was
        stored: the token stays, the user is alerted, and there is no
        redirect. Loading ends on every path. */
    method FinishLogin(reply: Reply<LoginReply>) returns (alerted: bool)
      requires loading
      modifies this`loading, this`redirectedTo, store
      ensures !loading
      ensures reply.Failed? ==> alerted && store.items == old(store.items) && redirectedTo == old(redirectedTo)
      ensures reply.Ok? && reply.body.userRole.Some? ==>
        !alerted
        && store.items == WriteSession(old(store.items), reply.body.token, reply.body.userRole.value)
        && redirectedTo == Some(DashboardPath)
      ensures reply.Ok? && reply.body.userRole.None? ==>
        alerted
        && store.items == old(store.items)[TokenKey := reply.body.token]
        && redirectedTo == old(redirectedTo)
    {
      alerted := false;
      if reply.Ok? {
        store.SetItem(TokenKey, reply.body.token);
        if reply.body.userRole.Some? {
          store.SetItem(RoleKey, reply.body.userRole.value);
          redirectedTo := Some(DashboardPath);
        } else {
          alerted := true;
        }
      } else {
        alerted := true;
      }
      loading := false;
    }
  }
}
