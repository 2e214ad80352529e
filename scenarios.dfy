/**
 * A walk through the portal that uses only the handlers' contracts: a fresh
 * start-up, a Plumbing client registering and logging in, a request being
 * submitted, and the client's dashboard, accept and respond.
 */
module Scenarios {
  import opened Wrappers
  import opened Records
  import opened Sessions
  import opened Accounts
  import opened Queries
  import opened Responses
  import opened Catalogue
  import opened Portal

  /** Start-up twice: the catalogue is seeded once. */
  method StartupSeedsOnce()
  {
    var app := new App();
    app.InitializeDatabase();
    assert app.services[0].name == "Plumbing" && app.services[0].id == 1;
    app.InitializeDatabase();
    assert |app.services| == 9;
  }

  /** The client account used by the walk-through; its stored "hash" is its password. */
  function Carol(): User {
    User(1, "carol", "carol@example.org", "pw", "client", Some("Plumbing"))
  }

  /** A client registers once and is refused a second time. */
  method RegisterTwice()
  {
    var app := new App();
    var form := RegistrationForm(Some("carol"), Some("carol@example.org"), Some("pw"), None, Some("client"), Some("Plumbing"));
    assert !Taken([], "carol", "carol@example.org");
    assert NewAccount([], form, "pw") == Ok(Carol());
    var o := app.Register(Post, form, "pw");
    assert o == Redirect(LoginForm(Some("/"))) && app.users == [Carol()];
    assert Taken([Carol()], "carol", "carol@example.org") by {
      assert [Carol()][0].username == "carol";
    }
    o := app.Register(Post, form, "pw");
    assert o == Rejected(DuplicateUser, RegisterForm) && app.users == [Carol()];
  }

  /** A wrong password leaves the session alone; the right one signs the client in. */
  method LoginClient(app: App)
    requires app.Valid() && app.users == [Carol()] && app.session == map[]
    modifies app
  {
    // A stand-in for the hash check: the stored "hash" is the password itself.
    var verify := (hash: string, password: string) => hash == password;
    assert FindAccount([Carol()], Some("carol")) == Some(Carol()) by {
      assert Identifies([Carol()][0], Some("carol"));
    }
    var o := app.Login(Post, Some("carol"), Some("wrong"), None, verify);
    assert o == Rejected(InvalidCredentials, LoginForm(None)) && app.session == map[];
    o := app.Login(Post, Some("carol"), Some("pw"), Some("/client/dashboard"), verify);
    assert o == Redirect(Url("/client/dashboard"));
    assert IsClient(app.session);
  }

  /** The session Carol's login leaves behind. */
  predicate CarolSignedIn(s: Session) {
    Lookup(s, UserIdKey) == IntVal(1) && Lookup(s, RoleKey) == StrVal("client") &&
    Lookup(s, ServiceTypeKey) == StrVal("Plumbing")
  }

  /** A request submitted for Plumbing shows up in the Plumbing client's dashboard. */
  method PlumbingQueue(app: App)
    requires app.Valid() && CarolSignedIn(app.session)
    requires app.services == Seeded([]) && app.requests == []
    modifies app
  {
    var o := app.SubmitRequest(RequestForm(Some(1), Some("Dan"), Some("dan@example.org"), Some("555"), Some("1 Main St"), None, Some("high")));
    assert |app.requests| == 1 && app.requests[0].serviceId == 1;
    assert app.services[0].name == "Plumbing";
    assert SessionService(app.services, app.session) == Some(app.services[0]);
    assert RequestsFor(app.requests, 1) == app.requests;
    o := app.ClientDashboard();
    assert o.Rendered? && o.view.total == o.view.pending == 1;
    assert o.view.queue == app.requests;
  }

  /** Accepting twice keeps one row for the pair; each reply adds one more. */
  method AcceptAndRespond(app: App, req: ServiceRequest)
    requires app.Valid() && CarolSignedIn(app.session)
    requires app.services == Seeded([]) && app.requests == [req] && req.serviceId == 1
    requires app.responses == []
    modifies app
  {
    assert app.services[0].name == "Plumbing";
    assert SessionService(app.services, app.session) == Some(app.services[0]);
    assert RequestWithId(app.requests, 1) == Some(req);
    var o := app.Accept(1);
    o := app.Accept(1);
    assert CountPair(app.responses, 1, 1) == 1;
    o := app.Respond(Post, 1, Some("On my way"));
    o := app.Respond(Post, 1, Some("Arrived"));
    assert CountPair(app.responses, 1, 1) == 3;
  }

  /** After logout the client pages send the browser back to login. */
  method LogoutClosesDashboard(app: App)
    requires app.Valid() && CarolSignedIn(app.session)
    modifies app
  {
    var o := app.Logout();
    o := app.ClientDashboard();
    assert o == Rejected(NotClient, LoginForm(Some("/client/dashboard")));
  }
}
