/**
 * The portal as one state machine: the four tables, a logical clock standing
 * for `datetime.utcnow`, and one browser's session. Each handler is a method
 * that answers with an Outcome.
 */
module Portal {
  import opened Wrappers
  import opened Records
  import opened Sessions
  import opened Urls
  import opened Accounts
  import opened Queries
  import opened Responses
  import opened Catalogue

  /** A submitted form leaves a NOT NULL column of `service_request` empty. */
  predicate MissingColumn(form: RequestForm) {
    form.serviceId.None? || form.customerName.None? || form.customerEmail.None? ||
    form.customerPhone.None? || form.address.None?
  }

  class App {
    var services: seq<Service>
    var requests: seq<ServiceRequest>
    var users: seq<User>
    var responses: seq<ClientResponse>
    var clock: nat
    var session: Session

    /**
     * Row i of every table has id i + 1 (rows are never deleted), every
     * timestamp lies before the clock, accounts are unique, and the session
     * holds values of the types login writes.
     */
    ghost predicate Valid()
      reads this
    {
      && (forall i :: 0 <= i < |services| ==> services[i].id == i + 1)
      && (forall i :: 0 <= i < |requests| ==> requests[i].id == i + 1 && requests[i].createdAt < clock)
      && (forall i :: 0 <= i < |users| ==> users[i].id == i + 1)
      && (forall i :: 0 <= i < |responses| ==> responses[i].id == i + 1 && responses[i].respondedAt < clock)
      && UniqueAccounts(users)
      && WellTyped(session)
    }

    /** `db.create_all()` on a new database, with an empty session. */
    constructor ()
      ensures Valid()
      ensures services == [] && requests == [] && users == [] && responses == []
      ensures clock == 0 && session == map[]
    {
      services, requests, users, responses := [], [], [], [];
      clock := 0;
      session := map[];
    }

    /** The seeding part of `initialize_database`: nine services when the table is empty. */
    method InitializeDatabase()
      requires Valid()
      modifies this
      ensures Valid()
      ensures services == Seeded(old(services))
      ensures requests == old(requests) && users == old(users) && responses == old(responses)
      ensures clock == old(clock) && session == old(session)
    {
      if services == [] {
        var i := 0;
        while i < |Entries|
          invariant 0 <= i <= |Entries|
          invariant services == SeedRows(i)
          invariant requests == old(requests) && users == old(users) && responses == old(responses)
          invariant clock == old(clock) && session == old(session)
        {
          var (name, description) := Entries[i];
          services := services + [Service(|services| + 1, name, Some(description))];
          i := i + 1;
        }
      }
    }

    /** GET `/`: the catalogue, narrowed to the client's own service. */
    method Index() returns (o: Outcome)
      requires Valid()
      ensures o == Rendered(CatalogueView(VisibleServices(services, session)))
    {
      o := Rendered(CatalogueView(VisibleServices(services, session)));
    }

    /** GET `/get_services`: every service's id and name. */
    method GetServices() returns (o: Outcome)
      requires Valid()
      ensures o.Rendered? && o.view.ServiceListJson?
      ensures |o.view.entries| == |services|
      ensures forall i :: 0 <= i < |services| ==> o.view.entries[i] == (services[i].id, services[i].name)
    {
      o := Rendered(ServiceListJson(ServiceList(services)));
    }

    /** GET `/service/<id>`: the submission form, for signed-in sessions only. */
    method ServiceForm(serviceId: nat) returns (o: Outcome)
      requires Valid()
      ensures !SignedIn(session) ==> o == Redirect(LoginForm(Some(ServiceFormUrl(serviceId))))
      ensures SignedIn(session) ==> (o == NotFound <==> ServiceWithId(services, serviceId).None?)
      ensures SignedIn(session) && ServiceWithId(services, serviceId).Some? ==>
                o == Rendered(ServiceFormView(ServiceWithId(services, serviceId).value))
      ensures o.Rendered? ==> SignedIn(session) && o.view.ServiceFormView? &&
                              o.view.service in services && o.view.service.id == serviceId
    {
      if !SignedIn(session) {
        o := Redirect(LoginForm(Some(ServiceFormUrl(serviceId))));
        return;
      }
      match ServiceWithId(services, serviceId)
      case None => o := NotFound;
      case Some(s) => o := Rendered(ServiceFormView(s));
    }

    /**
     * POST `/submit_request`: stores the form as a new request stamped with
     * the clock. The service id is stored unchecked; a missing NOT NULL field
     * fails the commit and the request is not stored.
     */
    method SubmitRequest(form: RequestForm) returns (o: Outcome)
      requires Valid()
      modifies this
      ensures Valid()
      ensures services == old(services) && users == old(users) && responses == old(responses)
      ensures session == old(session)
      ensures !SignedIn(session) ==>
                && o == Redirect(LoginForm(Some(if form.serviceId.Some? then ServiceFormUrl(form.serviceId.value) else IndexUrl)))
                && requests == old(requests) && clock == old(clock)
      ensures SignedIn(session) && MissingColumn(form) ==>
                o == ServerError && requests == old(requests) && clock == old(clock)
      ensures SignedIn(session) && !MissingColumn(form) ==>
                var row := ServiceRequest(|old(requests)| + 1, form.serviceId.value, form.customerName.value,
                                          form.customerEmail.value, form.customerPhone.value, form.address.value,
                                          form.description, form.urgency, old(clock));
                requests == old(requests) + [row] && clock == old(clock) + 1 && o == Rendered(ConfirmationView(row))
    {
      if !SignedIn(session) {
        var next := if form.serviceId.Some? then ServiceFormUrl(form.serviceId.value) else IndexUrl;
        o := Redirect(LoginForm(Some(next)));
        return;
      }
      if MissingColumn(form) {
        o := ServerError;
        return;
      }
      var row := ServiceRequest(|requests| + 1, form.serviceId.value, form.customerName.value,
                                form.customerEmail.value, form.customerPhone.value, form.address.value,
                                form.description, form.urgency, clock);
      requests := requests + [row];
      clock := clock + 1;
      o := Rendered(ConfirmationView(row));
    }

    /** GET/POST `/register`: the form, or the creation of an account. */
    method Register(verb: Verb, form: RegistrationForm, hash: string) returns (o: Outcome)
      requires Valid()
      modifies this
      ensures Valid()
      ensures services == old(services) && requests == old(requests) && responses == old(responses)
      ensures clock == old(clock) && session == old(session)
      ensures verb == Get ==> o == Rendered(RegisterView(services)) && users == old(users)
      ensures verb == Post ==>
                match NewAccount(old(users), form, hash)
                case Ok(u) => users == old(users) + [u] && o == Redirect(LoginForm(Some(NextOrIndex(form.next))))
                case Err(e) => users == old(users) && o == Rejected(e, RegisterForm)
      ensures |users| == |old(users)| || (verb == Post && |users| == |old(users)| + 1 && o.Redirect?)
    {
      if verb == Get {
        o := Rendered(RegisterView(services));
        return;
      }
      var next := NextOrIndex(form.next);
      match NewAccount(users, form, hash)
      case Err(e) =>
        o := Rejected(e, RegisterForm);
      case Ok(u) =>
        users := users + [u];
        o := Redirect(LoginForm(Some(next)));
    }

    /** GET/POST `/login`: the form, or signing in. */
    method Login(verb: Verb, identifier: Option<string>, password: Option<string>, next: Option<string>,
                 verify: (string, string) -> bool) returns (o: Outcome)
      requires Valid()
      modifies this
      ensures Valid()
      ensures services == old(services) && requests == old(requests) && users == old(users)
      ensures responses == old(responses) && clock == old(clock)
      ensures verb == Get ==> o == Rendered(LoginView) && session == old(session)
      ensures verb == Post ==>
                match Authenticate(users, identifier, password, verify)
                case Ok(u) => session == SignIn(old(session), u) && o == Redirect(NextTarget(NextOrIndex(next)))
                case Err(e) => session == old(session) && o == Rejected(e, LoginForm(None))
    {
      if verb == Get {
        o := Rendered(LoginView);
        return;
      }
      var nextPage := NextOrIndex(next);
      match Authenticate(users, identifier, password, verify)
      case Err(e) =>
        o := Rejected(e, LoginForm(None));
      case Ok(u) =>
        session := SignIn(session, u);
        o := Redirect(NextTarget(nextPage));
    }

    /** GET `/logout`: drops the four login keys. */
    method Logout() returns (o: Outcome)
      requires Valid()
      modifies this
      ensures Valid()
      ensures services == old(services) && requests == old(requests) && users == old(users)
      ensures responses == old(responses) && clock == old(clock)
      ensures session == SignOut(old(session)) && o == Redirect(Home)
    {
      session := SignOut(session);
      o := Redirect(Home);
    }

    /**
     * GET `/client/dashboard`: the client's queue with its size reported as
     * both the total and the pending count.
     */
    method ClientDashboard() returns (o: Outcome)
      requires Valid()
      ensures !IsClient(session) ==> o == Rejected(NotClient, LoginForm(Some(DashboardUrl)))
      ensures IsClient(session) && !Truthy(Lookup(session, ServiceTypeKey)) ==> o == Rejected(NoServiceType, Home)
      ensures IsClient(session) && Truthy(Lookup(session, ServiceTypeKey)) && SessionService(services, session).None? ==>
                o == Rejected(UnknownServiceType, Home)
      ensures o.Rendered? <==> IsClient(session) && Truthy(Lookup(session, ServiceTypeKey)) && SessionService(services, session).Some?
      ensures o.Rendered? ==>
                var sv := SessionService(services, session).value;
                && o.view.DashboardView?
                && o.view.serviceType == sv.name
                && (forall x :: x in o.view.queue <==> x in requests && x.serviceId == sv.id)
                && multiset(o.view.queue) == multiset(RequestsFor(requests, sv.id))
                && NewestFirst(o.view.queue)
                && o.view.total == o.view.pending == |o.view.queue|
    {
      if !IsClient(session) {
        o := Rejected(NotClient, LoginForm(Some(DashboardUrl)));
        return;
      }
      var serviceType := Lookup(session, ServiceTypeKey);
      if !Truthy(serviceType) {
        o := Rejected(NoServiceType, Home);
        return;
      }
      match SessionService(services, session)
      case None =>
        o := Rejected(UnknownServiceType, Home);
      case Some(sv) =>
        var total := |RequestsFor(requests, sv.id)|;
        var pending := |RequestsFor(requests, sv.id)|;
        o := Rendered(DashboardView(ClientQueue(requests, sv.id), serviceType.s, total, pending));
    }

    /** GET `/client/requests`: the client's queue. */
    method ClientRequests() returns (o: Outcome)
      requires Valid()
      ensures !IsClient(session) ==> o == Rejected(NotClient, LoginForm(Some(RequestsUrl)))
      ensures IsClient(session) && !Truthy(Lookup(session, ServiceTypeKey)) ==> o == Rejected(NoServiceType, Home)
      ensures IsClient(session) && Truthy(Lookup(session, ServiceTypeKey)) && SessionService(services, session).None? ==>
                o == Rejected(UnknownServiceType, Home)
      ensures o.Rendered? <==> IsClient(session) && Truthy(Lookup(session, ServiceTypeKey)) && SessionService(services, session).Some?
      ensures o.Rendered? ==>
                var sv := SessionService(services, session).value;
                && o.view.RequestsView?
                && o.view.serviceType == sv.name
                && (forall x :: x in o.view.queue <==> x in requests && x.serviceId == sv.id)
                && multiset(o.view.queue) == multiset(RequestsFor(requests, sv.id))
                && NewestFirst(o.view.queue)
    {
      if !IsClient(session) {
        o := Rejected(NotClient, LoginForm(Some(RequestsUrl)));
        return;
      }
      var serviceType := Lookup(session, ServiceTypeKey);
      if !Truthy(serviceType) {
        o := Rejected(NoServiceType, Home);
        return;
      }
      match SessionService(services, session)
      case None =>
        o := Rejected(UnknownServiceType, Home);
      case Some(sv) =>
        o := Rendered(RequestsView(ClientQueue(requests, sv.id), serviceType.s));
    }

    /** The signed-in client's id, as `session.get('user_id')`. */
    function ClientId(): int
      reads this
      requires WellTyped(session) && SignedIn(session)
    {
      Lookup(session, UserIdKey).i
    }

    /**
     * POST `/client/request/<id>/accept`: for an authorised client, the
     * accept upsert on the (request, client) pair.
     */
    method Accept(reqId: nat) returns (o: Outcome)
      requires Valid()
      modifies this
      ensures Valid()
      ensures services == old(services) && requests == old(requests) && users == old(users)
      ensures session == old(session)
      ensures !IsClient(session) ==>
                o == Redirect(LoginForm(Some(RequestsUrl))) && responses == old(responses) && clock == old(clock)
      ensures IsClient(session) && RequestWithId(requests, reqId).None? ==>
                o == NotFound && responses == old(responses) && clock == old(clock)
      ensures IsClient(session) && RequestWithId(requests, reqId).Some? &&
              !Authorized(services, session, RequestWithId(requests, reqId).value) ==>
                o == Rejected(NotAuthorized, ClientRequestsPage) && responses == old(responses) && clock == old(clock)
      ensures IsClient(session) && RequestWithId(requests, reqId).Some? &&
              Authorized(services, session, RequestWithId(requests, reqId).value) ==>
                && responses == AcceptUpsert(old(responses), reqId, ClientId(), old(clock))
                && clock == old(clock) + 1
                && o == Redirect(ClientRequestsPage)
    {
      if !IsClient(session) {
        o := Redirect(LoginForm(Some(RequestsUrl)));
        return;
      }
      var found := RequestWithId(requests, reqId);
      if found.None? {
        o := NotFound;
        return;
      }
      var req := found.value;
      var sv := SessionService(services, session);
      if sv.None? || req.serviceId != sv.value.id {
        o := Rejected(NotAuthorized, ClientRequestsPage);
        return;
      }
      var client := Lookup(session, UserIdKey).i;
      var existing := FirstResponse(responses, req.id, client);
      if existing.None? {
        responses := responses + [ClientResponse(|responses| + 1, req.id, client, Some(AcceptedMessage), true, clock)];
      } else {
        var i := existing.value;
        responses := responses[i := responses[i].(accepted := true, respondedAt := clock)];
      }
      clock := clock + 1;
      o := Redirect(ClientRequestsPage);
    }

    /**
     * GET/POST `/client/request/<id>/respond`: for an authorised client, the
     * reply form, or a new unaccepted response row carrying the message.
     */
    method Respond(verb: Verb, reqId: nat, message: Option<string>) returns (o: Outcome)
      requires Valid()
      modifies this
      ensures Valid()
      ensures services == old(services) && requests == old(requests) && users == old(users)
      ensures session == old(session)
      ensures !IsClient(session) ==>
                o == Redirect(LoginForm(Some(RequestsUrl))) && responses == old(responses) && clock == old(clock)
      ensures IsClient(session) && RequestWithId(requests, reqId).None? ==>
                o == NotFound && responses == old(responses) && clock == old(clock)
      ensures IsClient(session) && RequestWithId(requests, reqId).Some? &&
              !Authorized(services, session, RequestWithId(requests, reqId).value) ==>
                o == Rejected(NotAuthorized, ClientRequestsPage) && responses == old(responses) && clock == old(clock)
      ensures IsClient(session) && RequestWithId(requests, reqId).Some? &&
              Authorized(services, session, RequestWithId(requests, reqId).value) ==>
                if verb == Get then
                  o == Rendered(RespondView(RequestWithId(requests, reqId).value)) &&
                  responses == old(responses) && clock == old(clock)
                else
                  && responses == old(responses) + [MessageRow(|old(responses)| + 1, reqId, ClientId(), message, old(clock))]
                  && clock == old(clock) + 1
                  && o == Redirect(ClientRequestsPage)
    {
      if !IsClient(session) {
        o := Redirect(LoginForm(Some(RequestsUrl)));
        return;
      }
      var found := RequestWithId(requests, reqId);
      if found.None? {
        o := NotFound;
        return;
      }
      var req := found.value;
      var sv := SessionService(services, session);
      if sv.None? || req.serviceId != sv.value.id {
        o := Rejected(NotAuthorized, ClientRequestsPage);
        return;
      }
      if verb == Get {
        o := Rendered(RespondView(req));
        return;
      }
      var client := Lookup(session, UserIdKey).i;
      responses := responses + [ClientResponse(|responses| + 1, req.id, client, message, false, clock)];
      clock := clock + 1;
      o := Redirect(ClientRequestsPage);
    }
  }
}
