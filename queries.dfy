/**
 * The read-only queries of the handlers: first-row lookups, the catalogue
 * shown on the index page, and a client's request queue.
 */
module Queries {
  import opened Wrappers
  import opened Records
  import opened Sessions

  /** `.first()` of a filtered query: the lowest row that satisfies `p`, if any. */
  function FirstMatch<T>(rows: seq<T>, p: T -> bool): (r: Option<nat>)
    ensures r.Some? ==> r.value < |rows| && p(rows[r.value])
    ensures r.Some? ==> forall j :: 0 <= j < r.value ==> !p(rows[j])
    ensures r.None? ==> forall j :: 0 <= j < |rows| ==> !p(rows[j])
  {
    if rows == [] then None
    else if p(rows[0]) then Some(0)
    else match FirstMatch(rows[1..], p)
      case None => None
      case Some(i) => Some(i + 1)
  }

  /** `Service.query.filter_by(name=name).first()`. */
  function ServiceNamed(services: seq<Service>, name: string): (r: Option<Service>)
    ensures r.Some? ==> r.value in services && r.value.name == name
    ensures r.None? <==> forall i :: 0 <= i < |services| ==> services[i].name != name
    ensures r.Some? ==> exists i :: 0 <= i < |services| && services[i] == r.value &&
                                     forall j :: 0 <= j < i ==> services[j].name != name
  {
    match FirstMatch(services, (x: Service) => x.name == name)
    case None => None
    case Some(i) => Some(services[i])
  }

  /** The service named by the session's `service_type` (a None value matches no row). */
  function SessionService(services: seq<Service>, s: Session): (r: Option<Service>)
    ensures r.Some? ==> r.value in services && Lookup(s, ServiceTypeKey) == StrVal(r.value.name)
    ensures Lookup(s, ServiceTypeKey).StrVal? ==> r == ServiceNamed(services, Lookup(s, ServiceTypeKey).s)
    ensures !Lookup(s, ServiceTypeKey).StrVal? ==> r.None?
  {
    match Lookup(s, ServiceTypeKey)
    case StrVal(t) => ServiceNamed(services, t)
    case _ => None
  }

  /** `Service.query.get(id)`. */
  function ServiceWithId(services: seq<Service>, id: nat): (r: Option<Service>)
    ensures r.Some? ==> r.value in services && r.value.id == id
    ensures r.None? <==> forall i :: 0 <= i < |services| ==> services[i].id != id
  {
    match FirstMatch(services, (x: Service) => x.id == id)
    case None => None
    case Some(i) => Some(services[i])
  }

  /** `ServiceRequest.query.get(id)`. */
  function RequestWithId(requests: seq<ServiceRequest>, id: nat): (r: Option<ServiceRequest>)
    ensures r.Some? ==> r.value in requests && r.value.id == id
    ensures r.None? <==> forall i :: 0 <= i < |requests| ==> requests[i].id != id
  {
    match FirstMatch(requests, (x: ServiceRequest) => x.id == id)
    case None => None
    case Some(i) => Some(requests[i])
  }

  /**
   * The services listed on the index page: for a session with role 'client'
   * and a truthy service type, the first service of that name (or none);
   * for every other session, all of them.
   */
  function VisibleServices(services: seq<Service>, s: Session): (r: seq<Service>)
    ensures Lookup(s, RoleKey) == StrVal("client") && Truthy(Lookup(s, ServiceTypeKey)) ==>
              |r| <= 1 &&
              (r == [] <==> SessionService(services, s).None?) &&
              forall x :: x in r ==> x in services && Lookup(s, ServiceTypeKey) == StrVal(x.name)
    ensures (Lookup(s, RoleKey) == StrVal("client") && Truthy(Lookup(s, ServiceTypeKey)) &&
             SessionService(services, s).Some?) ==> r == [SessionService(services, s).value]
    ensures !(Lookup(s, RoleKey) == StrVal("client") && Truthy(Lookup(s, ServiceTypeKey))) ==> r == services
  {
    if Lookup(s, RoleKey) == StrVal("client") && Truthy(Lookup(s, ServiceTypeKey)) then
      match SessionService(services, s)
      case Some(x) => [x]
      case None => []
    else services
  }

  /** The `/get_services` JSON list: one (id, name) pair per service, in table order. */
  function ServiceList(services: seq<Service>): (r: seq<(nat, string)>)
    ensures |r| == |services|
    ensures forall i :: 0 <= i < |r| ==> r[i].0 == services[i].id && r[i].1 == services[i].name
  {
    seq(|services|, i requires 0 <= i < |services| => (services[i].id, services[i].name))
  }

  /**
   * With ids assigned as row numbers, every id the JSON list offers opens the
   * service form of exactly the service listed under that name.
   */
  lemma ListedIdOpensService(services: seq<Service>, k: nat)
    requires forall i :: 0 <= i < |services| ==> services[i].id == i + 1
    requires k < |ServiceList(services)|
    ensures ServiceWithId(services, ServiceList(services)[k].0) == Some(services[k])
    ensures ServiceWithId(services, ServiceList(services)[k].0).value.name == ServiceList(services)[k].1
  {
  }

  /** `ServiceRequest.query.filter_by(service_id=sid)`, in table order. */
  function RequestsFor(requests: seq<ServiceRequest>, sid: nat): (r: seq<ServiceRequest>)
    ensures forall x :: x in r <==> x in requests && x.serviceId == sid
    ensures forall x :: multiset(r)[x] == if x.serviceId == sid then multiset(requests)[x] else 0
    ensures multiset(r) <= multiset(requests)
    ensures |r| <= |requests|
  {
    if requests == [] then []
    else
      var rest := RequestsFor(requests[1..], sid);
      assert requests == [requests[0]] + requests[1..];
      if requests[0].serviceId == sid then [requests[0]] + rest else rest
  }

  /** Ordered by `created_at`, newest first. */
  predicate NewestFirst(q: seq<ServiceRequest>) {
    forall i, j :: 0 <= i < j < |q| ==> q[i].createdAt >= q[j].createdAt
  }

  /** Putting a row no older than the head in front keeps a list newest first. */
  lemma ConsNewestFirst(y: ServiceRequest, q: seq<ServiceRequest>)
    requires NewestFirst(q)
    requires q != [] ==> q[0].createdAt <= y.createdAt
    ensures NewestFirst([y] + q)
  {
  }

  function InsertByAge(x: ServiceRequest, q: seq<ServiceRequest>): (r: seq<ServiceRequest>)
    requires NewestFirst(q)
    ensures NewestFirst(r)
    ensures multiset(r) == multiset(q) + multiset{x}
    ensures r[0] == x || (q != [] && r[0] == q[0])
    ensures |r| == |q| + 1
  {
    if q == [] || x.createdAt >= q[0].createdAt then
      ConsNewestFirst(x, q);
      [x] + q
    else
      var rest := InsertByAge(x, q[1..]);
      assert q == [q[0]] + q[1..];
      assert q[1..] != [] ==> q[1..][0] == q[1];
      ConsNewestFirst(q[0], rest);
      [q[0]] + rest
  }

  /** `ORDER BY created_at DESC`: a permutation of the rows, newest first. */
  function SortNewestFirst(q: seq<ServiceRequest>): (r: seq<ServiceRequest>)
    ensures NewestFirst(r)
    ensures multiset(r) == multiset(q)
    ensures |r| == |q|
  {
    if q == [] then []
    else
      assert q == [q[0]] + q[1..];
      InsertByAge(q[0], SortNewestFirst(q[1..]))
  }

  /**
   * The requests a client of service `sid` sees: exactly the requests of
   * that service, each as often as in the table, newest first.
   */
  function ClientQueue(requests: seq<ServiceRequest>, sid: nat): (r: seq<ServiceRequest>)
    ensures NewestFirst(r)
    ensures forall x :: x in r <==> x in requests && x.serviceId == sid
    ensures multiset(r) == multiset(RequestsFor(requests, sid))
    ensures |r| == |RequestsFor(requests, sid)|
  {
    var r := SortNewestFirst(RequestsFor(requests, sid));
    assert forall x :: x in r <==> x in multiset(r);
    r
  }

  /**
   * The authorisation rule of accept and respond: the request belongs to the
   * first service whose name is the session's service type.
   */
  predicate Authorized(services: seq<Service>, s: Session, req: ServiceRequest) {
    SessionService(services, s).Some? && req.serviceId == SessionService(services, s).value.id
  }
}
