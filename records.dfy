/**
 * The four tables of the service portal, the forms its handlers read and
 * the outcomes they produce.
 */
module Records {
  import opened Wrappers

  /** A category of work offered through the portal (table `service`). */
  datatype Service = Service(id: nat, name: string, description: Option<string>)

  /**
   * A customer's request for work under one service (table `service_request`).
   * `createdAt` is a tick of the application's logical clock.
   */
  datatype ServiceRequest = ServiceRequest(
    id: nat,
    serviceId: nat,
    customerName: string,
    customerEmail: string,
    customerPhone: string,
    address: string,
    description: Option<string>,
    urgency: Option<string>,
    createdAt: nat)

  /**
   * An account (table `user`). `role` is "user" or "client" by convention;
   * `serviceType` names a service by its name, without a foreign key.
   */
  datatype User = User(
    id: nat,
    username: string,
    email: string,
    passwordHash: string,
    role: string,
    serviceType: Option<string>)

  /** A client's acceptance of, or message about, a request (table `client_response`). */
  datatype ClientResponse = ClientResponse(
    id: nat,
    requestId: nat,
    clientId: int,
    message: Option<string>,
    accepted: bool,
    respondedAt: nat)

  /** The fields of the registration form; an absent field is None. */
  datatype RegistrationForm = RegistrationForm(
    username: Option<string>,
    email: Option<string>,
    password: Option<string>,
    next: Option<string>,
    role: Option<string>,
    serviceType: Option<string>)

  /** The fields of the request submission form; an absent field is None. */
  datatype RequestForm = RequestForm(
    serviceId: Option<nat>,
    customerName: Option<string>,
    customerEmail: Option<string>,
    customerPhone: Option<string>,
    address: Option<string>,
    description: Option<string>,
    urgency: Option<string>)

  datatype Verb = Get | Post

  /** Where a redirect goes. `Url` is a raw path taken from the client. */
  datatype Page =
    | Home
    | LoginForm(next: Option<string>)
    | RegisterForm
    | ClientRequestsPage
    | Url(path: string)

  /** Why a handler refused, shown to the user as a flashed message. */
  datatype Reason =
    | MissingFields
    | DuplicateUser
    | MissingServiceType
    | InvalidCredentials
    | LoginFailed
    | NotClient
    | NoServiceType
    | UnknownServiceType
    | NotAuthorized

  /** A rendered page or JSON document, with the data handed to the template. */
  datatype View =
    | CatalogueView(services: seq<Service>)
    | ServiceFormView(service: Service)
    | ConfirmationView(request: ServiceRequest)
    | ServiceListJson(entries: seq<(nat, string)>)
    | RegisterView(choices: seq<Service>)
    | LoginView
    | DashboardView(queue: seq<ServiceRequest>, serviceType: string, total: nat, pending: nat)
    | RequestsView(queue: seq<ServiceRequest>, serviceType: string)
    | RespondView(request: ServiceRequest)

  /** What a handler answers. */
  datatype Outcome =
    | Rendered(view: View)
    | Redirect(to: Page)
    | Rejected(reason: Reason, to: Page)
    // `get_or_404` found no row; the global error handler renders this as the generic 500 page
    | NotFound
    // an exception at commit, rendered by the global error handler as the generic 500 page
    | ServerError

  /** Python falsiness of an optional form string: absent or empty. */
  predicate Blank(v: Option<string>) {
    v.None? || v.value == ""
  }
}
