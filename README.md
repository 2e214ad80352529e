# ServiceHub portal core, modelled in Dafny

ServiceHub is a small service-request brokerage. Customers browse service
categories (Plumbing, Electrical, ...) and submit requests. Accounts with
the role `client` are service providers. A client sees the requests of the
one service named by their `service_type` and can accept them or answer
them with a message. This project models the application logic of `app.py`:
- the four tables (`service`, `service_request`, `user`, `client_response`);
- the per-browser session;
- the request handlers;
- the start-up seeding of the catalogue.

Layout, one module per file:

- `wrappers.dfy` (`Wrappers`): `Option` and `Result`.
- `records.dfy` (`Records`): the table rows, the forms, redirect targets (`Page`), refusal reasons, rendered views and handler `Outcome`s.
- `sessions.dfy` (`Sessions`): the session as a map from keys to values, with what login writes and logout removes.
- `urls.dfy` (`Urls`): URLs built by the handlers and the post-login redirect rule.
- `config.dfy` (`Config`): the `postgres://` database-URL rewrite.
- `accounts.dfy` (`Accounts`): the registration checks and the login decision.
- `queries.dfy` (`Queries`): first-row lookups, the index catalogue, `/get_services`, a client's queue ordered newest first, and the authorisation rule.
- `responses.dfy` (`Responses`): the client-response table per (request, client) pair, with the accept upsert and the appending respond.
- `catalogue.dfy` (`Catalogue`): the nine seeded services.
- `portal.dfy` (`Portal`): class `App`, which holds the tables, a logical clock and one session. Every handler is a method that returns an `Outcome`.
- `scenarios.dfy` (`Scenarios`): client code that uses only the handlers' contracts. It seeds twice, registers twice, logs in with a wrong and then a right password, shows a Plumbing request on the dashboard, accepts twice, responds twice and logs out.

Modelling choices:

- Rows are never deleted, so row `i` of every table has id `i + 1`. This is the id SQLite assigns (`App.Valid`).
- `datetime.utcnow` is replaced by the counter `App.clock`. Every insert or update that stamps a time uses the current tick and advances it.
- The session is `map<string, Value>`, with values None, int or str. `session.get(k)` is `Lookup`, and Python truthiness is `Truthy`.
- `.first()` on a query without ORDER BY returns the lowest row, and `.all()` without ORDER BY (app.py:93, 139, 181) returns the rows in table order. The database itself fixes neither order; where two rows match, or where a list is shown, the order is the model's choice (see `Accounts.FindAccount` under Left out).
- `ORDER BY created_at DESC` returns a permutation of the matching rows, newest first (`SortNewestFirst`).
- Password hashing is external. `Register` receives the stored hash as an argument. `Login` receives `check_password_hash` as an opaque predicate `verify(hash, password)`.
- A login whose identifier matches an account but which sends no password makes the hash check raise (with no matching account, `user and ...` at app.py:193 never calls the check, and the result is 'Invalid credentials'). The handler catches the exception, flashes an error and redirects to the login form. The model returns `Rejected(LoginFailed, LoginForm(None))` and leaves the modelled session keys unchanged (flashed messages are not modelled; see Left out).
- `submit_request` stores the submitted `service_id` without checking that such a service exists. A form that leaves a NOT NULL column (`service_id`, name, email, phone, address) absent fails at commit. The global error handler then renders the 500 page. The model returns `ServerError` and stores nothing.

Behaviour worth noting (the model follows `app.py`):

- Logout removes only `user_id`, `username`, `role` and `service_type`. Other session keys stay.
- Login follows any `next` that starts with `/`, including a protocol-relative `//host/...` (`Urls.ProtocolRelativeNextIsFollowed`).
- Registration compares the new username only with existing usernames, and the new email only with existing emails. A new username may therefore equal an older account's email. Both accounts then match that identifier at login (app.py:192). Which one `.first()` returns is not fixed by the query; the model's lowest-row reading picks the older one (`Accounts.UsernameShadowedByOlderEmail`).
- The first response row of a (request, client) pair may be a message reply. Accept then marks that reply accepted and keeps its message.
- The dashboard's pending count is the same number as its total.
- The `NotFound` outcome stands for `get_or_404` failing on an unknown service or request id (app.py:103, 270, 296). The global handler `@app.errorhandler(Exception)` (app.py:398-406) also catches that HTTP exception, so the browser gets the generic error page with status 500, not a 404.

## Model

| member | source | states |
|---|---|---|
| `Sessions.SignedIn` | app.py:99 | A session is signed in when `session.get('user_id')` is truthy: present, not None, and not 0 or empty. The service form and the submit handler (app.py:109) use this gate. |
| `Sessions.IsClient` | app.py:214 | The gate of the client pages: signed in and the role is the string `client`. Dashboard, queue, accept and respond use it (app.py:245, 267, 293). |
| `Sessions.SignIn` | app.py:194-197 | After login, the four keys hold the user's id, username, role and service type (None when the column is None). Every other key is unchanged and no other key appears. |
| `Sessions.SignOut` | app.py:317-320 | Logout removes exactly the four login keys and keeps every other key and its value. Afterwards the session is neither signed in nor a client session. |
| `Sessions.SignOutForgetsSignIn` | app.py:194-197 | Logging in (the keys written here) and then out (the keys popped at app.py:317-320) leaves the same session as logging out alone. |
| `Sessions.SignInClientPassesGate` | app.py:196-197 | After an account with a positive id and role `client` logs in, the session passes the client pages' gate. |
| `Urls.Decimal` | app.py:100 | `str(n)` as the `int` converter writes an id into a URL: a non-empty string of digits, with a leading `0` only for n = 0. |
| `Urls.ParseDecimal` | app.py:97 | The `int` route converter reading a string of digits back as a number, most significant digit first. |
| `Urls.DecimalRoundTrip` | app.py:97-100 | The `int` route converter reads back exactly the id that `url_for` wrote into the URL. |
| `Urls.ServiceFormUrl` | app.py:97-101 | The login `next` URL of a service form starts with `/service/`, followed by digits that parse back to the service id. |
| `Urls.NextOrIndex` | app.py:190 | A blank `next` falls back to the index URL `/`. Any other value is kept unchanged. |
| `Urls.NextTarget` | app.py:199-201 | Login redirects to `next` if and only if `next` is non-empty and starts with `/`. Otherwise it redirects to the index page. |
| `Urls.BlankNextGoesToIndexUrl` | app.py:190-201 | A login without `next` redirects to `/`. |
| `Urls.ProtocolRelativeNextIsFollowed` | app.py:199-200 | A `next` of the form `//host...` passes the leading-slash test and is followed. |
| `Config.ReplaceFirst` | app.py:22 | When the string starts with the pattern, the pattern at the start is replaced and the rest is kept; this is the case the URL rewrite uses. |
| `Config.ReplaceFirstOccurrence` | app.py:22 | Only the first occurrence of the pattern is replaced: the text before it and after it is kept. |
| `Config.ReplaceFirstAbsent` | app.py:22 | A string in which the pattern occurs nowhere is returned unchanged. |
| `Config.DatabaseUrl` | app.py:21-22 | A `postgres://` URL becomes `postgresql://` with the same remainder. Any other URL is unchanged. The result never starts with `postgres://`. |
| `Config.DatabaseUrlIdempotent` | app.py:21-22 | Rewriting the URL a second time changes nothing. |
| `Queries.FirstMatch` | app.py:86 | The index returned by `.first()` satisfies the filter and no earlier row does. None means no row does. |
| `Queries.ServiceNamed` | app.py:224 | The service named `name` with the lowest row. None exactly when no service has that name. |
| `Queries.SessionService` | app.py:272-273 | The service whose name is the session's `service_type`. A None service type matches no service. |
| `Queries.ServiceWithId` | app.py:103 | The service with the given id. None exactly when no service has it. |
| `Queries.RequestWithId` | app.py:270 | The request with the given id. None exactly when no request has it. |
| `Queries.VisibleServices` | app.py:85-93 | A client session with a truthy service type sees exactly the first service of that name, as `.first()` picks it, or nothing if no service has that name. Every other session sees all services. |
| `Queries.ServiceList` | app.py:139-141 | One (id, name) pair per service, in table order. |
| `Queries.ListedIdOpensService` | app.py:139-141 | With ids assigned as row numbers, every id in the JSON list looks up exactly the service listed with it, so the service form opens for that name. |
| `Queries.RequestsFor` | app.py:231 | Exactly the requests whose `service_id` is the given id, each as many times as it occurs in the table, and no other row. |
| `Queries.InsertByAge` | app.py:235 | Inserting into a newest-first list keeps it newest first and adds exactly that one row. |
| `Queries.SortNewestFirst` | app.py:235 | The result is ordered by `created_at` descending and is a permutation of the input. |
| `Queries.ClientQueue` | app.py:261 | A client's queue is exactly the requests of that service, each as often as in the table, newest first. Its length is the filtered count. |
| `Queries.Authorized` | app.py:273-275 | A client may accept or respond to a request only when some service has the session's service type as its name and the first such service is the request's service. Respond repeats the rule at app.py:299-301. |
| `Responses.FirstResponse` | app.py:279 | The first row for the (request, client) pair. None exactly when the pair has no row. |
| `Responses.CountPairAppend` | app.py:307-308 | Appending a row raises the pair's count by one when the row belongs to the pair, and leaves it unchanged otherwise. |
| `Responses.CountPairZero` | app.py:279-280 | The pair's count is zero exactly when the accept lookup finds no row. |
| `Responses.CountPairUpdate` | app.py:284-285 | Updating a row in place without changing its request or client keeps the pair's count. |
| `Responses.AcceptUpsert` | app.py:279-287 | Accept is an upsert. With no row for the pair, one accepted row with message "Accepted" is appended. Otherwise only the pair's first row changes: it becomes accepted and is re-stamped. The row count does not grow. The pair keeps at least one row, and its first row is accepted. |
| `Responses.AcceptTwiceKeepsOneRow` | app.py:279-287 | Accepting twice leaves the same number of rows for the pair as accepting once; starting from no row, exactly one. (The second accept re-stamps `responded_at` on that row, so the tables are not equal.) |
| `Responses.MessageRow` | app.py:307 | A reply row belongs to the pair, is not accepted and carries the given message. |
| `Responses.RespondTwiceAddsTwoRows` | app.py:305-309 | Two replies add two rows for the pair and leave every existing row unchanged. |
| `Accounts.Taken` | app.py:158 | The duplicate check: some existing account has the new username as its username, or the new email as its email. |
| `Accounts.RoleOf` | app.py:152 | An absent role field means `user`; a sent role is kept as sent, with no check of its value. |
| `Accounts.NewAccount` | app.py:154-169 | Checked in order: blank username, email or password gives MissingFields; a taken username or email gives DuplicateUser; a client without a service type gives MissingServiceType. Each holds if and only if its condition holds, and the registration succeeds if and only if none of them holds. On success the new account has id n+1, the given fields and hash, and a role that defaults to `user`. A client keeps its service type; any other role stores None. Uniqueness of usernames and emails is preserved. |
| `Accounts.Identifies` | app.py:192 | The login filter: an identifier was sent and equals the account's username or its email. |
| `Accounts.FindAccount` | app.py:192 | The first account, in the model's lowest-row order, whose username or email equals the identifier. An absent identifier matches no account. |
| `Accounts.Authenticate` | app.py:192-209 | Login succeeds if and only if a matching account exists, a password was sent and it checks against the stored hash. An unknown identifier or a wrong password gives InvalidCredentials. A matching account with no password sent gives LoginFailed. |
| `Accounts.RegisterThenLogin` | app.py:158-193 | A newly registered account logs in with its username or email, provided no older account uses that identifier. |
| `Accounts.UsernameShadowedByOlderEmail` | app.py:158-192 | A username equal to an older account's email is accepted at registration, and both accounts then match that identifier at login. Under the model's lowest-row order, login finds the older account. |
| `Catalogue.SeedRow` | app.py:377-379 | Seed entry i becomes the service with id i+1 and that entry's name and description. |
| `Catalogue.SeedRows` | app.py:365-379 | The first n seeded rows, in the listed order. |
| `Catalogue.Seeded` | app.py:364-381 | An empty table receives the nine listed services in order. A non-empty table is unchanged. |
| `Catalogue.SeedingIdempotent` | app.py:364 | Seeding again after seeding changes nothing. |
| `Catalogue.FreshCatalogue` | app.py:365-375 | A fresh database holds nine services with ids 1 to 9, distinct names, in the listed order. |
| `Portal.App.constructor` | app.py:330 | Empty tables, clock at zero, empty session, invariant established. |
| `Portal.App.InitializeDatabase` | app.py:364-381 | The service table becomes `Seeded` of the old one. Nothing else changes. |
| `Portal.App.Index` | app.py:82-95 | Renders the catalogue that `VisibleServices` gives for this session. |
| `Portal.App.GetServices` | app.py:137-141 | Renders JSON with one (id, name) entry per service, in table order. |
| `Portal.App.ServiceForm` | app.py:97-104 | A session that is not signed in is sent to login, with the service-form URL as `next`. A signed-in session gets NotFound exactly when the id is unknown, and otherwise the form of the service with that id. |
| `Portal.MissingColumn` | app.py:41-45 | A submitted form leaves out one of the NOT NULL columns `service_id`, name, email, phone or address, so the commit at app.py:133 fails. |
| `Portal.App.SubmitRequest` | app.py:106-135 | Not signed in: redirect to login, with the form URL or `/` as `next`. A missing NOT NULL field gives a server error and stores nothing. Otherwise exactly one request is appended with the next id and the current tick, and the confirmation is rendered. Other tables and the session are unchanged. |
| `Portal.App.Register` | app.py:144-182 | GET renders the form. POST appends exactly the account `NewAccount` builds and redirects to login, or leaves the user table unchanged and rejects with `NewAccount`'s reason. The user table grows only by one, and only on a successful POST. |
| `Portal.App.Login` | app.py:184-210 | On success the session becomes `SignIn` of the old session, and the redirect follows `NextTarget`. On failure the modelled session keys are unchanged and the browser goes back to the login form. Tables are unchanged. |
| `Portal.App.Logout` | app.py:315-322 | The session becomes `SignOut` of the old one, then a redirect to the index page. |
| `Portal.App.ClientDashboard` | app.py:212-241 | Three gates, checked in order: not a client, then no service type, then an unknown service. When all pass, the dashboard lists exactly that service's requests, newest first. Its total and pending counts both equal the list's length. |
| `Portal.App.ClientRequests` | app.py:243-263 | The same gates as the dashboard. When they pass, it lists exactly that service's requests, newest first. |
| `Portal.App.ClientId` | app.py:279 | The signed-in client's id, `session.get('user_id')`, which keys the response rows of accept and respond (app.py:307). |
| `Portal.App.Accept` | app.py:265-289 | Checked in order: not a client, then an unknown request, then not authorised. Each of these leaves the responses unchanged. Otherwise the responses become `AcceptUpsert` for (request, session user) at the current tick. |
| `Portal.App.Respond` | app.py:291-313 | The same gates as Accept. When authorised, GET renders the reply form. POST appends exactly one unaccepted row with the message and keeps every existing row. |

## Left out

- Flask plumbing is not modelled: routing, templates, `jsonify`, HTTP status codes and the text of flashed messages. Handlers return abstract `Outcome` values instead.
- Flashed messages are not modelled. `flash()` appends each message to the session under the key `_flashes` (app.py:155-321), and the next rendered page removes them. The model's `Session` never holds that key, so every session contract (`Sessions.SignIn`, `Sessions.SignOut`, `Portal.App.Login`, `Portal.App.Logout`) holds for every key apart from `_flashes`.
- Password hashing is not modelled (`generate_password_hash`, `check_password_hash`). Hashing is salted and random, so the hash is an argument and the check is an opaque predicate.
- Wall-clock time is not modelled. A monotone logical clock stands in for it.
- The column-detection and `ALTER TABLE` part of `initialize_database` (app.py:332-362) is not modelled. Neither are `migrate_db.py` and `reset_db.py`: they are database-engine I/O.
- Logging setup and the global error handler are not modelled (app.py:387-406). The handler turns every uncaught exception into the generic error page with status 500. The model keeps two abstract outcomes for the cases it reaches: `ServerError` for a NOT NULL violation on submit, and `NotFound` for a failed `get_or_404`, which the handler also renders as that 500 page.
- `export_requests.py` and `export_requests_mongo.py` are not part of this model: they are CSV and database I/O tools.
- The `/test` route (app.py:324-326) only renders a static page.
- Form values are modelled as already-decoded values. `service_id` is `Option<nat>`, so non-numeric or negative text in that field is not modelled.
- Concurrency is not modelled. That includes two clients accepting the same request at once and two registrations racing past the duplicate check. Register's exception branch (app.py:175-179) has no other reachable cause in the model.
- Only one browser session is modelled.
- Ids are `row count + 1`, as SQLite assigns them. Sequences that skip values after a failed insert (PostgreSQL) are not modelled.
- Accounts.FindAccount: the login query (app.py:192) has no ORDER BY, so when two accounts match the identifier the database may return either, depending on its query plan. The model always returns the lowest row.
- Column limits are not modelled: the `String(n)` lengths (app.py:32, 42-45, 47, 55-59) and the foreign key on `service_id` (app.py:41). SQLite enforces neither. PostgreSQL does; there an over-long username or email is refused through app.py:175-179 and an unknown `service_id` fails at commit, while the model stores both.
- Queries.SortNewestFirst: for requests with equal `created_at`, the database may return any order. The model fixes one and claims only order and permutation. The logical clock never stamps two requests with the same tick.
