# Newsletter service: subscription workflow and login/admin gate, in Dafny

This project models the request logic of a newsletter service that guards its state and its
admin pages. The service is written in Rust with actix-web and sqlx. Four handlers are modelled:

- `subscribe` (`POST /subscriptions`) is the double-opt-in workflow. It validates the form and
  opens a transaction. In it, it writes the subscriber as `pending_confirmation`, draws a
  25-character alphanumeric token and writes the token row that points at the subscriber. It then
  commits. Only after the commit does it email a confirmation link that carries the token. The
  model is imperative. `Database` holds the committed `subscriptions` and `subscription_tokens`
  tables. `Transaction` holds the rows written but not yet committed. `EmailClient` is the
  append-only list of emails handed to the mail API. `ThreadRng` is the stream of characters the
  random generator yields. Every fallible step takes a fault flag (`Faults`). So the proofs cover
  every combination of failures.
- `login_form` (`GET /login`) and `QueryParams::verify`. The page shows the `error` query
  parameter only when the `tag` parameter is the hex text of the HMAC-SHA256 (RFC 2104) of
  `error=` followed by the percent-encoded error (section 2.1 of RFC 3986). Otherwise the page is
  exactly the one served without parameters.
- `login` (`POST /login`) maps the credential check to a 303 redirect: to `/` when the
  credentials are valid, to `/login` otherwise. It also maps the check's error to a `LoginError`.
- `admin_dashboard` (`GET /admin/dashboard`) redirects a session without a user id to `/login`
  without querying the database. Otherwise it greets the user by the username stored under that
  id. Any failure on the way is a 500.

Modules: `Wrappers` (Option, Result), `Ids` (UUIDs), `Text` (occurrence of words in strings),
`Http` (responses), `Hex` (the `hex` crate's encode/decode), `Subscriptions`, `LoginGet`,
`Authentication` (credential types), `LoginPost`, `AdminDashboard`.

Parameters stand for what the handlers cannot see:

- the MAC function and percent-encoding (`LoginGet.Primitives`);
- HTML escaping;
- the domain validation `NewSubscriber::try_from` (`parse`);
- `validate_credentials` (`Authentication.Validator`);
- the session read;
- `Uuid::new_v4` and `Utc::now`.

The `hex` crate is modelled concretely. It is small and the round trip depends on it.

Where the code and the repository's login tests (tests/api/login.rs:18-26 and :41) disagree,
the model follows the code:

- A valid login redirects to `/`, not to `/admin/dashboard`.
- A failed login redirects to a bare `/login` and leaves no flash message. The test agrees on
  the bare `/login` (tests/api/login.rs:18) but expects the next plain `GET /login` to show
  `<p><i>Authentication failed</i></p>` (tests/api/login.rs:21-22). The page without
  parameters always has an empty fragment (`LoginGet.UnverifiedQueryIsIgnored`).
- No session is written on login.

The tests expect the `/admin/dashboard` target, a session, and that flash message. The code
provides none of the three.

A one-bit change to a tag is not always rejected: `hex::decode` accepts both letter cases, so
upper-casing one letter of a genuine tag (one bit of its text) still verifies
(`LoginGet.UppercasedTagStillVerifies`). The tag still authenticates the same bytes, so this
does not make a forgery possible.

## Model

| member | source | states |
|---|---|---|
| `Subscriptions.Subscribe` | src/routes/subscriptions.rs:30-69 | Invalid form: 400, and nothing is drawn, written or sent. Failed `begin` or subscriber insert (fault or existing id): 500, nothing written or sent. Failed token insert: the `StoreTokenError` propagates, nothing persisted, nothing sent. Failed commit: 500, nothing persisted, nothing sent. Once committed: exactly one new `pending_confirmation` subscriber under the new id, exactly one token row pointing at it, exactly one confirmation email with that token. 200 exactly when every step succeeds. A failed email is a 500 that keeps the rows. The no-orphan-token invariant `Database.Valid` is preserved. |
| `Subscriptions.Transaction.Begin` | src/routes/subscriptions.rs:41-44 | A new transaction on the pool has written nothing. |
| `Subscriptions.Transaction.InsertSubscriber` | src/routes/subscriptions.rs:106-129 | Succeeds exactly when there is no fault and the id is new. It then returns that id and adds one uncommitted `pending_confirmation` row with the form's email and name and the given time. On failure nothing changes. |
| `Subscriptions.Transaction.StoreSubscriptionToken` | src/routes/subscriptions.rs:145-165 | Succeeds exactly when there is no fault and the token is new. It then adds one uncommitted row linking the token to the subscriber id. On failure it returns a `StoreTokenError` and nothing changes. |
| `Subscriptions.Transaction.Commit` | src/routes/subscriptions.rs:54-56 | On success the uncommitted rows join the tables, and no token is left without its subscriber. On failure the tables are unchanged. |
| `Subscriptions.GenerateSubscriptionToken` | src/routes/subscriptions.rs:131-139 | Draws exactly 25 samples. The token is those samples in order. It has length 25 and is ASCII alphanumeric. |
| `Subscriptions.ThreadRng.SampleAlphanumeric` | src/routes/subscriptions.rs:135-136 | One sample is the generator's next alphanumeric character. The draw count advances by one. |
| `Subscriptions.DrawnAt` | src/routes/subscriptions.rs:135-138 | `n` draws yield `n` characters. The i-th is draw number `from + i`. |
| `Subscriptions.DrawnIsToken` | src/routes/subscriptions.rs:132-139 | Any 25 consecutive draws form a token of length 25 made of ASCII letters and digits. |
| `Subscriptions.EmailClient.SendEmail` | src/routes/subscriptions.rs:97-99 | The email (recipient, subject, HTML body, text body) is appended to the outbox. The result reports the delivery fault. |
| `Subscriptions.SendConfirmationEmail` | src/routes/subscriptions.rs:75-100 | Exactly one email is handed over: the confirmation email for this subscriber, base URL and token. |
| `Subscriptions.ConfirmationEmailCarriesLink` | src/routes/subscriptions.rs:81-98 | The mail goes to the subscriber's email with subject "Welcome!". The link is the base URL, then `/subscriptions/confirm?subscription_token=`, then the token, which ends it. The HTML body and the text body each contain the link exactly once. |
| `Subscriptions.ErrorResponse` | src/routes/subscriptions.rs:167-180 | `StoreTokenError` becomes a 500 whose body is its display text. |
| `Hex.Decode` | src/routes/login/get.rs:18 | Decoding succeeds exactly on even-length text made of hex digits of either case. It yields half as many bytes as characters. Odd length is reported before any digit is examined. |
| `Hex.DecodeEncode` | src/routes/login/get.rs:18 | Decoding the lower-case hex text of any byte string gives back that byte string. |
| `Hex.DecodeSameDigit` | src/routes/login/get.rs:18 | Replacing a digit by its other case does not change the decoded result. |
| `LoginGet.QueryString` | src/routes/login/get.rs:19 | The authenticated text is `error=` followed by the percent-encoded error, and nothing else. |
| `LoginGet.Verify` | src/routes/login/get.rs:17-27 | Succeeds exactly when the tag hex-decodes to the MAC of the canonical text under the secret. A tag that is not hex fails with the decoding error. On success the error text is returned unchanged. |
| `LoginGet.GenuineTagVerifies` | src/routes/login/get.rs:17-27 | Round trip: for every error text and key, the hex of the MAC over the canonical text verifies and yields that error text. |
| `LoginGet.GenuineTagBindsError` | src/routes/login/get.rs:19-24 | With percent-encoding injective, a genuine tag verifies another error text only if that text's canonical form differs from its own and collides with it under the MAC. |
| `LoginGet.NonHexTagFailsBeforeMac` | src/routes/login/get.rs:18 | A tag that is not hex fails whatever the MAC function is, so no MAC is consulted. |
| `LoginGet.VerifyDependsOnlyOnCanonicalMac` | src/routes/login/get.rs:19-24 | The verdict depends on the MAC only through its value on the canonical text. |
| `LoginGet.UppercasedTagStillVerifies` | src/routes/login/get.rs:18-26 | Upper-casing one hex letter of a genuine tag still verifies. |
| `LoginGet.ErrorHtml` | src/routes/login/get.rs:34-50 | With no query parameters the fragment is empty. If verification fails it is empty. If verification succeeds it is exactly `<p><i>`, the escaped error, `</i></p>`. |
| `LoginGet.LoginForm` | src/routes/login/get.rs:30-83 | Always a 200 HTML page: the fixed head, the error fragment, then the form. |
| `LoginGet.UnverifiedQueryIsIgnored` | src/routes/login/get.rs:39-47 | If the parameters do not verify, the page is identical to the page without parameters, whose fragment is empty. |
| `LoginGet.QueryReachesPageOnlyWhenVerified` | src/routes/login/get.rs:35-38 | A page that differs from the parameterless one means the parameters verified. Its fragment is then the escaped error. |
| `LoginGet.PageTailHasForm` | src/routes/login/get.rs:63-79 | The page after the fragment contains the form posting to `/login` and the `username` and `password` fields. |
| `LoginGet.LoginPageHasForm` | src/routes/login/get.rs:55-81 | Whatever the fragment, the page is the head, the fragment, and a tail holding the login form and both fields. |
| `LoginPost.Login` | src/routes/login/post.rs:28-60 | The validator's verdict on the form's credentials decides the outcome. Valid: 303 to `/`. Invalid credentials: `LoginError::AuthError`. Unexpected error: `LoginError::UnexpectedError`. Both errors carry a 303 to `/login`. |
| `LoginPost.LoginAlwaysRedirects` | src/routes/login/post.rs:41-57 | Every attempt gets a 303 with `Location` `/` or `/login`, no query string and an empty body. |
| `LoginPost.LoginUsesFormCredentials` | src/routes/login/post.rs:33-40 | The validator is asked about exactly the submitted username and password. |
| `LoginPost.LoginErrorDisplayAndStatus` | src/routes/login/post.rs:62-80 | `AuthError` displays "Authentication failed". `UnexpectedError` displays "Something went wrong". Both report 303. |
| `AdminDashboard.GetUsername` | src/routes/admin/dashboard.rs:52-66 | Succeeds exactly when the database answers and has a row for the id. It returns the username stored under that exact id. |
| `AdminDashboard.ErrorResponse` | src/routes/admin/dashboard.rs:15-20 | Both errors of the handler become a plain-text 500 with no `Location`. |
| `AdminDashboard.AdminDashboard` | src/routes/admin/dashboard.rs:22-50 | No user id: 303 to `/login`. Unreadable session: error. Known user: the greeting page. Failed lookup: error. |
| `AdminDashboard.AnonymousVisitorRedirected` | src/routes/admin/dashboard.rs:26-32 | No user id in the session gives a 303 to `/login`, identical whatever the users table holds, so there is no lookup. |
| `AdminDashboard.UnreadableSessionIsServerError` | src/routes/admin/dashboard.rs:26 | A session read failure gives a 500, with no lookup. |
| `AdminDashboard.FailedLookupIsServerError` | src/routes/admin/dashboard.rs:27 | A user id whose lookup fails (database down or no row) gives a 500. |
| `AdminDashboard.LoggedInUserWelcomed` | src/routes/admin/dashboard.rs:34-49 | A found username gives a 200 HTML page containing `<p>Welcome {username}!</p>` for the username stored under that user id. |

## Left out

- SQL execution, Postgres isolation and concurrent requests are not modelled. The model is one
  request against the tables.
- Primary keys: the schema is not part of this model. Subscriber ids and tokens are taken to be
  primary keys, so an insert that reuses one fails.
- Randomness: `thread_rng` is an arbitrary stream of alphanumeric characters. How the `rand`
  crate maps raw words onto the alphabet is not modelled. `Uuid::new_v4` and `Utc::now` are
  parameters. Uniqueness and entropy of tokens and ids are not provable and not claimed.
- Rollback: dropping a transaction is not an operation of the model. Uncommitted rows are never
  seen by `Database`, so a dropped transaction leaves the tables unchanged.
- The email client's HTTP request, timeouts and the delivery fault's cause are not modelled. An
  email is recorded as handed over whether or not delivery then fails.
- `NewSubscriber` validation, `validate_credentials` (hashing, dummy-hash timing) and
  `TypedSession` storage are not part of this model. They are parameters, with no behaviour
  assumed.
- HMAC-SHA256, the UTF-8 bytes it is computed over and the constant-time comparison are one
  abstract function. Timing cannot be expressed.
- Percent-encoding and `htmlescape::encode_minimal` are abstract functions. Percent-encoding's
  injectivity is a hypothesis of `LoginGet.GenuineTagBindsError` only.
- `LoginGet.GenuineTagBindsError`: collision resistance of HMAC-SHA256 cannot be stated of an
  abstract function with a 32-byte output, so the lemma leaves a MAC collision between two
  different canonical texts as the one way a tag can verify a text other than its own.
- `Hex.Decode` counts characters where the crate counts UTF-8 bytes. On non-ASCII input both
  fail, but the reported error kind or index can differ.
- The logout, password and newsletter routes are not part of this model, and neither is the
  session write and flash message that the tests expect from login.
- `tracing` spans and log lines, actix extractors (a query that does not deserialise is the
  absent query), the `anyhow` cause chains, and the bodies of the session-error 500 beyond
  carrying its message are not modelled.
- `src/main.rs` (configuration, binding, pool and client construction) is not modelled.
