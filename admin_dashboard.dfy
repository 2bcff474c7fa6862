/** `GET /admin/dashboard`: the session must hold a user id; the page greets the user by the
    username stored under that id. */
module AdminDashboard {
  import opened Wrappers
  import opened Ids
  import opened Text
  import opened Http

  /** Why the session's user id could not be read (the session's value did not deserialise). */
  datatype SessionError = SessionError(message: string)

  /** What `TypedSession::get_user_id` returns. The session store behind it is not part of this
      model. */
  type SessionRead = Result<Option<Uuid>, SessionError>

  /** The `users` table as `get_username` queries it: the username of each user id, and whether
      the database answers at all. */
  datatype UsersTable = UsersTable(usernames: map<Uuid, string>, reachable: bool)

  /** Why `get_username` failed: the query did not run, or `fetch_one` found no row. */
  datatype QueryError = QueryFailed | RowNotFound

  /** The context `get_username` attaches to its error, which is the error's display text. */
  const UsernameQueryContext: string := "Failed to perform a query to retrieve a username."

  /** `get_username`: the username stored under exactly `userId`. */
  function GetUsername(userId: Uuid, users: UsersTable): (r: Result<string, QueryError>)
    ensures r.Ok? <==> users.reachable && userId in users.usernames
    ensures r.Ok? ==> r.value == users.usernames[userId]
  {
    if !users.reachable then Err(QueryFailed)
    else if userId in users.usernames then Ok(users.usernames[userId])
    else Err(RowNotFound)
  }

  /** The two errors `admin_dashboard` turns into a 500 with `error_500`. */
  datatype DashboardError = SessionUnreadable(cause: SessionError) | UsernameUnavailable(error: QueryError)

  /** `ErrorInternalServerError(error)`: status 500, the error's display text as a plain-text
      body. */
  function ErrorResponse(e: DashboardError): (r: Response)
    ensures r.status == StatusInternalServerError && r.location == None
    ensures r.contentType == Some(PlainTextContentType)
  {
    match e
    case SessionUnreadable(cause) => Response(StatusInternalServerError, None, Some(PlainTextContentType), cause.message)
    case UsernameUnavailable(_) => Response(StatusInternalServerError, None, Some(PlainTextContentType), UsernameQueryContext)
  }

  /** The response actix sends for what `admin_dashboard` returns. */
  function Rendered(r: Result<Response, DashboardError>): Response {
    match r
    case Ok(response) => response
    case Err(e) => ErrorResponse(e)
  }

  const PageLead: string := @"
                <!DOCTYPE html>
                <html lang=""en"">
                <head>
                    <meta http-equiv=""content-type"" content=""text/html; charset=utf-8"">
                    <title>Admin dashboard</title>
                    </head>
                <body>
                    "
  const PageEnd: string := @"
                </body>
                </html>
            "

  /** The greeting line of the page. */
  function Greeting(username: string): string {
    "<p>Welcome " + username + "!</p>"
  }

  function DashboardPage(username: string): string {
    PageLead + Greeting(username) + PageEnd
  }

  /** `admin_dashboard`. */
  function AdminDashboard(session: SessionRead, users: UsersTable): (r: Result<Response, DashboardError>)
    ensures session == Ok(None) ==> r == Ok(SeeOther("/login"))
    ensures session.Err? ==> r == Err(SessionUnreadable(session.error))
    ensures session.Ok? && session.value.Some? ==>
      match GetUsername(session.value.value, users)
      case Ok(username) => r == Ok(HtmlPage(DashboardPage(username)))
      case Err(e) => r == Err(UsernameUnavailable(e))
  {
    match session
    case Err(e) => Err(SessionUnreadable(e))
    case Ok(None) => Ok(SeeOther("/login"))
    case Ok(Some(userId)) =>
      match GetUsername(userId, users)
      case Err(e) => Err(UsernameUnavailable(e))
      case Ok(username) => Ok(HtmlPage(DashboardPage(username)))
  }

  /** Anonymous visitors are sent to `/login`, and the users table is never consulted: the
      outcome is the same whatever the table holds. */
  lemma AnonymousVisitorRedirected(users: UsersTable, other: UsersTable)
    ensures Rendered(AdminDashboard(Ok(None), users)) == SeeOther("/login")
    ensures AdminDashboard(Ok(None), users) == AdminDashboard(Ok(None), other)
  {
  }

  /** A session that cannot be read gives a 500, again without a lookup. */
  lemma UnreadableSessionIsServerError(e: SessionError, users: UsersTable, other: UsersTable)
    ensures Rendered(AdminDashboard(Err(e), users)).status == StatusInternalServerError
    ensures AdminDashboard(Err(e), users) == AdminDashboard(Err(e), other)
  {
  }

  /** A logged-in user whose username cannot be fetched (database down, or no row for the id)
      gets a 500, not the page. */
  lemma FailedLookupIsServerError(userId: Uuid, users: UsersTable)
    requires !users.reachable || userId !in users.usernames
    ensures Rendered(AdminDashboard(Ok(Some(userId)), users)).status == StatusInternalServerError
  {
  }

  /** A logged-in user whose username is found gets a 200 HTML page greeting exactly the username
      stored under that user id. */
  lemma LoggedInUserWelcomed(userId: Uuid, users: UsersTable)
    requires users.reachable && userId in users.usernames
    ensures var response := Rendered(AdminDashboard(Ok(Some(userId)), users));
      && response.status == StatusOk
      && response.contentType == Some(HtmlContentType)
      && Contains(response.body, "<p>Welcome " + users.usernames[userId] + "!</p>")
  {
    SplicedOccurs(PageLead, Greeting(users.usernames[userId]), PageEnd);
  }
}
