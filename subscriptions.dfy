/** `POST /subscriptions`: the double-opt-in workflow. The form is validated, a subscriber row and
    a confirmation-token row are written in one transaction, the transaction is committed, and only
    then is the confirmation email sent.

    The collaborators the handler cannot see are explicit here: the database is a `Database`
    (the committed tables) and a `Transaction` (rows written but not yet committed); the email
    client is an append-only log of the emails handed to it; the thread-local random generator is
    a stream of alphanumeric draws; `Uuid::new_v4` and `Utc::now` are parameters; every fallible
    call takes a fault flag saying whether it fails. */
module Subscriptions {
  import opened Wrappers
  import opened Ids
  import opened Text
  import opened Http

  /** The urlencoded body of `POST /subscriptions`. */
  datatype FormData = FormData(email: string, name: string)

  /** A subscriber that passed the domain's validation (`NewSubscriber`). */
  datatype NewSubscriber = NewSubscriber(email: string, name: string)

  /** The `status` column of the `subscriptions` table. */
  datatype SubscriptionStatus = PendingConfirmation | Confirmed

  /** A point in time as `Utc::now` reports it. */
  type Timestamp = int

  /** A row of the `subscriptions` table, keyed by the subscriber id. */
  datatype SubscriberRow = SubscriberRow(
    email: string,
    name: string,
    subscribedAt: Timestamp,
    status: SubscriptionStatus)

  /** Why the database refused a statement: an injected fault, or an existing primary key. */
  datatype SqlError = DatabaseFault | DuplicateKey

  /** `StoreTokenError`: the token row could not be written. */
  datatype StoreTokenError = StoreTokenError(cause: SqlError)

  /** The `Display` text of `StoreTokenError`. */
  const StoreTokenErrorMessage: string :=
    "A database error was encountered while trying to store a subscription token."

  /** `ResponseError` is implemented with its defaults: status 500, the display text as a
      plain-text body. */
  function ErrorResponse(e: StoreTokenError): (r: Response)
    ensures r.status == StatusInternalServerError && r.location == None
    ensures r.body == StoreTokenErrorMessage
  {
    Response(StatusInternalServerError, None, Some(PlainTextContentType), StoreTokenErrorMessage)
  }

  /** The response actix sends for what `subscribe` returns. */
  function Rendered(r: Result<Response, StoreTokenError>): Response {
    match r
    case Ok(response) => response
    case Err(e) => ErrorResponse(e)
  }

  /** Which fallible step of one request fails. */
  datatype Faults = Faults(
    begin: bool,
    insertSubscriber: bool,
    storeToken: bool,
    commit: bool,
    sendEmail: bool)

  // ---------------------------------------------------------------------------------------------
  // Token generation

  const TokenLength: nat := 25

  /** What one `rng.sample(Alphanumeric)` can yield, after `char::from`. */
  type AlphanumericChar = c: char | IsAsciiAlphanumeric(c) witness 'a'

  /** The shape of a confirmation token: exactly 25 ASCII letters and digits. */
  predicate IsSubscriptionToken(t: string) {
    |t| == TokenLength && forall i :: 0 <= i < |t| ==> IsAsciiAlphanumeric(t[i])
  }

  /** The `n` characters a generator yields from its `from`-th draw on. */
  function Drawn(stream: nat -> AlphanumericChar, from: nat, n: nat): string {
    if n == 0 then [] else Drawn(stream, from, n - 1) + [stream(from + n - 1)]
  }

  /** `Drawn` yields `n` characters, the i-th being draw number `from + i`. */
  lemma {:induction false} DrawnAt(stream: nat -> AlphanumericChar, from: nat, n: nat)
    ensures |Drawn(stream, from, n)| == n
    ensures forall i :: 0 <= i < n ==> Drawn(stream, from, n)[i] == stream(from + i)
  {
    if n > 0 {
      DrawnAt(stream, from, n - 1);
    }
  }

  /** Any 25 consecutive draws make a well-formed token. */
  lemma DrawnIsToken(stream: nat -> AlphanumericChar, from: nat)
    ensures IsSubscriptionToken(Drawn(stream, from, TokenLength))
  {
    DrawnAt(stream, from, TokenLength);
  }

  /** The thread-local random generator behind `thread_rng()`, seen as the stream of characters
      its alphanumeric samples yield and the number of samples taken so far. */
  class ThreadRng {
    const stream: nat -> AlphanumericChar
    var drawn: nat

    constructor (stream: nat -> AlphanumericChar)
      ensures this.stream == stream && drawn == 0
    {
      this.stream := stream;
      drawn := 0;
    }

    /** `rng.sample(Alphanumeric)`. */
    method SampleAlphanumeric() returns (c: AlphanumericChar)
      modifies this
      ensures c == stream(old(drawn)) && drawn == old(drawn) + 1
    {
      c := stream(drawn);
      drawn := drawn + 1;
    }
  }

  /** `ganerate_subscription_token`: 25 samples, collected into a string. */
  method GenerateSubscriptionToken(rng: ThreadRng) returns (token: string)
    modifies rng
    ensures token == Drawn(rng.stream, old(rng.drawn), TokenLength)
    ensures rng.drawn == old(rng.drawn) + TokenLength
    ensures IsSubscriptionToken(token)
  {
    token := "";
    var i: nat := 0;
    while i < TokenLength
      invariant i <= TokenLength
      invariant rng.drawn == old(rng.drawn) + i
      invariant token == Drawn(rng.stream, old(rng.drawn), i)
    {
      var c := rng.SampleAlphanumeric();
      token := token + [c];
      i := i + 1;
    }
    DrawnIsToken(rng.stream, old(rng.drawn));
  }

  // ---------------------------------------------------------------------------------------------
  // Storage

  /** The committed `subscriptions` and `subscription_tokens` tables. */
  class Database {
    var subscriptions: map<Uuid, SubscriberRow>
    var subscriptionTokens: map<string, Uuid>

    /** No orphan token: every committed token names a committed subscriber. */
    ghost predicate Valid()
      reads this
    {
      forall t :: t in subscriptionTokens ==> subscriptionTokens[t] in subscriptions
    }

    constructor ()
      ensures Valid() && subscriptions == map[] && subscriptionTokens == map[]
    {
      subscriptions := map[];
      subscriptionTokens := map[];
    }
  }

  /** An open transaction on `db`: the rows it has written, which nobody else sees and which are
      lost when the transaction is dropped without a commit. */
  class Transaction {
    const db: Database
    var subscriptions: map<Uuid, SubscriberRow>
    var subscriptionTokens: map<string, Uuid>

    /** Written keys are new to the tables, and every written token names a subscriber that is
        committed or written by this transaction. */
    ghost predicate Valid()
      reads this, db
    {
      && subscriptions.Keys !! db.subscriptions.Keys
      && subscriptionTokens.Keys !! db.subscriptionTokens.Keys
      && forall t :: t in subscriptionTokens ==>
           subscriptionTokens[t] in db.subscriptions || subscriptionTokens[t] in subscriptions
    }

    /** `pool.begin()`, when it succeeds. */
    constructor Begin(db: Database)
      ensures this.db == db && Valid()
      ensures subscriptions == map[] && subscriptionTokens == map[]
    {
      this.db := db;
      subscriptions := map[];
      subscriptionTokens := map[];
    }

    /** `insert_subscriber`: writes a `pending_confirmation` row under the id `Uuid::new_v4`
        returned (`newId`), stamped with `now`. */
    method InsertSubscriber(subscriber: NewSubscriber, newId: Uuid, now: Timestamp, fail: bool)
      returns (r: Result<Uuid, SqlError>)
      requires Valid()
      modifies this
      ensures Valid()
      ensures r.Ok? <==> !fail && newId !in db.subscriptions && newId !in old(subscriptions)
      ensures r.Ok? ==> r.value == newId
      ensures r.Ok? ==> subscriptions == old(subscriptions)[newId :=
        SubscriberRow(subscriber.email, subscriber.name, now, PendingConfirmation)]
      ensures r.Err? ==> subscriptions == old(subscriptions)
      ensures subscriptionTokens == old(subscriptionTokens)
    {
      if fail {
        return Err(DatabaseFault);
      }
      if newId in db.subscriptions || newId in subscriptions {
        return Err(DuplicateKey);
      }
      subscriptions := subscriptions[newId :=
        SubscriberRow(subscriber.email, subscriber.name, now, PendingConfirmation)];
      r := Ok(newId);
    }

    /** `store_subscription_token`: writes the row linking `token` to `subscriberId`. */
    method StoreSubscriptionToken(subscriberId: Uuid, token: string, fail: bool)
      returns (r: Result<(), StoreTokenError>)
      requires Valid() && subscriberId in subscriptions
      modifies this
      ensures Valid()
      ensures r.Ok? <==> !fail && token !in db.subscriptionTokens && token !in old(subscriptionTokens)
      ensures r.Ok? ==> subscriptionTokens == old(subscriptionTokens)[token := subscriberId]
      ensures r.Err? ==> subscriptionTokens == old(subscriptionTokens)
      ensures subscriptions == old(subscriptions)
    {
      if fail {
        return Err(StoreTokenError(DatabaseFault));
      }
      if token in db.subscriptionTokens || token in subscriptionTokens {
        return Err(StoreTokenError(DuplicateKey));
      }
      subscriptionTokens := subscriptionTokens[token := subscriberId];
      r := Ok(());
    }

    /** `transaction.commit()`: on success the written rows join the tables; on failure the
        tables are as they were. */
    method Commit(fail: bool) returns (ok: bool)
      requires Valid() && db.Valid()
      modifies db
      ensures db.Valid()
      ensures ok == !fail
      ensures ok ==> db.subscriptions == old(db.subscriptions) + subscriptions
      ensures ok ==> db.subscriptionTokens == old(db.subscriptionTokens) + subscriptionTokens
      ensures !ok ==> unchanged(db)
    {
      if fail {
        return false;
      }
      db.subscriptions := db.subscriptions + subscriptions;
      db.subscriptionTokens := db.subscriptionTokens + subscriptionTokens;
      ok := true;
    }
  }

  // ---------------------------------------------------------------------------------------------
  // The confirmation email

  datatype Email = Email(recipient: string, subject: string, htmlBody: string, textBody: string)

  /** The email client, as the list of emails handed to it, in order. */
  class EmailClient {
    var sent: seq<Email>

    constructor ()
      ensures sent == []
    {
      sent := [];
    }

    /** `send_email`: the request goes out; `fail` says whether it is answered with an error. */
    method SendEmail(recipient: string, subject: string, htmlBody: string, textBody: string, fail: bool)
      returns (ok: bool)
      modifies this
      ensures sent == old(sent) + [Email(recipient, subject, htmlBody, textBody)]
      ensures ok == !fail
    {
      sent := sent + [Email(recipient, subject, htmlBody, textBody)];
      ok := !fail;
    }
  }

  const ConfirmPath: string := "/subscriptions/confirm?subscription_token="
  const HtmlBefore: string := "Welcome to our newsletter!<br />Click <a href=\""
  const HtmlAfter: string := "\">here</a> to confirm your subscription."
  const TextBefore: string := "Welcome to our newsletter!\nVisit "
  const TextAfter: string := " to confirm your subscription."
  const ConfirmationSubject: string := "Welcome!"

  function ConfirmationLink(baseUrl: string, token: string): string {
    baseUrl + ConfirmPath + token
  }

  function ConfirmationEmail(subscriber: NewSubscriber, baseUrl: string, token: string): Email {
    var link := ConfirmationLink(baseUrl, token);
    Email(subscriber.email, ConfirmationSubject, HtmlBefore + link + HtmlAfter, TextBefore + link + TextAfter)
  }

  /** The text around the link never contains '?', which the link always does. */
  lemma TemplatesLackQuestionMark()
    ensures '?' !in HtmlBefore && '?' !in HtmlAfter && '?' !in TextBefore && '?' !in TextAfter
  {
    var greeting, anchor := "Welcome to our newsletter!", "<br />Click <a href=\"";
    assert '?' !in greeting && '?' !in anchor;
    assert HtmlBefore == greeting + anchor;
  }

  /** The confirmation email goes to the subscriber, is titled "Welcome!", and each of its two
      bodies carries the confirmation link exactly once; the link is the base URL, the confirm
      path and the token, which ends it. */
  lemma ConfirmationEmailCarriesLink(subscriber: NewSubscriber, baseUrl: string, token: string)
    ensures var e := ConfirmationEmail(subscriber, baseUrl, token);
      var link := ConfirmationLink(baseUrl, token);
      && e.recipient == subscriber.email
      && e.subject == "Welcome!"
      && link[..|baseUrl|] == baseUrl
      && link[|baseUrl|..|link| - |token|] == "/subscriptions/confirm?subscription_token="
      && link[|link| - |token|..] == token
      && OccursExactlyOnce(e.htmlBody, link)
      && OccursExactlyOnce(e.textBody, link)
  {
    var link := ConfirmationLink(baseUrl, token);
    assert ConfirmPath[22] == '?';
    assert '?' in link by { assert link[|baseUrl| + 22] == '?'; }
    TemplatesLackQuestionMark();
    SplicedOccursOnce(HtmlBefore, link, HtmlAfter, '?');
    SplicedOccursOnce(TextBefore, link, TextAfter, '?');
  }

  /** `send_confirmation_email`. */
  method SendConfirmationEmail(
    emailClient: EmailClient, subscriber: NewSubscriber, baseUrl: string, token: string, fail: bool)
    returns (ok: bool)
    modifies emailClient
    ensures emailClient.sent == old(emailClient.sent) + [ConfirmationEmail(subscriber, baseUrl, token)]
    ensures ok == !fail
  {
    var email := ConfirmationEmail(subscriber, baseUrl, token);
    ok := emailClient.SendEmail(email.recipient, email.subject, email.htmlBody, email.textBody, fail);
  }

  // ---------------------------------------------------------------------------------------------
  // The handler

  /** `subscribe`. `parse` is the domain's conversion of the form into a `NewSubscriber`, `newId`
      the value `Uuid::new_v4` yields, `now` the value of `Utc::now`. */
  method Subscribe(
    form: FormData, parse: FormData -> Option<NewSubscriber>,
    db: Database, emailClient: EmailClient, rng: ThreadRng,
    baseUrl: string, newId: Uuid, now: Timestamp, faults: Faults)
    returns (r: Result<Response, StoreTokenError>)
    requires db.Valid()
    modifies db, emailClient, rng
    ensures db.Valid()
    // validation failure: 400, nothing drawn, written or sent
    ensures parse(form).None? ==>
      r == Ok(Finish(StatusBadRequest)) && unchanged(db, emailClient, rng)
    // no transaction, or the subscriber insert fails: 500, nothing drawn, written or sent
    ensures parse(form).Some? && (faults.begin || faults.insertSubscriber || newId in old(db.subscriptions)) ==>
      r == Ok(Finish(StatusInternalServerError)) && unchanged(db, emailClient, rng)
    ensures var token := Drawn(rng.stream, old(rng.drawn), TokenLength);
      var inserted := parse(form).Some? && !faults.begin && !faults.insertSubscriber
        && newId !in old(db.subscriptions);
      var stored := inserted && !faults.storeToken && token !in old(db.subscriptionTokens);
      var committed := stored && !faults.commit;
      // the token is drawn once the subscriber row is written
      && (inserted ==> rng.drawn == old(rng.drawn) + TokenLength && IsSubscriptionToken(token))
      // the token insert fails: the error propagates, the dropped transaction persists nothing
      && (r.Err? <==> inserted && !stored)
      // anything short of a commit leaves the tables and the outbox as they were
      && (!committed ==> unchanged(db, emailClient))
      && (inserted && !committed ==> Rendered(r).status == StatusInternalServerError)
      // after the commit: one new subscriber, one token linked to it, one email with the link
      && (committed ==>
            && db.subscriptions == old(db.subscriptions)[newId :=
                 SubscriberRow(parse(form).value.email, parse(form).value.name, now, PendingConfirmation)]
            && db.subscriptionTokens == old(db.subscriptionTokens)[token := newId]
            && emailClient.sent == old(emailClient.sent) + [ConfirmationEmail(parse(form).value, baseUrl, token)])
      // 200 exactly when everything, the email included, succeeded; the email failing is a 500
      // that keeps the rows
      && (Rendered(r).status == StatusOk <==> committed && !faults.sendEmail)
      && (committed && faults.sendEmail ==> r == Ok(Finish(StatusInternalServerError)))
      && (committed && !faults.sendEmail ==> r == Ok(Finish(StatusOk)))
  {
    var parsed := parse(form);
    if parsed.None? {
      return Ok(Finish(StatusBadRequest));
    }
    var newSubscriber := parsed.value;

    if faults.begin {
      return Ok(Finish(StatusInternalServerError));
    }
    var transaction := new Transaction.Begin(db);

    var inserted := transaction.InsertSubscriber(newSubscriber, newId, now, faults.insertSubscriber);
    if inserted.Err? {
      return Ok(Finish(StatusInternalServerError));
    }
    var subscriberId := inserted.value;

    var subscriptionToken := GenerateSubscriptionToken(rng);
    var stored := transaction.StoreSubscriptionToken(subscriberId, subscriptionToken, faults.storeToken);
    if stored.Err? {
      return Err(stored.error);
    }

    var committed := transaction.Commit(faults.commit);
    if !committed {
      return Ok(Finish(StatusInternalServerError));
    }

    var sent := SendConfirmationEmail(emailClient, newSubscriber, baseUrl, subscriptionToken, faults.sendEmail);
    if !sent {
      return Ok(Finish(StatusInternalServerError));
    }
    return Ok(Finish(StatusOk));
  }
}
