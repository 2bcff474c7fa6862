/** `GET /login` (`login_form`) and the verification of its signed query parameters
    (`QueryParams::verify`). The page shows the `error` parameter only when the `tag` parameter
    is the hex text of the HMAC of `"error=" + percent-encoded error` under the server's secret;
    otherwise it renders as if there were no parameters at all.

    HMAC-SHA256, percent-encoding (section 2.1 of RFC 3986, as `urlencoding::Encoded` does it)
    and `htmlescape::encode_minimal` are foreign code and are parameters here. */
module LoginGet {
  import opened Wrappers
  import opened Text
  import opened Http
  import Hex

  /** The `error` and `tag` query parameters of `GET /login`. */
  datatype QueryParams = QueryParams(error: string, tag: string)

  /** The server's HMAC secret, whose bytes are the key. */
  type HmacSecret = string

  /** The foreign functions `verify` relies on: `mac(key, s)` is the HMAC-SHA256 tag of the
      bytes of `s` under the bytes of `key`; `percentEncode` is `urlencoding::Encoded`. */
  datatype Primitives = Primitives(
    mac: (HmacSecret, string) -> seq<Hex.byte>,
    percentEncode: string -> string)

  /** Why verification failed; the handler only logs it. */
  datatype VerifyError = TagNotHex(cause: Hex.FromHexError) | MacMismatch

  /** The canonical text the tag authenticates. */
  function QueryString(error: string, p: Primitives): (s: string)
    ensures |s| == 6 + |p.percentEncode(error)|
    ensures s[..6] == "error=" && s[6..] == p.percentEncode(error)
  {
    "error=" + p.percentEncode(error)
  }

  /** `QueryParams::verify`: hex-decode the tag, recompute the MAC over the canonical text and
      compare. */
  function Verify(query: QueryParams, secret: HmacSecret, p: Primitives): (r: Result<string, VerifyError>)
    ensures r.Ok? <==> Hex.Decode(query.tag) == Ok(p.mac(secret, QueryString(query.error, p)))
    ensures r.Ok? ==> r.value == query.error
    ensures Hex.Decode(query.tag).Err? ==> r == Err(TagNotHex(Hex.Decode(query.tag).error))
  {
    match Hex.Decode(query.tag)
    case Err(e) => Err(TagNotHex(e))
    case Ok(tag) =>
      if tag == p.mac(secret, QueryString(query.error, p)) then Ok(query.error) else Err(MacMismatch)
  }

  /** The tag a server holding `secret` attaches to `error`: the lower-case hex text of the MAC
      over the canonical text. (The handler that signs is not part of this model; this is the
      counterpart `verify` is written against.) */
  function Tag(error: string, secret: HmacSecret, p: Primitives): string {
    Hex.Encode(p.mac(secret, QueryString(error, p)))
  }

  /** Round trip: a genuine tag verifies and yields its error text unchanged. */
  lemma GenuineTagVerifies(error: string, secret: HmacSecret, p: Primitives)
    ensures Verify(QueryParams(error, Tag(error, secret, p)), secret, p) == Ok(error)
  {
    Hex.DecodeEncode(p.mac(secret, QueryString(error, p)));
  }

  /** A genuine tag authenticates only the error text it was made for, unless the two texts'
      canonical forms differ and collide under the MAC: forging a tag for another text means
      finding an HMAC collision. Percent-encoding is taken to be injective. */
  lemma GenuineTagBindsError(error: string, other: string, secret: HmacSecret, p: Primitives)
    requires forall a, b :: p.percentEncode(a) == p.percentEncode(b) ==> a == b
    requires Verify(QueryParams(other, Tag(error, secret, p)), secret, p).Ok?
    ensures other == error
      || (QueryString(other, p) != QueryString(error, p)
          && p.mac(secret, QueryString(other, p)) == p.mac(secret, QueryString(error, p)))
  {
    Hex.DecodeEncode(p.mac(secret, QueryString(error, p)));
    if QueryString(other, p) == QueryString(error, p) {
      assert p.percentEncode(other) == QueryString(other, p)[6..];
      assert p.percentEncode(error) == QueryString(error, p)[6..];
    }
  }

  /** A tag that is not hex text fails whatever the MAC would say: no MAC is consulted. */
  lemma NonHexTagFailsBeforeMac(query: QueryParams, secret: HmacSecret, p: Primitives, q: Primitives)
    requires Hex.Decode(query.tag).Err?
    ensures Verify(query, secret, p).Err? && Verify(query, secret, p) == Verify(query, secret, q)
  {
  }

  /** The MAC is asked about one text only, the canonical one: two sets of primitives that agree
      on it give the same verdict. */
  lemma VerifyDependsOnlyOnCanonicalMac(query: QueryParams, secret: HmacSecret, p: Primitives, q: Primitives)
    requires p.percentEncode(query.error) == q.percentEncode(query.error)
    requires p.mac(secret, QueryString(query.error, p)) == q.mac(secret, QueryString(query.error, q))
    ensures Verify(query, secret, p) == Verify(query, secret, q)
  {
  }

  /** Upper-casing one letter of a genuine tag, a one-bit change of its text, still verifies:
      `hex::decode` accepts either case. */
  lemma UppercasedTagStillVerifies(error: string, secret: HmacSecret, p: Primitives, i: nat)
    requires i < |Tag(error, secret, p)| && 'a' <= Tag(error, secret, p)[i] <= 'f'
    ensures var tag := Tag(error, secret, p);
      Verify(QueryParams(error, tag[i := (tag[i] as int - 32) as char]), secret, p) == Ok(error)
  {
    var tag := Tag(error, secret, p);
    var upper := (tag[i] as int - 32) as char;
    Hex.DecodeSameDigit(tag, i, upper);
    GenuineTagVerifies(error, secret, p);
  }

  // ---------------------------------------------------------------------------------------------
  // The page

  /** The page up to the place of the error fragment. */
  const PageHead: string := @"<!DOCTYPE html>
                <html lang=""en"">
                <head>
                    <meta http-equiv=""content-type"" content=""text/html; charset=utf-8"">
                    <title>Login</title>
                </head>
                <body>
                    "

  const FormOpen: string := "<form action=\"/login\" method=\"post\">"
  const UsernameField: string := "name=\"username\""
  const PasswordField: string := "name=\"password\""

  /** The page after the error fragment: the login form, posting `username` and `password` to
      `/login`. */
  const FormLead: string := @"
                    "
  const UsernameLabel: string := @"
                        <label>Username
                            <input
                                type=""text""
                                placeholder=""Enter Username""
                                "
  const PasswordLabel: string := @"
                            >
                        </label>
                        <label>Password
                            <input
                                type=""password""
                                placeholder=""Enter Password""
                                "
  const PageEnd: string := @"
                            >
                        </label>
                        <button type=""submit"">Login</button>
                    </form>
                </body>
                </html>"
  const PageTail: string :=
    FormLead + FormOpen + UsernameLabel + UsernameField + PasswordLabel + PasswordField + PageEnd

  function LoginPage(errorHtml: string): string {
    PageHead + errorHtml + PageTail
  }

  /** `error_html`: the escaped error inside `<p><i>…</i></p>` when the parameters verify, the
      empty string when there are none or they do not verify. */
  function ErrorHtml(query: Option<QueryParams>, secret: HmacSecret, p: Primitives, htmlEscape: string -> string)
    : (html: string)
    ensures query.None? ==> html == ""
    ensures query.Some? && Verify(query.value, secret, p).Err? ==> html == ""
    ensures query.Some? && Verify(query.value, secret, p).Ok? ==>
      html == "<p><i>" + htmlEscape(query.value.error) + "</i></p>"
  {
    match query
    case None => ""
    case Some(q) =>
      match Verify(q, secret, p)
      case Ok(error) => "<p><i>" + htmlEscape(error) + "</i></p>"
      case Err(_) => ""
  }

  /** `login_form`. */
  function LoginForm(query: Option<QueryParams>, secret: HmacSecret, p: Primitives, htmlEscape: string -> string)
    : (r: Response)
    ensures r.status == StatusOk && r.location == None && r.contentType == Some(HtmlContentType)
    ensures r.body == LoginPage(ErrorHtml(query, secret, p, htmlEscape))
  {
    HtmlPage(LoginPage(ErrorHtml(query, secret, p, htmlEscape)))
  }

  /** Fails closed: parameters that do not verify give exactly the page without parameters. */
  lemma UnverifiedQueryIsIgnored(query: QueryParams, secret: HmacSecret, p: Primitives, htmlEscape: string -> string)
    requires Verify(query, secret, p).Err?
    ensures LoginForm(Some(query), secret, p, htmlEscape) == LoginForm(None, secret, p, htmlEscape)
    ensures LoginForm(None, secret, p, htmlEscape).body == LoginPage("")
  {
  }

  /** Query text reaches the page only through a verified error: whenever the page differs from
      the page without parameters, the parameters verified and the page carries the escaped
      error in the fragment. */
  lemma QueryReachesPageOnlyWhenVerified(
    query: QueryParams, secret: HmacSecret, p: Primitives, htmlEscape: string -> string)
    requires LoginForm(Some(query), secret, p, htmlEscape) != LoginForm(None, secret, p, htmlEscape)
    ensures Verify(query, secret, p) == Ok(query.error)
    ensures LoginForm(Some(query), secret, p, htmlEscape).body
      == LoginPage("<p><i>" + htmlEscape(query.error) + "</i></p>")
  {
    if Verify(query, secret, p).Err? {
      UnverifiedQueryIsIgnored(query, secret, p, htmlEscape);
    }
  }

  /** The part of the page after the fragment holds the form posting to `/login` and its
      `username` and `password` fields. */
  lemma PageTailHasForm()
    ensures Contains(PageTail, FormOpen)
    ensures Contains(PageTail, UsernameField)
    ensures Contains(PageTail, PasswordField)
  {
    ThreeFieldsOccur(FormLead, FormOpen, UsernameLabel, UsernameField, PasswordLabel, PasswordField, PageEnd);
  }

  /** Whatever the fragment, the page is the fixed head, the fragment, and the fixed tail that
      holds the form posting `username` and `password` to `/login`. */
  lemma LoginPageHasForm(errorHtml: string)
    ensures var page := LoginPage(errorHtml);
      var at := |PageHead| + |errorHtml|;
      && page[..|PageHead|] == PageHead
      && page[|PageHead|..at] == errorHtml
      && Contains(page[at..], FormOpen)
      && Contains(page[at..], UsernameField)
      && Contains(page[at..], PasswordField)
  {
    var page := LoginPage(errorHtml);
    assert page[|PageHead| + |errorHtml|..] == PageTail;
    PageTailHasForm();
  }
}
