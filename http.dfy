/** The part of an actix-web `HttpResponse` the handlers decide: status, `Location`, content type
    and body. */
module Http {
  import opened Wrappers

  const StatusOk: nat := 200
  const StatusSeeOther: nat := 303
  const StatusBadRequest: nat := 400
  const StatusInternalServerError: nat := 500

  /** `ContentType::html()`. */
  const HtmlContentType: string := "text/html; charset=utf-8"

  /** `ContentType::plaintext()`, which actix puts on the responses it builds from errors. */
  const PlainTextContentType: string := "text/plain; charset=utf-8"

  datatype Response = Response(
    status: nat,
    location: Option<string>,
    contentType: Option<string>,
    body: string)

  /** `HttpResponse::build(status).finish()`: no headers, empty body. */
  function Finish(status: nat): Response {
    Response(status, None, None, "")
  }

  /** `HttpResponse::SeeOther().insert_header((LOCATION, location)).finish()`. */
  function SeeOther(location: string): Response {
    Response(StatusSeeOther, Some(location), None, "")
  }

  /** `HttpResponse::Ok().content_type(ContentType::html()).body(body)`. */
  function HtmlPage(body: string): Response {
    Response(StatusOk, None, Some(HtmlContentType), body)
  }
}
