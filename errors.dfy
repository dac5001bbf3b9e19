/**
 * The server's error taxonomy (`HttpError`), its conversion from I/O errors,
 * the error response written to the client, and the I/O error `handle_client`
 * returns to its caller.
 */
module Errors {
  import opened Wrappers
  import opened Utf8
  import Io

  /** A failure while handling one request, with the text sent as the response body. */
  datatype HttpError =
    | BadRequest(message: string)
    | NotFound(message: string)
    | InternalServerError(message: string)

  /** `impl From<io::Error> for HttpError`: every I/O error is the client's fault. */
  function FromIoError(e: Io.IoError): (h: HttpError)
    ensures h.BadRequest? && h.message == e.message
  {
    BadRequest(e.message)
  }

  /** The status line of the error response, one per variant. */
  function StatusLine(e: HttpError): (line: string)
    ensures "HTTP/1.1 " <= line
    ensures '\r' !in line && '\n' !in line
    ensures forall i :: 0 <= i < |line| ==> IsAscii(line[i])
  {
    match e
    case BadRequest(_) => "HTTP/1.1 400 Bad Request"
    case NotFound(_) => "HTTP/1.1 404 Not Found"
    case InternalServerError(_) => "HTTP/1.1 500 Internal Server Error"
  }

  /** The status line and the response head are told apart by the blank line `\r\n\r\n`. */
  const HeadEnd: string := "\r\n\r\n"

  /** The bytes `send_error_response` writes: `{status_line}\r\n\r\n{message}`. */
  function ErrorResponse(e: HttpError): (bytes: seq<byte>)
    ensures bytes == Encode(StatusLine(e)) + Encode(HeadEnd) + Encode(e.message)
  {
    EncodeConcat(StatusLine(e), HeadEnd);
    EncodeConcat(StatusLine(e) + HeadEnd, e.message);
    Encode(StatusLine(e) + HeadEnd + e.message)
  }

  /** The message prefixes `handle_client` puts in front of the error's text, one per variant. */
  const NotFoundPrefix: string := "Not Found: "
  const BadRequestPrefix: string := "Bad Request: "
  const InternalErrorPrefix: string := "Internal Server Error: "

  function Prefix(e: HttpError): string {
    match e
    case BadRequest(_) => BadRequestPrefix
    case NotFound(_) => NotFoundPrefix
    case InternalServerError(_) => InternalErrorPrefix
  }

  /** The `io::Error` that `handle_client` returns for a failed request. */
  function IntoIoError(e: HttpError): (io: Io.IoError)
    ensures e.NotFound? <==> io.kind == Io.NotFound
    ensures e.BadRequest? <==> io.kind == Io.InvalidData
    ensures e.InternalServerError? <==> io.kind == Io.Other
    ensures io.message == Prefix(e) + e.message
  {
    match e
    case NotFound(_) => Io.IoError(Io.NotFound, Prefix(e) + e.message)
    case BadRequest(_) => Io.IoError(Io.InvalidData, Prefix(e) + e.message)
    case InternalServerError(_) => Io.IoError(Io.Other, Prefix(e) + e.message)
  }

  /** The rest of `s` after `prefix`, if `s` starts with it. */
  function StripPrefix(prefix: string, s: string): Option<string> {
    if prefix <= s then Some(s[|prefix|..]) else None
  }

  /** Reads back the `HttpError` an `io::Error` returned by `handle_client` stands for. */
  function Recover(io: Io.IoError): Option<HttpError> {
    match io.kind
    case NotFound =>
      (match StripPrefix(NotFoundPrefix, io.message) case Some(m) => Some(NotFound(m)) case None => None)
    case InvalidData =>
      (match StripPrefix(BadRequestPrefix, io.message) case Some(m) => Some(BadRequest(m)) case None => None)
    case Other =>
      (match StripPrefix(InternalErrorPrefix, io.message) case Some(m) => Some(InternalServerError(m)) case None => None)
    case _ => None
  }

  /** The caller of `handle_client` loses nothing: variant and text come back from the `io::Error`. */
  lemma IntoIoErrorLossless(e: HttpError)
    ensures Recover(IntoIoError(e)) == Some(e)
  {
    var io := IntoIoError(e);
    assert io.message[|Prefix(e)|..] == e.message;
  }
}
