# A static-file HTTP server, per connection

This project models the request pipeline of a small HTTP/1.1 static-file
server. Each accepted TCP connection goes through the same steps:

1. `parse_header` reads one request line and splits it on whitespace into a
   method, a path and a protocol.
2. `parse_path` turns the path into a file under the document root. A path
   containing `..` is refused. `/` names `index.html`.
3. `process_request` reads that file and writes `HTTP/1.1 200 OK\r\n\r\n`,
   then the file's bytes, then flushes.
4. `handle_client` answers any failure with one error response
   (`HTTP/1.1 400 Bad Request`, `404 Not Found` or `500 Internal Server Error`,
   a blank line, then the error's text). It then returns the failure to its
   caller as an `io::Error`.

The model is split by concern:

- `Utf8`: bytes, and the UTF-8 encoding that `as_bytes` exposes.
- `Io`: I/O errors and a filesystem given as a map from paths to contents or
  read errors.
- `Stream`: the connection, a class whose mutable state is what the server
  has sent so far. Each connection carries what the client sends, whether
  its one read of the request line fails (and with what error), and which
  writes and flushes fail, by call number.
- `Errors`: `HttpError` and its conversions, and the error response bytes.
- `RequestLine`: Rust's `split_whitespace` (Unicode `White_Space`) and the
  pure part of `parse_header`.
- `Server`: the server itself. Each step above is a pure transition
  (`Process`, `SendError`, `Handle`) and a method. Each method is proved to
  leave the connection exactly as its transition says.
- `Client`: a reader of response bytes (status code and body after the
  first blank line). It is the independent reference the round-trip lemmas
  read responses back with.
- `Properties`: what a client observes for every outcome.
- `Scenarios`: the four integration tests, stated on the model.

Two behaviours of the code that are easy to miss:

- `parse_path` tests for `..` before it tests for `/`. No path behaves
  differently for it, since `/` holds no `..`.
- When the body write fails after the 200 head has gone out,
  `handle_client` still sends an error response on the same connection,
  right after the 200 head (`Properties.BodyWriteFailureSendsSecondResponse`).

## Model

| member | source | states |
|---|---|---|
| Errors.FromIoError | src/lib.rs:16-20 | every I/O error becomes a BadRequest carrying the error's text unchanged |
| Server.Server.New | src/lib.rs:28-33 | the server keeps the bind address and document root exactly as given |
| Server.Server.ParsePath | src/lib.rs:54-64 | refused (with "Invalid path") if and only if the path contains `..`; `/` maps to root/index.html; any other path maps to root/ followed by the path without its first character; every accepted file lies under root/ with no `..` after that prefix |
| Server.DotDotInTail | src/lib.rs:55-63 | dropping the first character of a path cannot introduce a `..`, so the `..` check on the whole path covers the part kept |
| Errors.StatusLine | src/lib.rs:67-71 | each variant's status line starts with `HTTP/1.1 `, is ASCII and holds no CR or LF, so the response head ends at the blank line |
| Properties.StatusLineCode | src/lib.rs:67-71 | the status line of BadRequest, NotFound and InternalServerError carries 400, 404 and 500 where a client reads the code |
| Errors.ErrorResponse | src/lib.rs:73 | the error response is the UTF-8 of the status line, then of `\r\n\r\n`, then of the message, concatenated |
| Utf8.EncodeConcat | src/lib.rs:73-75 | the bytes of a formatted string are the concatenation of the bytes of its parts |
| Properties.HeadEndIsBlank | src/lib.rs:73 | the `\r\n\r\n` the server writes is exactly the blank-line bytes a client looks for |
| Properties.ErrorResponseRoundTrip | src/lib.rs:66-73 | a client reads every error response back as the variant's status code with the error's text as body |
| Server.Server.SendError | src/lib.rs:66-89 | exactly one write is attempted; a failed write sends nothing, skips the flush and returns that write's own error; a successful write sends the whole error response and is followed by one flush, and the result is Ok exactly when that flush succeeds, otherwise Other "Internal Server Error (flush failed)" |
| Server.Server.SendErrorResponse | src/lib.rs:66-89 | leaves the connection and returns exactly as `SendError` describes: a failed write returns its error, a failed flush returns Other "Internal Server Error (flush failed)" |
| Errors.IntoIoError | src/lib.rs:98-111 | NotFound, BadRequest and InternalServerError map to kinds NotFound, InvalidData and Other (each an if-and-only-if), with message "Not Found: ", "Bad Request: " or "Internal Server Error: " followed by the error's text |
| Errors.IntoIoErrorLossless | src/lib.rs:98-111 | the variant and the text can always be recovered from the returned `io::Error` |
| Server.Server.Handle | src/lib.rs:91-114 | `handle_client` succeeds if and only if `process_request` does |
| Properties.AtMostOneErrorResponse | src/lib.rs:91-114 | on success nothing more is written; on failure the converted `HttpError` is returned, and the one error-response write that follows `process_request` sends nothing when that write is scripted to fail and otherwise sends the whole error response followed by one flush |
| Server.Server.HandleClient | src/lib.rs:91-114 | leaves the connection and returns exactly as `Handle` describes |
| Stream.FirstLine | src/lib.rs:117-121 | `read_line` returns a prefix of the input with no newline before its last character, ending in a newline unless it is all of the input |
| Stream.FirstLineStopsAtNewline | src/lib.rs:117-121 | a line followed by a newline is read up to and including that newline, whatever follows |
| Stream.LineRead | src/lib.rs:119-121 | the read fails exactly when the connection's read fails; otherwise it returns a prefix of what the client sent |
| Stream.TcpStream.ReadLine | src/lib.rs:117-121 | returns what `LineRead` describes, without changing what has been sent |
| RequestLine.SplitWhitespace | src/lib.rs:122 | every token is non-empty and free of whitespace |
| RequestLine.SplitSkipsWhitespace | src/lib.rs:122 | leading whitespace does not change the tokens |
| RequestLine.SplitToken | src/lib.rs:122 | a token followed by whitespace or the end is split off whole, ahead of the rest |
| RequestLine.SplitRequestLine | src/lib.rs:122-126 | `method path protocol\r\n` splits into exactly those three tokens |
| RequestLine.ParseRequestLine | src/lib.rs:116-128 | a read error becomes BadRequest with its text; otherwise the result is Ok exactly when the line has three tokens, and they are returned in order; any other count is BadRequest "Invalid request" |
| Server.Server.ParseHeader | src/lib.rs:116-129 | reads the connection's line and returns exactly what `ParseRequestLine` gives for it |
| Properties.RequestLineRoundTrip | src/lib.rs:116-128 | a client's request line of three tokens is read back as those tokens, whatever it sends after the line |
| Properties.WrongTokenCountRejected | src/lib.rs:122-128 | a line that does not split into three tokens is answered with the 400 "Invalid request" response, and InvalidData "Bad Request: Invalid request" is returned |
| Properties.ReadFailureRejected | src/lib.rs:119-121 | a failed read is answered with a 400 response carrying the read error's text |
| Io.Read | src/lib.rs:137 | `fs::read` succeeds exactly for a readable file and returns its bytes; a missing path fails with kind NotFound; an unreadable file fails with its own error |
| Server.FetchError | src/lib.rs:137-143 | a read error maps to NotFound "Page Not Found" if and only if its kind is NotFound; otherwise to InternalServerError with the error's text |
| Server.Server.Respond | src/lib.rs:145-158 | for every fault script: after a failed fetch nothing is written or counted; a failed header write sends nothing, counts one write and gives BadRequest with the write error's text; a failed body write leaves only the 200 head sent, counts two writes and no flush, and gives BadRequest with that error's text; once both writes succeed the 200 head and the whole file are sent, two writes and one flush are counted, and a failed flush gives InternalServerError with its text; the result is Ok exactly when none of the three fails |
| Server.Server.Fetch | src/lib.rs:131-143 | fails exactly when the line read, the three-token check, `parse_path` or `fs::read` fails, with the matching error: the read error's text, "Invalid request", "Invalid path" (whatever the filesystem holds), or the mapped read error; otherwise it yields the file's bytes |
| Server.Server.Process | src/lib.rs:131-159 | a failed fetch writes nothing and returns its error; success holds exactly when the fetch, both writes and the flush succeed, and then the 200 head and the whole file were sent |
| Server.DotDotIsSubstring | src/lib.rs:55 | the `..` test holds exactly when some suffix of the path starts with `..`, i.e. `contains("..")` |
| RequestLine.AsciiWhitespace | src/lib.rs:122 | among ASCII characters, `char::is_whitespace` holds exactly for tab, line feed, vertical tab, form feed, carriage return and space |
| Utf8.Encode | src/lib.rs:75 | `as_bytes` yields at least one byte per character |
| Utf8.EncodeAscii | src/lib.rs:145-148 | an ASCII string's bytes are its code points, one per character |
| Utf8.EncodeNoCR | src/lib.rs:73-75 | a string with no carriage return encodes to bytes with no CR byte, so the encoded status line cannot hold the blank line that ends the head |
| Stream.AfterWrite | src/lib.rs:147-152 | `write_all` either sends all of the data and succeeds, or sends nothing and fails with the scripted error; one more write is counted |
| Stream.TcpStream.WriteAll | src/lib.rs:147-152 | changes the connection and returns exactly as `AfterWrite` describes |
| Stream.AfterFlush | src/lib.rs:154-156 | `flush` sends nothing more and fails exactly when scripted to |
| Stream.TcpStream.Flush | src/lib.rs:154-156 | changes the connection and returns exactly as `AfterFlush` describes |
| Server.Server.ProcessRequest | src/lib.rs:131-159 | changes the connection and returns exactly as `Process` describes: parse, resolve, read, then 200 head, body, flush |
| Properties.OkHeaderFramed | src/lib.rs:145 | the success head is the 200 status line followed by the blank line |
| Properties.OkStatusLineShape | src/lib.rs:145 | the success status line is ASCII, has no CR, and spells `HTTP/1.1 200` |
| Properties.OkStatusCode | src/lib.rs:145 | a client reads 200 from the success status line |
| Properties.OkResponseRoundTrip | src/lib.rs:145-152 | a client reads a success response back as 200 with exactly the file's bytes as body |
| Properties.ExistingFileServed | src/lib.rs:137-158 | on a reliable connection a readable file is served whole: the 200 head then its bytes, two writes and one flush, read back as 200 with those bytes |
| Properties.MissingFileNotFound | src/lib.rs:137-143 | a missing file is answered with the 404 response, which a client reads back as 404 with body "Page Not Found", and NotFound "Not Found: Page Not Found" is returned |
| Properties.UnreadableFileInternalError | src/lib.rs:137-143 | an unreadable file is answered 500 with the read error's text, and Other "Internal Server Error: " plus that text is returned |
| Properties.TraversalRejected | src/lib.rs:132-135 | a path containing `..` fails with BadRequest "Invalid path" before anything is written; the outcome does not depend on the filesystem; InvalidData "Bad Request: Invalid path" is returned |
| Properties.EarlyErrorSendsOnlyErrorResponse | src/lib.rs:131-143 | an error found before anything is written leaves only the error response on the wire whenever that response's write succeeds, whether or not its flush does |
| Properties.RootServesIndex | src/lib.rs:59-63 | requests for `/` and `/index.html` get identical bytes and outcomes |
| Properties.SameFetchSameOutcome | src/lib.rs:131-159 | once the file and its contents are decided, the request line plays no further part |
| Properties.BodyWriteFailureSendsSecondResponse | src/lib.rs:150-152 | when the body write fails after the 200 head, the client receives the 200 head followed by a 400 response carrying the write error's text |
| Properties.FlushFailureAfterBody | src/lib.rs:154-156 | a failed flush after the body makes the request InternalServerError with the flush error's text, and a 500 response follows the body |
| Properties.ProcessSendsPrefixOfSuccess | src/lib.rs:131-159 | what `process_request` writes is always nothing, the 200 head, or the 200 head and the whole file |
| Scenarios.GetParses | tests/integration_test.rs:88 | `GET <path> HTTP/1.1\r\n` is parsed as GET, the path, HTTP/1.1 |
| Scenarios.IndexResolves | src/lib.rs:63 | `/index.html` under root `www` names `www/index.html` |
| Scenarios.RequestedFileServed | tests/integration_test.rs:11-31 | GET /index.html is answered 200 with the page |
| Scenarios.DefaultFileServed | tests/integration_test.rs:33-53 | GET / gets exactly what GET /index.html gets: 200 with the page |
| Scenarios.MissingPageNotFound | tests/integration_test.rs:55-75 | GET /nonexistent.html is answered 404 with body "Page Not Found" |
| Scenarios.TraversalBadRequest | tests/integration_test.rs:77-103 | GET /../index.html is answered 400 with body "Invalid path" |

## Left out

- `Server::run` (src/lib.rs:35-52) is not modelled: binding, the accept loop, one thread per connection and the shared `Arc`. Connections are independent: each `HandleClient` changes only its own stream.
- The error logging (`eprintln!`) is not modelled. It has no effect on the client or on the results.
- src/main.rs is not part of this model. It only wires a bind address and document root into `run`.
- Real sockets and files are given as inputs: what the client sends, which reads, writes and flushes fail, and the filesystem map. An error's text stands for its `to_string()`.
- What the client sends (`inbound`) is everything it sends before closing its side. A line with no newline is read up to that close. In the source, a client that sends part of a line and then neither finishes it nor closes leaves the worker blocked in `read_line` forever; the model has no such hang.
- Partial writes before a `write_all` error are not modelled. A failed write sends nothing.
- `BufReader` read-ahead beyond the first line is not modelled. Reading does not change the stream's state, since nothing else is read afterwards.
- The connection is closed when `handle_client` returns; the model has no close step, and nothing is written after `HandleClient` returns.
- Server.Server.ParsePath: requires a non-empty path, because `&path[1..]` panics on `""`; its only caller passes a `split_whitespace` token, which is never empty.
- Server.Server.ParsePath: drops the first character whatever it is; the source panics when that character takes more than one UTF-8 byte, and that panic is not modelled.
- Stream.AfterWrite: any `write_all` call can be scripted to fail, including one with no data. The standard library returns Ok at once for an empty buffer without touching the socket. So the model admits a failed body write for an empty file, which the source cannot produce.
- `TcpStream::flush` does nothing in the standard library; flush failures are still modelled, because the code handles them.
