/**
 * What a client observes of one connection: end-to-end properties of
 * `handle_client`, stated over the pure transitions the methods are proved
 * against, and checked against the client's reading of the response bytes.
 */
module Properties {
  import opened Wrappers
  import opened Utf8
  import Io
  import opened Stream
  import opened Errors
  import opened RequestLine
  import opened Client
  import opened Server

  /** A connection on which no read, write or flush fails. */
  predicate Reliable(link: Link) {
    link.readFault == None && link.faults == Faults(map[], map[])
  }

  /** The status code each error variant is meant to carry. */
  function StatusOf(e: HttpError): nat {
    match e
    case BadRequest(_) => 400
    case NotFound(_) => 404
    case InternalServerError(_) => 500
  }

  /** Each status line carries its variant's code where a client looks for it. */
  lemma StatusLineCode(e: HttpError)
    ensures StatusCode(Encode(StatusLine(e))) == Some(StatusOf(e))
  {
    StatusCodeOfAscii(StatusLine(e), StatusOf(e));
  }

  /** The `\r\n\r\n` the server writes is the blank line a client looks for. */
  lemma HeadEndIsBlank()
    ensures Encode(HeadEnd) == Blank
  {
    EncodeAscii(HeadEnd);
  }

  /** Every error response reads back as its variant's status code, with the error's text as the body. */
  lemma ErrorResponseRoundTrip(e: HttpError)
    ensures ParseResponse(ErrorResponse(e)) == Some(Response(StatusOf(e), Encode(e.message)))
  {
    HeadEndIsBlank();
    ParseFramed(StatusLine(e), Encode(e.message));
    StatusLineCode(e);
  }

  /** The success head is the 200 status line followed by the blank line. */
  lemma OkHeaderFramed()
    ensures Encode(OkHeader) == Encode(OkStatusLine) + Blank
  {
    EncodeConcat(OkStatusLine, HeadEnd);
    HeadEndIsBlank();
  }

  /** The success status line is ASCII, has no carriage return, and spells `HTTP/1.1 200`. */
  lemma OkStatusLineShape()
    ensures '\r' !in OkStatusLine
    ensures forall i :: 0 <= i < |OkStatusLine| ==> IsAscii(OkStatusLine[i])
    ensures |OkStatusLine| >= 12 && OkStatusLine[..9] == "HTTP/1.1 "
    ensures forall i :: 9 <= i < 12 ==> '0' <= OkStatusLine[i] <= '9'
    ensures 200 == 100 * (OkStatusLine[9] as int - 48) + 10 * (OkStatusLine[10] as int - 48) + (OkStatusLine[11] as int - 48)
  {
  }

  /** The success status line carries 200 where a client looks for it. */
  lemma OkStatusCode()
    ensures StatusCode(Encode(OkStatusLine)) == Some(200)
  {
    OkStatusLineShape();
    StatusCodeOfAscii(OkStatusLine, 200);
  }

  /** A success response reads back as status 200 with exactly the file's bytes as the body. */
  lemma OkResponseRoundTrip(contents: seq<byte>)
    ensures ParseResponse(Encode(OkHeader) + contents) == Some(Response(200, contents))
  {
    OkHeaderFramed();
    OkStatusLineShape();
    OkStatusCode();
    ParseStatusFramed(Encode(OkHeader), OkStatusLine, 200, contents);
  }

  /** A client's request line is read back as its three tokens, whatever follows it on the connection. */
  lemma RequestLineRoundTrip(link: Link, m: string, p: string, v: string, rest: string)
    requires IsToken(m) && IsToken(p) && IsToken(v)
    requires link.readFault == None && link.inbound == m + " " + p + " " + v + "\r\n" + rest
    ensures ParseRequestLine(LineRead(link)) == Ok(Request(m, p, v))
  {
    var line := m + " " + p + " " + v + "\r";
    assert '\n' !in line by {
      assert forall i :: 0 <= i < |line| ==> line[i] == '\n' ==> IsWhitespace(line[i]);
    }
    assert link.inbound == line + "\n" + rest;
    FirstLineStopsAtNewline(line, rest);
    assert line + "\n" == m + " " + p + " " + v + "\r\n";
    SplitRequestLine(m, p, v);
  }

  /**
   * A path containing `..` is answered 400 "Invalid path" before any file is
   * read: nothing about the filesystem changes what the client gets.
   */
  lemma TraversalRejected(s: Server, link: Link, t: Transcript, fs: Io.FileSystem, other: Io.FileSystem, req: Request)
    requires ParseRequestLine(LineRead(link)) == Ok(req) && ContainsDotDot(req.path)
    ensures s.Process(link, t, fs) == (t, Err(BadRequest("Invalid path")))
    ensures s.Handle(link, t, fs) == s.Handle(link, t, other)
    ensures s.Handle(link, t, fs).1 == Err(Io.IoError(Io.InvalidData, "Bad Request: " + "Invalid path"))
  {
  }

  /** An error found before the success header is written leaves nothing on the wire but the error response. */
  lemma EarlyErrorSendsOnlyErrorResponse(s: Server, link: Link, t: Transcript, fs: Io.FileSystem)
    requires s.Fetch(LineRead(link), fs).Err?
    requires t.writes !in link.faults.writes
    ensures var e := s.Fetch(LineRead(link), fs).error;
            s.Handle(link, t, fs) == (Transcript(t.sent + ErrorResponse(e), t.writes + 1, t.flushes + 1), Err(IntoIoError(e)))
  {
    var e := s.Fetch(LineRead(link), fs).error;
    assert s.Process(link, t, fs) == (t, Err(e));
    assert s.Handle(link, t, fs) == (Server.SendError(link.faults, t, e).0, Err(IntoIoError(e)));
  }

  /** `/` and `/index.html` are the same request: same bytes sent, same outcome. */
  lemma RootServesIndex(s: Server, link: Link, link': Link, t: Transcript, fs: Io.FileSystem, req: Request, req': Request)
    requires ParseRequestLine(LineRead(link)) == Ok(req) && req.path == "/"
    requires ParseRequestLine(LineRead(link')) == Ok(req') && req'.path == "/index.html"
    requires link.faults == link'.faults
    ensures s.Handle(link, t, fs) == s.Handle(link', t, fs)
  {
    assert "/index.html"[1..] == IndexFile;
    assert s.ParsePath(req.path) == s.ParsePath(req'.path);
    SameFetchSameOutcome(s, link, link', t, fs);
  }

  /** Once the file is decided, the request line plays no further part. */
  lemma SameFetchSameOutcome(s: Server, link: Link, link': Link, t: Transcript, fs: Io.FileSystem)
    requires s.Fetch(LineRead(link), fs) == s.Fetch(LineRead(link'), fs)
    requires link.faults == link'.faults
    ensures s.Handle(link, t, fs) == s.Handle(link', t, fs)
  {
    var p, p' := s.Process(link, t, fs), s.Process(link', t, fs);
    assert p == p';
    if p.1.Err? {
      assert Server.SendError(link.faults, p.0, p.1.error) == Server.SendError(link'.faults, p.0, p.1.error);
    }
  }

  /** A file that exists is served whole: the 200 head, then exactly its bytes, then one flush. */
  lemma ExistingFileServed(s: Server, link: Link, t: Transcript, fs: Io.FileSystem, req: Request, file: string)
    requires Reliable(link)
    requires ParseRequestLine(LineRead(link)) == Ok(req) && s.ParsePath(req.path) == Ok(file)
    requires file in fs && fs[file].Contents?
    ensures s.Handle(link, t, fs)
         == (Transcript(t.sent + Encode(OkHeader) + fs[file].bytes, t.writes + 2, t.flushes + 1), Ok(()))
    ensures ParseResponse(s.Handle(link, t, fs).0.sent[|t.sent|..]) == Some(Response(200, fs[file].bytes))
  {
    var contents := fs[file].bytes;
    assert s.Fetch(LineRead(link), fs) == Ok(contents);
    var sent := t.sent + Encode(OkHeader) + contents;
    assert s.Process(link, t, fs) == (Transcript(sent, t.writes + 2, t.flushes + 1), Ok(()));
    assert sent[|t.sent|..] == Encode(OkHeader) + contents;
    OkResponseRoundTrip(contents);
  }

  /** A file that does not exist is answered 404 with the body "Page Not Found". */
  lemma MissingFileNotFound(s: Server, link: Link, t: Transcript, fs: Io.FileSystem, req: Request, file: string)
    requires Reliable(link)
    requires ParseRequestLine(LineRead(link)) == Ok(req) && s.ParsePath(req.path) == Ok(file)
    requires file !in fs
    ensures s.Handle(link, t, fs).0.sent == t.sent + ErrorResponse(NotFound("Page Not Found"))
    ensures s.Handle(link, t, fs).1 == Err(Io.IoError(Io.NotFound, "Not Found: " + "Page Not Found"))
    ensures ParseResponse(s.Handle(link, t, fs).0.sent[|t.sent|..]) == Some(Response(404, Encode("Page Not Found")))
  {
    var response := ErrorResponse(NotFound("Page Not Found"));
    assert (t.sent + response)[|t.sent|..] == response;
    ErrorResponseRoundTrip(NotFound("Page Not Found"));
  }

  /** A file that exists but cannot be read is answered 500 with the read error's text. */
  lemma UnreadableFileInternalError(s: Server, link: Link, t: Transcript, fs: Io.FileSystem, req: Request, file: string)
    requires Reliable(link)
    requires ParseRequestLine(LineRead(link)) == Ok(req) && s.ParsePath(req.path) == Ok(file)
    requires file in fs && fs[file].Unreadable? && fs[file].error.kind != Io.NotFound
    ensures s.Handle(link, t, fs).0.sent == t.sent + ErrorResponse(InternalServerError(fs[file].error.message))
    ensures s.Handle(link, t, fs).1 == Err(Io.IoError(Io.Other, "Internal Server Error: " + fs[file].error.message))
  {
  }

  /** A line that does not split into exactly three tokens is answered 400 "Invalid request". */
  lemma WrongTokenCountRejected(s: Server, link: Link, t: Transcript, fs: Io.FileSystem)
    requires Reliable(link)
    requires |SplitWhitespace(FirstLine(link.inbound))| != 3
    ensures s.Handle(link, t, fs).0.sent == t.sent + ErrorResponse(BadRequest("Invalid request"))
    ensures s.Handle(link, t, fs).1 == Err(Io.IoError(Io.InvalidData, "Bad Request: " + "Invalid request"))
  {
  }

  /** A failed read of the request line is answered 400 with the read error's text. */
  lemma ReadFailureRejected(s: Server, link: Link, t: Transcript, fs: Io.FileSystem, e: Io.IoError)
    requires link.readFault == Some(e) && link.faults == Faults(map[], map[])
    ensures s.Handle(link, t, fs).0.sent == t.sent + ErrorResponse(BadRequest(e.message))
    ensures s.Handle(link, t, fs).1 == Err(Io.IoError(Io.InvalidData, "Bad Request: " + e.message))
  {
  }

  /**
   * When the body write fails after the 200 head went out, the client still
   * receives a second, 400 response on the same connection, right after the
   * 200 head.
   */
  lemma BodyWriteFailureSendsSecondResponse(s: Server, link: Link, t: Transcript, fs: Io.FileSystem, contents: seq<byte>, e: Io.IoError)
    requires link.readFault == None && link.faults == Faults(map[t.writes + 1 := e], map[])
    requires s.Fetch(LineRead(link), fs) == Ok(contents)
    ensures s.Handle(link, t, fs).0.sent == t.sent + Encode(OkHeader) + ErrorResponse(BadRequest(e.message))
    ensures s.Handle(link, t, fs).1 == Err(Io.IoError(Io.InvalidData, "Bad Request: " + e.message))
  {
    var out := s.Process(link, t, fs);
    assert out == (Transcript(t.sent + Encode(OkHeader), t.writes + 2, t.flushes), Err(BadRequest(e.message)));
    assert s.Handle(link, t, fs).0 == Server.SendError(link.faults, out.0, out.1.error).0;
  }

  /** A failed flush after a complete success response is reported as 500, and a 500 response follows the body. */
  lemma FlushFailureAfterBody(s: Server, link: Link, t: Transcript, fs: Io.FileSystem, contents: seq<byte>, e: Io.IoError)
    requires link.readFault == None && link.faults == Faults(map[], map[t.flushes := e])
    requires s.Fetch(LineRead(link), fs) == Ok(contents)
    ensures s.Process(link, t, fs).1 == Err(InternalServerError(e.message))
    ensures s.Handle(link, t, fs).0.sent
         == t.sent + Encode(OkHeader) + contents + ErrorResponse(InternalServerError(e.message))
  {
    var out := s.Process(link, t, fs);
    assert out.0.sent == t.sent + Encode(OkHeader) + contents;
    assert out.1 == Err(InternalServerError(e.message));
    assert s.Handle(link, t, fs).0 == Server.SendError(link.faults, out.0, out.1.error).0;
  }

  /**
   * `handle_client` adds at most one response to what `process_request` left:
   * none on success, and on failure exactly one attempted error-response
   * write, whose outcome does not change the error returned.
   */
  lemma AtMostOneErrorResponse(s: Server, link: Link, t: Transcript, fs: Io.FileSystem)
    ensures var (t1, r1) := s.Process(link, t, fs);
            var (t2, r2) := s.Handle(link, t, fs);
            (r1.Ok? ==> t2 == t1 && r2 == Ok(()))
            && (r1.Err? ==> r2 == Err(IntoIoError(r1.error))
                            && (t1.writes in link.faults.writes ==> t2 == t1.(writes := t1.writes + 1))
                            && (t1.writes !in link.faults.writes
                                ==> t2 == Transcript(t1.sent + ErrorResponse(r1.error), t1.writes + 1, t1.flushes + 1)))
  {
  }

  /** What `process_request` puts on the wire is always a prefix of the success response for the fetched file. */
  lemma ProcessSendsPrefixOfSuccess(s: Server, link: Link, t: Transcript, fs: Io.FileSystem)
    ensures var sent := s.Process(link, t, fs).0.sent;
            match s.Fetch(LineRead(link), fs)
            case Err(_) => sent == t.sent
            case Ok(contents) =>
              sent == t.sent || sent == t.sent + Encode(OkHeader) || sent == t.sent + Encode(OkHeader) + contents
  {
    match s.Fetch(LineRead(link), fs)
    case Err(_) =>
    case Ok(contents) =>
      var (t1, header) := AfterWrite(link.faults, t, Encode(OkHeader));
      if header.Ok? {
        var (t2, body) := AfterWrite(link.faults, t1, contents);
        assert t2.sent == t.sent + Encode(OkHeader) || t2.sent == t.sent + Encode(OkHeader) + contents;
      }
  }
}
