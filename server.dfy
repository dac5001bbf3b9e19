/**
 * `Server`: the per-connection request pipeline. `parse_path` and the
 * decisions of `process_request` are functions; `parse_header`,
 * `process_request`, `send_error_response` and `handle_client` are methods on
 * the connection, each proved to leave it in the state the corresponding pure
 * transition (`Process`, `SendError`, `Handle`) describes.
 */
module Server {
  import opened Wrappers
  import opened Utf8
  import Io
  import opened Stream
  import opened Errors
  import opened RequestLine

  /** `s.contains("..")`: the parent-directory sequence occurs somewhere in `s`. */
  predicate ContainsDotDot(s: string) {
    exists i :: 0 <= i < |s| - 1 && s[i] == '.' && s[i + 1] == '.'
  }

  /** The predicate is substring search for `..`, as `str::contains` performs it: some suffix starts with `..`. */
  lemma DotDotIsSubstring(s: string)
    ensures ContainsDotDot(s) <==> exists i :: 0 <= i <= |s| && ".." <= s[i..]
  {
    if ContainsDotDot(s) {
      var i :| 0 <= i < |s| - 1 && s[i] == '.' && s[i + 1] == '.';
      assert ".." <= s[i..];
    }
    forall i | 0 <= i <= |s| && ".." <= s[i..]
      ensures ContainsDotDot(s)
    {
      assert s[i] == s[i..][0] && s[i + 1] == s[i..][1];
    }
  }

  /** Dropping the first character cannot create a `..`. */
  lemma DotDotInTail(s: string)
    requires s != [] && ContainsDotDot(s[1..])
    ensures ContainsDotDot(s)
  {
    var i :| 0 <= i < |s[1..]| - 1 && s[1..][i] == '.' && s[1..][i + 1] == '.';
    assert s[i + 1] == '.' && s[i + 2] == '.';
  }

  /** The file served for `/`. */
  const IndexFile: string := "index.html"

  /** The status line of every successful response. */
  const OkStatusLine: string := "HTTP/1.1 200 OK"

  /** The head of every successful response, `HTTP/1.1 200 OK\r\n\r\n`: the status line, a blank line, no other header. */
  const OkHeader: string := OkStatusLine + HeadEnd

  /** How a failed `fs::read` is reported: a missing file as 404, anything else as 500 with the error's text. */
  function FetchError(e: Io.IoError): (h: HttpError)
    ensures h.NotFound? <==> e.kind == Io.NotFound
    ensures h.NotFound? ==> h.message == "Page Not Found"
    ensures !h.NotFound? ==> h == InternalServerError(e.message)
  {
    if e.kind == Io.NotFound then NotFound("Page Not Found") else InternalServerError(e.message)
  }

  /** The server configuration: immutable once built, shared by every connection. */
  datatype Server = Server(bindAddress: string, documentRoot: string) {

    /** `Server::new`: keeps both strings as given. */
    static function New(bindAddress: string, documentRoot: string): (s: Server)
      ensures s.bindAddress == bindAddress && s.documentRoot == documentRoot
    {
      Server(bindAddress, documentRoot)
    }

    /**
     * `parse_path`: the file a request path names. A path containing `..` is
     * refused before anything else; `/` names the index file; any other path
     * loses its first character and is put under the document root. Every
     * accepted path lies under `documentRoot + "/"` and what follows that
     * prefix contains no `..`. (A non-empty path is required: slicing `""` at
     * 1 panics, and the only caller passes a whitespace-free token, never empty.)
     */
    function ParsePath(path: string): (r: Result<string, string>)
      requires path != []
      ensures r.Err? <==> ContainsDotDot(path)
      ensures r.Err? ==> r.error == "Invalid path"
      ensures r.Ok? && path == "/" ==> r.value == documentRoot + "/" + IndexFile
      ensures r.Ok? && path != "/" ==> r.value == documentRoot + "/" + path[1..]
      ensures r.Ok? ==> documentRoot + "/" <= r.value && !ContainsDotDot(r.value[|documentRoot| + 1..])
    {
      if ContainsDotDot(path) then
        Err("Invalid path")
      else if path == "/" then
        assert (documentRoot + "/" + IndexFile)[|documentRoot| + 1..] == IndexFile;
        assert forall i :: 0 <= i < |IndexFile| - 1 ==> !(IndexFile[i] == '.' && IndexFile[i + 1] == '.');
        Ok(documentRoot + "/" + IndexFile)
      else
        assert !ContainsDotDot(path[1..]) by {
          if ContainsDotDot(path[1..]) { DotDotInTail(path); }
        }
        assert (documentRoot + "/" + path[1..])[|documentRoot| + 1..] == path[1..];
        Ok(documentRoot + "/" + path[1..])
    }

    /**
     * What `process_request` decides before writing anything: the request
     * line is split, its path resolved and the file read. The bytes to serve,
     * or the error to report.
     */
    function Fetch(read: Result<string, Io.IoError>, fs: Io.FileSystem): (r: Result<seq<byte>, HttpError>)
      ensures read.Err? ==> r == Err(BadRequest(read.error.message))
      ensures read.Ok? && |SplitWhitespace(read.value)| != 3 ==> r == Err(BadRequest("Invalid request"))
      ensures ParseRequestLine(read).Ok? && ContainsDotDot(ParseRequestLine(read).value.path)
              ==> r == Err(BadRequest("Invalid path"))
      ensures r.Ok? <==> ParseRequestLine(read).Ok? && ParsePath(ParseRequestLine(read).value.path).Ok?
                         && Io.Read(fs, ParsePath(ParseRequestLine(read).value.path).value).Ok?
      ensures r.Ok? ==> r.value == Io.Read(fs, ParsePath(ParseRequestLine(read).value.path).value).value
      ensures ParseRequestLine(read).Ok? && ParsePath(ParseRequestLine(read).value.path).Ok?
              && Io.Read(fs, ParsePath(ParseRequestLine(read).value.path).value).Err?
              ==> r == Err(FetchError(Io.Read(fs, ParsePath(ParseRequestLine(read).value.path).value).error))
    {
      match ParseRequestLine(read)
      case Err(e) => Err(e)
      case Ok(request) =>
        match ParsePath(request.path)
        case Err(msg) => Err(BadRequest(msg))
        case Ok(file) =>
          match Io.Read(fs, file)
          case Err(e) => Err(FetchError(e))
          case Ok(contents) => Ok(contents)
    }

    /** `process_request` as a transition of the connection: fetch, then respond. */
    function Process(link: Link, t: Transcript, fs: Io.FileSystem): (out: (Transcript, Result<(), HttpError>))
      ensures Fetch(LineRead(link), fs).Err? ==> out == (t, Err(Fetch(LineRead(link), fs).error))
      ensures out.1.Ok? <==> Fetch(LineRead(link), fs).Ok? && t.writes !in link.faults.writes
                             && t.writes + 1 !in link.faults.writes && t.flushes !in link.faults.flushes
      ensures out.1.Ok? ==> out.0.sent == t.sent + Encode(OkHeader) + Fetch(LineRead(link), fs).value
    {
      Respond(link.faults, t, Fetch(LineRead(link), fs))
    }

    /**
     * The writing half of `process_request`: after a successful fetch, the
     * header, the body and a flush, each failure ending the request with its
     * error; after a failed fetch, nothing.
     */
    static function Respond(f: Faults, t: Transcript, fetched: Result<seq<byte>, HttpError>): (out: (Transcript, Result<(), HttpError>))
      ensures fetched.Err? ==> out == (t, Err(fetched.error))
      ensures fetched.Ok? && t.writes in f.writes
              ==> out == (t.(writes := t.writes + 1), Err(BadRequest(f.writes[t.writes].message)))
      ensures fetched.Ok? && t.writes !in f.writes && t.writes + 1 in f.writes
              ==> out.0 == Transcript(t.sent + Encode(OkHeader), t.writes + 2, t.flushes)
                  && out.1 == Err(BadRequest(f.writes[t.writes + 1].message))
      ensures fetched.Ok? && t.writes !in f.writes && t.writes + 1 !in f.writes
              ==> out.0 == Transcript(t.sent + Encode(OkHeader) + fetched.value, t.writes + 2, t.flushes + 1)
      ensures fetched.Ok? && t.writes !in f.writes && t.writes + 1 !in f.writes && t.flushes in f.flushes
              ==> out.1 == Err(InternalServerError(f.flushes[t.flushes].message))
      ensures out.1.Ok? <==> fetched.Ok? && t.writes !in f.writes && t.writes + 1 !in f.writes && t.flushes !in f.flushes
      ensures out.1.Ok? ==> out.0.sent == t.sent + Encode(OkHeader) + fetched.value
    {
      match fetched
      case Err(e) => (t, Err(e))
      case Ok(contents) =>
        var (t1, header) := AfterWrite(f, t, Encode(OkHeader));
        if header.Err? then (t1, Err(FromIoError(header.error)))
        else
          var (t2, body) := AfterWrite(f, t1, contents);
          if body.Err? then (t2, Err(FromIoError(body.error)))
          else
            var (t3, flushed) := AfterFlush(f, t2);
            if flushed.Err? then (t3, Err(InternalServerError(flushed.error.message)))
            else (t3, Ok(()))
    }

    /**
     * `send_error_response` as a transition: one write of the error response
     * and, if that succeeded, one flush. A failed write returns its own error;
     * a failed flush is reported as a fixed `Other` error.
     */
    static function SendError(f: Faults, t: Transcript, e: HttpError): (out: (Transcript, Result<(), Io.IoError>))
      ensures out.0.writes == t.writes + 1
      ensures out.0.sent == t.sent || out.0.sent == t.sent + ErrorResponse(e)
      ensures out.1.Ok? ==> out.0.sent == t.sent + ErrorResponse(e)
      ensures t.writes in f.writes ==> out == (t.(writes := t.writes + 1), Err(f.writes[t.writes]))
      ensures t.writes !in f.writes
              ==> out.0 == Transcript(t.sent + ErrorResponse(e), t.writes + 1, t.flushes + 1)
                  && (out.1.Ok? <==> t.flushes !in f.flushes)
      ensures t.writes !in f.writes && t.flushes in f.flushes
              ==> out.1 == Err(Io.IoError(Io.Other, "Internal Server Error (flush failed)"))
    {
      var (t1, written) := AfterWrite(f, t, ErrorResponse(e));
      if written.Err? then (t1, Err(written.error))
      else
        var (t2, flushed) := AfterFlush(f, t1);
        if flushed.Err? then (t2, Err(Io.IoError(Io.Other, "Internal Server Error (flush failed)")))
        else (t2, Ok(()))
    }

    /**
     * `handle_client` as a transition: process the request; on failure send
     * one error response, ignore how that went, and return the error as an
     * `io::Error`.
     */
    function Handle(link: Link, t: Transcript, fs: Io.FileSystem): (out: (Transcript, Result<(), Io.IoError>))
      ensures out.1.Ok? <==> Process(link, t, fs).1.Ok?
    {
      var (t1, processed) := Process(link, t, fs);
      if processed.Err? then (SendError(link.faults, t1, processed.error).0, Err(IntoIoError(processed.error)))
      else (t1, Ok(()))
    }

    /** `parse_header`: reads one line from the connection and splits it into its three tokens. */
    static method ParseHeader(stream: TcpStream) returns (r: Result<Request, HttpError>)
      ensures r == ParseRequestLine(LineRead(stream.link))
    {
      var line := stream.ReadLine();
      if line.Err? {
        return Err(BadRequest(line.error.message));
      }
      var parts := SplitWhitespace(line.value);
      if |parts| == 3 {
        r := Ok(Request(parts[0], parts[1], parts[2]));
      } else {
        r := Err(BadRequest("Invalid request"));
      }
    }

    /** `process_request`: leaves the connection as `Process` says and returns its outcome. */
    method ProcessRequest(stream: TcpStream, fs: Io.FileSystem) returns (r: Result<(), HttpError>)
      modifies stream
      ensures (stream.State(), r) == Process(stream.link, old(stream.State()), fs)
    {
      var header := ParseHeader(stream);
      if header.Err? {
        return Err(header.error);
      }
      var file := ParsePath(header.value.path);
      if file.Err? {
        return Err(BadRequest(file.error));
      }
      var contents := Io.Read(fs, file.value);
      if contents.Err? {
        return Err(FetchError(contents.error));
      }
      var written := stream.WriteAll(Encode(OkHeader));
      if written.Err? {
        return Err(FromIoError(written.error));
      }
      written := stream.WriteAll(contents.value);
      if written.Err? {
        return Err(FromIoError(written.error));
      }
      var flushed := stream.Flush();
      if flushed.Err? {
        return Err(InternalServerError(flushed.error.message));
      }
      r := Ok(());
    }

    /** `send_error_response`: leaves the connection as `SendError` says and returns its outcome. */
    static method SendErrorResponse(stream: TcpStream, error: HttpError) returns (r: Result<(), Io.IoError>)
      modifies stream
      ensures (stream.State(), r) == SendError(stream.link.faults, old(stream.State()), error)
    {
      var written := stream.WriteAll(ErrorResponse(error));
      if written.Err? {
        return Err(written.error);
      }
      var flushed := stream.Flush();
      if flushed.Err? {
        return Err(Io.IoError(Io.Other, "Internal Server Error (flush failed)"));
      }
      r := Ok(());
    }

    /** `handle_client`: leaves the connection as `Handle` says and returns its outcome. */
    method HandleClient(stream: TcpStream, fs: Io.FileSystem) returns (r: Result<(), Io.IoError>)
      modifies stream
      ensures (stream.State(), r) == Handle(stream.link, old(stream.State()), fs)
    {
      var result := ProcessRequest(stream, fs);
      if result.Err? {
        var _ := SendErrorResponse(stream, result.error);
        return Err(IntoIoError(result.error));
      }
      r := Ok(());
    }
  }
}
