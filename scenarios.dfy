/**
 * The integration tests' situations, on the model: a server rooted at `www`
 * whose only file is `www/index.html`, and a client that sends
 * `GET <path> HTTP/1.1\r\n` followed by whatever else it sends.
 */
module Scenarios {
  import opened Wrappers
  import opened Utf8
  import Io
  import opened Stream
  import opened Errors
  import opened RequestLine
  import opened Client
  import opened Server
  import opened Properties

  const Www: Server := Server.New("127.0.0.1:8000", "www")

  const IndexPath: string := "www/index.html"

  /** The document root holding only `index.html`, with content `page`. */
  function Site(page: seq<byte>): Io.FileSystem {
    map[IndexPath := Io.Contents(page)]
  }

  /** A fresh, fault-free connection on which the client sends a GET for `path`, then `rest`. */
  function Get(path: string, rest: string): Link {
    Link("GET " + path + " HTTP/1.1\r\n" + rest, None, Faults(map[], map[]))
  }

  const Fresh: Transcript := Transcript([], 0, 0)

  /** The request line of `Get(path, rest)` is read as GET, `path`, HTTP/1.1. */
  lemma GetParses(path: string, rest: string)
    requires IsToken(path)
    ensures ParseRequestLine(LineRead(Get(path, rest))) == Ok(Request("GET", path, "HTTP/1.1"))
  {
    var v := "HTTP/1.1";
    assert IsToken("GET") && IsToken(v) by {
      assert forall i :: 0 <= i < |v| ==> !IsWhitespace(v[i]);
    }
    assert "GET " + path + " HTTP/1.1\r\n" + rest == "GET" + " " + path + " " + v + "\r\n" + rest;
    RequestLineRoundTrip(Get(path, rest), "GET", path, v, rest);
  }

  /** `/index.html` resolves to the index file under `www`. */
  lemma IndexResolves()
    ensures Www.ParsePath("/index.html") == Ok(IndexPath)
  {
    var p := "/index.html";
    assert !ContainsDotDot(p) by {
      assert forall i :: 0 <= i < |p| - 1 ==> !(p[i] == '.' && p[i + 1] == '.');
    }
    assert "www" + "/" + p[1..] == IndexPath;
  }

  /** `should_respond_with_requested_file`: GET /index.html is answered 200 with the page. */
  lemma RequestedFileServed(page: seq<byte>, rest: string)
    ensures var sent := Www.Handle(Get("/index.html", rest), Fresh, Site(page)).0.sent;
            ParseResponse(sent) == Some(Response(200, page))
  {
    var p := "/index.html";
    assert IsToken(p) by {
      assert forall i :: 0 <= i < |p| ==> !IsWhitespace(p[i]);
    }
    GetParses(p, rest);
    IndexResolves();
    ExistingFileServed(Www, Get(p, rest), Fresh, Site(page), Request("GET", p, "HTTP/1.1"), IndexPath);
  }

  /** `should_respond_with_default_file`: GET / gets exactly what GET /index.html gets. */
  lemma DefaultFileServed(page: seq<byte>, rest: string)
    ensures Www.Handle(Get("/", rest), Fresh, Site(page)) == Www.Handle(Get("/index.html", rest), Fresh, Site(page))
    ensures ParseResponse(Www.Handle(Get("/", rest), Fresh, Site(page)).0.sent) == Some(Response(200, page))
  {
    var p, q := "/", "/index.html";
    assert IsToken(p) && IsToken(q) by {
      assert forall i :: 0 <= i < |q| ==> !IsWhitespace(q[i]);
    }
    GetParses(p, rest);
    GetParses(q, rest);
    RootServesIndex(Www, Get(p, rest), Get(q, rest), Fresh, Site(page),
                    Request("GET", p, "HTTP/1.1"), Request("GET", q, "HTTP/1.1"));
    RequestedFileServed(page, rest);
  }

  /** `should_respond_with_not_found`: GET /nonexistent.html is answered 404 with body "Page Not Found". */
  lemma MissingPageNotFound(page: seq<byte>, rest: string)
    ensures var sent := Www.Handle(Get("/nonexistent.html", rest), Fresh, Site(page)).0.sent;
            ParseResponse(sent) == Some(Response(404, Encode("Page Not Found")))
  {
    var p := "/nonexistent.html";
    assert IsToken(p) by {
      assert forall i :: 0 <= i < |p| ==> !IsWhitespace(p[i]);
    }
    assert !ContainsDotDot(p) by {
      assert forall i :: 0 <= i < |p| - 1 ==> !(p[i] == '.' && p[i + 1] == '.');
    }
    var file := "www" + "/" + p[1..];
    assert file != IndexPath by {
      assert file[4] != IndexPath[4];
    }
    GetParses(p, rest);
    MissingFileNotFound(Www, Get(p, rest), Fresh, Site(page), Request("GET", p, "HTTP/1.1"), file);
    assert Fresh.sent + ErrorResponse(NotFound("Page Not Found")) == ErrorResponse(NotFound("Page Not Found"));
  }

  /** `should_not_allow_to_navigate_outside_of_document_root`: GET /../index.html is answered 400 "Invalid path". */
  lemma TraversalBadRequest(page: seq<byte>, rest: string)
    ensures var sent := Www.Handle(Get("/../index.html", rest), Fresh, Site(page)).0.sent;
            ParseResponse(sent) == Some(Response(400, Encode("Invalid path")))
  {
    var p := "/../index.html";
    assert IsToken(p) by {
      assert forall i :: 0 <= i < |p| ==> !IsWhitespace(p[i]);
    }
    assert ContainsDotDot(p) by {
      assert p[1] == '.' && p[2] == '.';
    }
    GetParses(p, rest);
    var link := Get(p, rest);
    TraversalRejected(Www, link, Fresh, Site(page), Site(page), Request("GET", p, "HTTP/1.1"));
    EarlyErrorSendsOnlyErrorResponse(Www, link, Fresh, Site(page));
    ErrorResponseRoundTrip(BadRequest("Invalid path"));
    assert Fresh.sent + ErrorResponse(BadRequest("Invalid path")) == ErrorResponse(BadRequest("Invalid path"));
  }
}
