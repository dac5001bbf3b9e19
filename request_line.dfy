/**
 * The request line: `str::split_whitespace` and the three-token check of
 * `parse_header`.
 */
module RequestLine {
  import opened Wrappers
  import opened Io
  import opened Errors

  /** Rust's `char::is_whitespace`: the Unicode White_Space property. */
  predicate IsWhitespace(c: char) {
    ('\t' <= c <= '\r') || c == ' ' || c == '\U{85}' || c == '\U{A0}' || c == '\U{1680}'
    || ('\U{2000}' <= c <= '\U{200A}') || c == '\U{2028}' || c == '\U{2029}'
    || c == '\U{202F}' || c == '\U{205F}' || c == '\U{3000}'
  }

  /**
   * Among ASCII characters, exactly tab, line feed, vertical tab, form feed,
   * carriage return and space are whitespace (vertical tab included, unlike
   * `char::is_ascii_whitespace`).
   */
  lemma AsciiWhitespace(c: char)
    requires c as int < 0x80
    ensures IsWhitespace(c) <==> c in {'\t', '\n', '\U{B}', '\U{C}', '\r', ' '}
  {
  }

  /** What `split_whitespace` can yield: a non-empty run of non-whitespace characters. */
  predicate IsToken(t: string) {
    t != [] && forall i :: 0 <= i < |t| ==> !IsWhitespace(t[i])
  }

  /** The length of the run of non-whitespace characters `s` starts with. */
  function WordLength(s: string): (n: nat)
    ensures n <= |s|
    ensures forall i :: 0 <= i < n ==> !IsWhitespace(s[i])
    ensures n < |s| ==> IsWhitespace(s[n])
  {
    if s == [] || IsWhitespace(s[0]) then 0 else 1 + WordLength(s[1..])
  }

  /** `s.split_whitespace()`: the maximal whitespace-free runs of `s`, in order. */
  function SplitWhitespace(s: string): (tokens: seq<string>)
    ensures forall i :: 0 <= i < |tokens| ==> IsToken(tokens[i])
    decreases |s|
  {
    if s == [] then []
    else if IsWhitespace(s[0]) then SplitWhitespace(s[1..])
    else
      var n := WordLength(s);
      [s[..n]] + SplitWhitespace(s[n..])
  }

  /** Whitespace in front of the tokens is skipped. */
  lemma {:induction false} SplitSkipsWhitespace(ws: string, s: string)
    requires forall i :: 0 <= i < |ws| ==> IsWhitespace(ws[i])
    ensures SplitWhitespace(ws + s) == SplitWhitespace(s)
  {
    if ws == [] {
      assert ws + s == s;
    } else {
      assert (ws + s)[0] == ws[0] && (ws + s)[1..] == ws[1..] + s;
      SplitSkipsWhitespace(ws[1..], s);
    }
  }

  /** A token is read up to the first whitespace that follows it. */
  lemma {:induction false} WordLengthOfToken(t: string, rest: string)
    requires IsToken(t)
    requires rest == [] || IsWhitespace(rest[0])
    ensures WordLength(t + rest) == |t|
  {
    assert (t + rest)[0] == t[0] && (t + rest)[1..] == t[1..] + rest;
    if |t| > 1 {
      WordLengthOfToken(t[1..], rest);
    } else {
      assert t[1..] + rest == rest;
    }
  }

  /** A token followed by whitespace (or nothing) is split off whole. */
  lemma SplitToken(t: string, rest: string)
    requires IsToken(t)
    requires rest == [] || IsWhitespace(rest[0])
    ensures SplitWhitespace(t + rest) == [t] + SplitWhitespace(rest)
  {
    WordLengthOfToken(t, rest);
    assert (t + rest)[..|t|] == t && (t + rest)[|t|..] == rest;
  }

  /** A token, then a run of whitespace: the token is split off and the whitespace skipped. */
  lemma SplitTokenAndGap(t: string, gap: string, rest: string)
    requires IsToken(t) && gap != []
    requires forall i :: 0 <= i < |gap| ==> IsWhitespace(gap[i])
    ensures SplitWhitespace(t + (gap + rest)) == [t] + SplitWhitespace(rest)
  {
    SplitToken(t, gap + rest);
    SplitSkipsWhitespace(gap, rest);
  }

  /** Two tokens, the second ending the line: they are split off in order. */
  lemma SplitLastTwo(p: string, v: string)
    requires IsToken(p) && IsToken(v)
    ensures SplitWhitespace(p + (" " + (v + ("\r\n" + [])))) == [p, v]
  {
    var crlf, sp: string := "\r\n", " ";
    assert IsWhitespace(crlf[0]) && IsWhitespace(crlf[1]) && IsWhitespace(sp[0]);
    SplitTokenAndGap(v, crlf, []);
    assert SplitWhitespace(v + (crlf + [])) == [v];
    SplitTokenAndGap(p, sp, v + (crlf + []));
  }

  /** The line a client such as the integration tests sends splits into exactly its three tokens. */
  lemma SplitRequestLine(m: string, p: string, v: string)
    requires IsToken(m) && IsToken(p) && IsToken(v)
    ensures SplitWhitespace(m + " " + p + " " + v + "\r\n") == [m, p, v]
  {
    var sp: string := " ";
    var tail := p + (" " + (v + ("\r\n" + [])));
    assert m + " " + p + " " + v + "\r\n" == m + (sp + tail);
    SplitLastTwo(p, v);
    assert IsWhitespace(sp[0]);
    SplitTokenAndGap(m, sp, tail);
  }

  /** The three tokens `parse_header` hands on. */
  datatype Request = Request(verb: string, path: string, version: string)

  /** The pure part of `parse_header`: the outcome of `read_line`, split and counted. */
  function ParseRequestLine(read: Result<string, IoError>): (r: Result<Request, HttpError>)
    ensures read.Err? ==> r == Err(BadRequest(read.error.message))
    ensures read.Ok? ==> (r.Ok? <==> |SplitWhitespace(read.value)| == 3)
    ensures read.Ok? && r.Err? ==> r.error == BadRequest("Invalid request")
    ensures r.Ok? ==> SplitWhitespace(read.value) == [r.value.verb, r.value.path, r.value.version]
    ensures r.Ok? ==> IsToken(r.value.path)
  {
    match read
    case Err(e) => Err(BadRequest(e.message))
    case Ok(line) =>
      var parts := SplitWhitespace(line);
      if |parts| == 3 then Ok(Request(parts[0], parts[1], parts[2]))
      else Err(BadRequest("Invalid request"))
  }
}
