/**
 * How an HTTP client reads what the server sends: the head runs up to the
 * first blank line (`\r\n\r\n`), the status code is the three digits after
 * `HTTP/1.1 `, and everything after the blank line is the body. This is the
 * reference the server's responses are checked against.
 */
module Client {
  import opened Wrappers
  import opened Utf8

  const Blank: seq<byte> := [CR, LF, CR, LF]

  /** The position of the first blank line in `b`, if there is one. */
  function HeadLength(b: seq<byte>): (r: Option<nat>)
    ensures r.Some? ==> r.value + 4 <= |b| && b[r.value..r.value + 4] == Blank
    decreases |b|
  {
    if |b| < 4 then None
    else if b[..4] == Blank then Some(0)
    else match HeadLength(b[1..])
      case None => None
      case Some(k) => Some(k + 1)
  }

  /** A head with no carriage return in it ends at the blank line that follows it. */
  lemma {:induction false} HeadLengthOf(head: seq<byte>, body: seq<byte>)
    requires CR !in head
    ensures HeadLength(head + Blank + body) == Some(|head|)
  {
    var b := head + Blank + body;
    if head == [] {
      assert b[..4] == Blank;
    } else {
      assert b[0] == head[0] != CR;
      assert b[1..] == head[1..] + Blank + body;
      HeadLengthOf(head[1..], body);
    }
  }

  function DigitValue(b: byte): Option<nat> {
    if 48 <= b <= 57 then Some((b - 48) as nat) else None
  }

  /** `HTTP/1.1 `, the protocol name and version a status line starts with, as bytes. */
  const Version: seq<byte> := [72, 84, 84, 80, 47, 49, 46, 49, 32]

  /** The status code of a head that starts `HTTP/1.1 ddd`. */
  function StatusCode(head: seq<byte>): (code: Option<nat>)
    ensures code.Some? ==> 0 <= code.value < 1000
  {
    if |head| < 12 || head[..9] != Version then None
    else match (DigitValue(head[9]), DigitValue(head[10]), DigitValue(head[11]))
      case (Some(h), Some(t), Some(u)) => Some(100 * h + 10 * t + u)
      case _ => None
  }

  datatype Response = Response(status: nat, body: seq<byte>)

  /** The response a client reads from the bytes it received. */
  function ParseResponse(b: seq<byte>): Option<Response> {
    match HeadLength(b)
    case None => None
    case Some(n) =>
      match StatusCode(b[..n])
      case None => None
      case Some(code) => Some(Response(code, b[n + 4..]))
  }

  /** A head without carriage returns, the blank line, then any body: the client gets that body back whole. */
  lemma ParseFramed(head: string, body: seq<byte>)
    requires '\r' !in head
    ensures ParseResponse(Encode(head) + Blank + body)
         == match StatusCode(Encode(head))
            case None => None
            case Some(code) => Some(Response(code, body))
  {
    var h := Encode(head);
    EncodeNoCR(head);
    HeadLengthOf(h, body);
    assert (h + Blank + body)[..|h|] == h;
    assert (h + Blank + body)[|h| + 4..] == body;
  }

  /** A framed head whose status code reads as `code`: the client gets `code` and the body whole. */
  lemma ParseStatusFramed(framed: seq<byte>, head: string, code: nat, body: seq<byte>)
    requires '\r' !in head && framed == Encode(head) + Blank
    requires StatusCode(Encode(head)) == Some(code)
    ensures ParseResponse(framed + body) == Some(Response(code, body))
  {
    ParseFramed(head, body);
  }

  /** The status code of an ASCII head `HTTP/1.1 ddd ...`, read off its characters. */
  lemma StatusCodeOfAscii(head: string, code: nat)
    requires forall i :: 0 <= i < |head| ==> IsAscii(head[i])
    requires |head| >= 12 && head[..9] == "HTTP/1.1 "
    requires forall i :: 9 <= i < 12 ==> '0' <= head[i] <= '9'
    requires code == 100 * (head[9] as int - 48) + 10 * (head[10] as int - 48) + (head[11] as int - 48)
    ensures StatusCode(Encode(head)) == Some(code)
  {
    var h := Encode(head);
    EncodeAscii(head);
    assert forall i :: 0 <= i < 9 ==> head[i] == "HTTP/1.1 "[i];
    assert h[..9] == Version;
  }
}
