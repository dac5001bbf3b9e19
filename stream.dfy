/**
 * The connection a worker handles: a `TcpStream` stand-in. What the client
 * sends and how the link misbehaves are fixed when the connection is accepted
 * (a `Link`); what the server has written so far is the mutable part. A
 * `write_all` or `flush` fails exactly when its call number (counted from 0
 * over the life of the connection) is scripted to fail; a failed `write_all`
 * sends nothing.
 */
module Stream {
  import opened Wrappers
  import opened Utf8
  import opened Io

  /** Which writes and flushes fail, by call number, and with what error. */
  datatype Faults = Faults(writes: map<nat, IoError>, flushes: map<nat, IoError>)

  /** The client's side of the connection and the link's failures, fixed at accept time. */
  datatype Link = Link(
    inbound: string,                  // the characters the client sends
    readFault: Option<IoError>,       // set when reading the request line fails (e.g. invalid UTF-8, reset)
    faults: Faults)

  /** What the server has done to the connection so far. */
  datatype Transcript = Transcript(sent: seq<byte>, writes: nat, flushes: nat)

  /** `BufRead::read_line` on fresh input: everything up to and including the first newline, or all of it if there is none. */
  function FirstLine(s: string): (line: string)
    ensures line <= s
    ensures forall i :: 0 <= i < |line| - 1 ==> line[i] != '\n'
    ensures line == s || (line != [] && line[|line| - 1] == '\n')
  {
    if s == [] then []
    else if s[0] == '\n' then ['\n']
    else [s[0]] + FirstLine(s[1..])
  }

  /** Only the first line is ever read: whatever follows its newline makes no difference. */
  lemma {:induction false} FirstLineStopsAtNewline(line: string, rest: string)
    requires '\n' !in line
    ensures FirstLine(line + "\n" + rest) == line + "\n"
  {
    if line == [] {
      assert line + "\n" + rest == ['\n'] + rest;
    } else {
      assert (line + "\n" + rest)[1..] == line[1..] + "\n" + rest;
      FirstLineStopsAtNewline(line[1..], rest);
      assert [line[0]] + (line[1..] + "\n") == line + "\n";
    }
  }

  /** What the one `read_line` of a connection returns. */
  function LineRead(link: Link): (r: Result<string, IoError>)
    ensures r.Err? <==> link.readFault.Some?
    ensures r.Ok? ==> r.value <= link.inbound
  {
    match link.readFault
    case Some(e) => Err(e)
    case None => Ok(FirstLine(link.inbound))
  }

  /** `write_all(data)`: either all of `data` is sent, or nothing is and the scripted error is returned. */
  function AfterWrite(f: Faults, t: Transcript, data: seq<byte>): (out: (Transcript, Result<(), IoError>))
    ensures out.0.writes == t.writes + 1 && out.0.flushes == t.flushes
    ensures out.1.Ok? <==> t.writes !in f.writes
    ensures out.1.Ok? ==> out.0.sent == t.sent + data
    ensures out.1.Err? ==> out.0.sent == t.sent && out.1.error == f.writes[t.writes]
  {
    var t' := t.(writes := t.writes + 1);
    if t.writes in f.writes then (t', Err(f.writes[t.writes]))
    else (t'.(sent := t.sent + data), Ok(()))
  }

  /** `flush()`: sends nothing more (every write already went out), and fails only when scripted to. */
  function AfterFlush(f: Faults, t: Transcript): (out: (Transcript, Result<(), IoError>))
    ensures out.0 == t.(flushes := t.flushes + 1)
    ensures out.1.Ok? <==> t.flushes !in f.flushes
    ensures out.1.Err? ==> out.1.error == f.flushes[t.flushes]
  {
    var t' := t.(flushes := t.flushes + 1);
    if t.flushes in f.flushes then (t', Err(f.flushes[t.flushes])) else (t', Ok(()))
  }

  class TcpStream {
    const link: Link
    var sent: seq<byte>
    var writes: nat
    var flushes: nat

    /** The connection as accepted: nothing written yet. */
    constructor (link: Link)
      ensures this.link == link
      ensures State() == Transcript([], 0, 0)
    {
      this.link := link;
      sent, writes, flushes := [], 0, 0;
    }

    /** What the server has done to the connection so far. */
    function State(): Transcript
      reads this
    {
      Transcript(sent, writes, flushes)
    }

    /** Reads the request line; reading leaves what the server has written untouched. */
    method ReadLine() returns (r: Result<string, IoError>)
      ensures r == LineRead(link)
    {
      match link.readFault {
        case Some(e) => r := Err(e);
        case None => r := Ok(FirstLine(link.inbound));
      }
    }

    /** `write_all`: leaves the connection as `AfterWrite` says. */
    method WriteAll(data: seq<byte>) returns (r: Result<(), IoError>)
      modifies this
      ensures (State(), r) == AfterWrite(link.faults, old(State()), data)
    {
      if writes in link.faults.writes {
        r := Err(link.faults.writes[writes]);
      } else {
        sent := sent + data;
        r := Ok(());
      }
      writes := writes + 1;
    }

    /** `flush`: leaves the connection as `AfterFlush` says. */
    method Flush() returns (r: Result<(), IoError>)
      modifies this
      ensures (State(), r) == AfterFlush(link.faults, old(State()))
    {
      if flushes in link.faults.flushes {
        r := Err(link.faults.flushes[flushes]);
      } else {
        r := Ok(());
      }
      flushes := flushes + 1;
    }
  }
}
