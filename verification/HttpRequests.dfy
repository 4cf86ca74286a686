/** HTTP requests as the engine frames them: the body that a rendered REST order is read from. */
module HttpRequests {
  import opened Wrappers
  import opened Decimals
  import opened Delimited
  import opened OrderWire
  import opened JsonFrame

  /** A complete request at the front of a buffer. */
  datatype Request = Request(total: nat, body: string, upgrade: bool)

  function Lines(s: string): seq<string> {
    match Find(s, CRLF)
    case None => [s]
    case Some(i) => [s[..i]] + Lines(s[i + 2..])
  }

  function LowerChar(c: char): char {
    if 'A' <= c <= 'Z' then (c as int + 32) as char else c
  }

  function Lower(s: string): (r: string)
    ensures |r| == |s| && forall i :: 0 <= i < |s| ==> r[i] == LowerChar(s[i])
  {
    seq(|s|, i requires 0 <= i < |s| => LowerChar(s[i]))
  }

  /** What the headers say: the body's length, and whether the connection is to be upgraded. */
  datatype Headers = Headers(length: nat, upgrade: bool)

  /** One header line; a line without a colon says nothing. */
  function ReadHeader(h: Headers, line: string): Headers {
    match Find(line, ":")
    case None => h
    case Some(i) =>
      var key, value := Lower(Trim(line[..i])), Trim(line[i + 1..]);
      if key == "content-length" then h.(length := OrElse(ParseUnsigned(value, U64_LIMIT), 0))
      else if key == "upgrade" then h.(upgrade := Lower(value) == "websocket")
      else h
  }

  function ReadHeaders(h: Headers, lines: seq<string>): Headers
    decreases |lines|
  {
    if lines == [] then h else ReadHeaders(ReadHeader(h, lines[0]), lines[1..])
  }

  function ParseRequest(buf: string): Option<Request> {
    match Find(buf, CRLF + CRLF)
    case None => None
    case Some(i) =>
      var lines := Lines(buf[..i + 4]);
      var h := ReadHeaders(Headers(0, false), if lines == [] then [] else lines[1..]);
      if |buf| < i + 4 + h.length then None
      else Some(Request(i + 4 + h.length, buf[i + 4..i + 4 + h.length], h.upgrade))
  }

  // ----- Heads -----

  function HeadText(lines: seq<string>): string {
    if lines == [] then [] else lines[0] + CRLF + HeadText(lines[1..])
  }

  /** Header lines: not empty, no line breaks inside. */
  ghost predicate CleanLines(lines: seq<string>) {
    forall l :: l in lines ==> CleanLine(l)
  }

  lemma CrLf()
    ensures CRLF == ['\r'] + "\n" && CRLF + CRLF == ['\r'] + "\n\r\n"
  {
  }

  lemma LineFirst(l: string, rest: string)
    requires '\r' !in l
    ensures Lines(l + CRLF + rest) == [l] + Lines(rest)
  {
    var s := l + CRLF + rest;
    CrLf();
    assert s == l + ['\r'] + ("\n" + rest);
    FindKey(l, '\r', "\n" + rest, "\n");
    assert s[..|l|] == l && s[|l| + 2..] == rest;
  }

  lemma {:induction false} HeadLines(lines: seq<string>, rest: string)
    requires CleanLines(lines)
    ensures Lines(HeadText(lines) + rest) == lines + Lines(rest)
  {
    hide Lines, HeadText, CleanLine;
    if lines == [] {
      HeadOfNone();
      assert HeadText(lines) + rest == rest && lines + Lines(rest) == Lines(rest);
    } else {
      var l, more := lines[0], lines[1..];
      FirstClean(lines);
      HeadLines(more, rest);
      HeadFirst(lines);
      Rejoin(l, HeadText(more), rest);
      LineFirst(l, HeadText(more) + rest);
      assert [l] + (more + Lines(rest)) == lines + Lines(rest);
    }
  }

  lemma FirstClean(lines: seq<string>)
    requires CleanLines(lines) && lines != []
    ensures '\r' !in lines[0] && CleanLines(lines[1..])
  {
    assert lines[0] in lines;
  }

  lemma Rejoin(l: string, head: string, rest: string)
    ensures (l + CRLF + head) + rest == l + CRLF + (head + rest)
  {
  }

  lemma NoLines()
    ensures Lines(CRLF) == ["", ""]
  {
    LineFirst("", "");
    assert "" + CRLF + "" == CRLF;
    NoBreak();
  }

  lemma NoBreak()
    ensures Lines("") == [""]
  {
  }

  /** The blank line ends the head. */
  lemma {:induction false} HeadEnd(lines: seq<string>, body: string)
    requires CleanLines(lines) && lines != []
    ensures |HeadText(lines)| >= 2
    ensures Find(HeadText(lines) + CRLF + body, CRLF + CRLF) == Some(|HeadText(lines)| - 2)
  {
    hide Find, HeadText;
    var l, more := lines[0], lines[1..];
    assert l in lines;
    CrLf();
    HeadFirst(lines);
    var rest := HeadText(more) + CRLF + body;
    FirstBreak(l, HeadText(more), body);
    FindKey(l, '\r', "\n" + rest, "\n\r\n");
    if more == [] {
      HeadOfNone();
      assert "\n" + rest == "\n\r\n" + body;
    } else {
      HeadEnd(more, body);
      NextLine(more, CRLF + body);
      assert rest == HeadText(more) + (CRLF + body);
      SkipBreak(rest);
    }
  }

  lemma HeadFirst(lines: seq<string>)
    requires lines != []
    ensures HeadText(lines) == lines[0] + CRLF + HeadText(lines[1..])
  {
  }

  lemma HeadOfNone()
    ensures HeadText([]) == []
  {
  }

  lemma FirstBreak(l: string, head: string, body: string)
    ensures (l + CRLF + head) + CRLF + body == l + ['\r'] + ("\n" + (head + CRLF + body))
  {
    CrLf();
  }

  lemma NextLine(lines: seq<string>, tail: string)
    requires CleanLines(lines) && lines != []
    ensures !("\n\r\n" <= "\n" + (HeadText(lines) + tail))
  {
    assert lines[0] in lines;
    var text := "\n" + (HeadText(lines) + tail);
    assert text[1] == lines[0][0];
  }

  lemma SkipBreak(rest: string)
    ensures Find("\n" + rest, ['\r'] + "\n\r\n") == Shift(Find(rest, ['\r'] + "\n\r\n"), 1)
  {
    var needle := ['\r'] + "\n\r\n";
    forall j | 0 <= j < 1 ensures !At("\n" + rest, needle, j) {
      Differs("\n" + rest, needle, 0, 0);
    }
    FindSkip("\n", rest, needle);
  }

  // ----- The request of an order -----

  function OrderLines(host: string, length: nat): seq<string> {
    ["POST /orders HTTP/1.1", "Host: " + host, "Content-Type: application/json", "Content-Length: " + Dec(length),
     "Connection: keep-alive"]
  }

  lemma HeadIs(host: string, length: nat)
    ensures RequestHead(host, length) == HeadText(OrderLines(host, length)) + CRLF
  {
    hide HeadText, Dec;
    var ls, n := OrderLines(host, length), Dec(length);
    HeadFirst(ls);
    HeadFirst(ls[1..]);
    HeadFirst(ls[1..][1..]);
    HeadFirst(ls[1..][1..][1..]);
    HeadFirst(ls[1..][1..][1..][1..]);
    HeadOfNone();
    assert ls[1..][1..][1..][1..][1..] == [];
    Gather("POST /orders HTTP/1.1", "Host: ", host, "Content-Type: application/json", "Content-Length: ", n,
           "Connection: keep-alive");
  }

  lemma Gather(p: string, a: string, host: string, t: string, b: string, n: string, c: string)
    ensures p + CRLF + ((a + host) + CRLF + (t + CRLF + ((b + n) + CRLF + (c + CRLF + [])))) + CRLF ==
            p + CRLF + a + host + CRLF + t + CRLF + b + n + CRLF + c + CRLF + CRLF
  {
  }

  /** A header line with a plain key. */
  lemma HeaderLine(h: Headers, key: string, value: string)
    requires ':' !in key && Trim(key) == key
    ensures ReadHeader(h, key + ": " + value) ==
            var v := Trim(value);
            if Lower(key) == "content-length" then h.(length := OrElse(ParseUnsigned(v, U64_LIMIT), 0))
            else if Lower(key) == "upgrade" then h.(upgrade := Lower(v) == "websocket")
            else h
  {
    hide Find, Lower;
    var line := key + ": " + value;
    assert line == key + [':'] + (" " + value);
    FindKey(key, ':', " " + value, []);
    assert [':'] + [] == ":";
    assert line[..|key|] == key && line[|key| + 1..] == " " + value;
    TrimSpace(value);
  }

  lemma TrimSpace(value: string)
    ensures Trim(" " + value) == Trim(value)
  {
    assert (" " + value)[1..] == value;
  }

  lemma HeaderKeys()
    ensures Lower("Content-Length") == "content-length"
    ensures |Lower("Host")| == 4 && |Lower("Content-Type")| == 12 && |Lower("Connection")| == 10
    ensures Trim("Content-Length") == "Content-Length" && Trim("Host") == "Host"
    ensures Trim("Content-Type") == "Content-Type" && Trim("Connection") == "Connection"
    ensures |"content-length"| == 14 && |"upgrade"| == 7
  {
  }

  lemma OrderHeaders(host: string, length: nat)
    requires length < U64_LIMIT
    ensures ReadHeaders(Headers(0, false), OrderLines(host, length)[1..] + ["", ""]) == Headers(length, false)
  {
    hide ReadHeader, Lower, Trim, Dec, ReadHeaders;
    HeaderReads(host, length);
    BlankHeader(Headers(length, false));
    SixHeaders(Headers(0, false), "Host: " + host, "Content-Type: application/json", "Content-Length: " + Dec(length),
               "Connection: keep-alive");
    assert OrderLines(host, length)[1..] + ["", ""] ==
           ["Host: " + host, "Content-Type: application/json", "Content-Length: " + Dec(length),
            "Connection: keep-alive", "", ""];
  }

  lemma HeaderReads(host: string, length: nat)
    requires length < U64_LIMIT
    ensures var h, h' := Headers(0, false), Headers(length, false);
            && ReadHeader(h, "Host: " + host) == h && ReadHeader(h, "Content-Type: application/json") == h
            && ReadHeader(h, "Content-Length: " + Dec(length)) == h' && ReadHeader(h', "Connection: keep-alive") == h'
  {
    hide ReadHeader, Lower, Trim, Dec, ParseUnsigned;
    HeaderKeys();
    LengthReads(length);
    TypeLine();
    ConnectionLine();
    var h, h' := Headers(0, false), Headers(length, false);
    HeaderLine(h, "Host", host);
    HeaderLine(h, "Content-Type", "application/json");
    HeaderLine(h, "Content-Length", Dec(length));
    HeaderLine(h', "Connection", "keep-alive");
    assert "Host" + ": " == "Host: " && "Content-Length" + ": " == "Content-Length: ";
  }

  lemma TypeLine()
    ensures "Content-Type" + ": " + "application/json" == "Content-Type: application/json"
    ensures ':' !in "Content-Type" && ':' !in "Host"
  {
  }

  lemma ConnectionLine()
    ensures "Connection" + ": " + "keep-alive" == "Connection: keep-alive"
    ensures ':' !in "Connection" && ':' !in "Content-Length"
  {
  }

  lemma BlankHeader(h: Headers)
    ensures ReadHeader(h, "") == h
  {
  }

  lemma SixHeaders(h: Headers, a: string, b: string, c: string, d: string)
    ensures ReadHeaders(h, [a, b, c, d, "", ""]) ==
            ReadHeader(ReadHeader(ReadHeader(ReadHeader(ReadHeader(ReadHeader(h, a), b), c), d), ""), "")
  {
    hide ReadHeader;
    var ls := [a, b, c, d, "", ""];
    assert ls[1..] == [b, c, d, "", ""] && ls[1..][1..] == [c, d, "", ""];
    assert [c, d, "", ""][1..] == [d, "", ""] && [d, "", ""][1..] == ["", ""];
    assert ["", ""][1..] == [""] && [""][1..] == [];
    var h1 := ReadHeader(h, a);
    var h2 := ReadHeader(h1, b);
    var h3 := ReadHeader(h2, c);
    var h4 := ReadHeader(h3, d);
    assert ReadHeaders(h4, ["", ""]) == ReadHeader(ReadHeader(h4, ""), "");
    assert ReadHeaders(h2, [c, d, "", ""]) == ReadHeaders(h3, [d, "", ""]) == ReadHeaders(h4, ["", ""]);
  }

  lemma LengthReads(length: nat)
    requires length < U64_LIMIT
    ensures ParseUnsigned(Trim(Dec(length)), U64_LIMIT) == Some(length)
  {
    ParseDec(length);
    DigitsTrim(Dec(length));
    assert IsDigit(Dec(length)[0]);
    hide Dec;
  }

  lemma OrderLinesClean(host: string, length: nat)
    requires '\r' !in host && '\n' !in host
    ensures CleanLines(OrderLines(host, length))
  {
    hide Dec, CleanLine;
    DigitsFree(Dec(length));
    LiteralsClean();
    CleanJoin("Host: ", host);
    CleanJoin("Content-Length: ", Dec(length));
  }

  ghost predicate CleanLine(l: string) {
    l != [] && '\r' !in l && '\n' !in l
  }

  lemma LiteralsClean()
    ensures CleanLine("Host: ") && CleanLine("Content-Length: ") && CleanLine("POST /orders HTTP/1.1")
    ensures CleanLine("Content-Type: application/json") && CleanLine("Connection: keep-alive")
  {
    hide CleanLine;
    PlainClean("Host: ");
    PlainClean("Content-Length: ");
    PlainClean("POST /orders HTTP/1.1");
    PlainClean("Content-Type: application/json");
    PlainClean("Connection: keep-alive");
  }

  /** Nothing below a space, no line break. */
  lemma PlainClean(l: string)
    requires l != [] && forall i :: 0 <= i < |l| ==> l[i] >= ' '
    ensures CleanLine(l)
  {
  }

  lemma CleanJoin(key: string, value: string)
    requires CleanLine(key) && '\r' !in value && '\n' !in value
    ensures CleanLine(key + value)
  {
  }

  lemma DigitsFree(s: string)
    requires AllDigits(s)
    ensures '\r' !in s && '\n' !in s
  {
  }

  /** A request ends where its body ends, and its body is the payload: whatever follows it in the buffer. */
  lemma RequestReads(host: string, body: string, next: string)
    requires '\r' !in host && '\n' !in host && |body| < U64_LIMIT
    ensures var head := RequestHead(host, |body|);
            ParseRequest(head + body + next) == Some(Request(|head| + |body|, body, false))
  {
    hide Find, HeadText, ReadHeaders, Lines, RequestHead, Dec;
    var ls, head := OrderLines(host, |body|), RequestHead(host, |body|);
    var buf := head + body + next;
    HeadIs(host, |body|);
    OrderLinesClean(host, |body|);
    HeadEnd(ls, body + next);
    assert buf == HeadText(ls) + CRLF + (body + next);
    var i := |HeadText(ls)| - 2;
    assert buf[..i + 4] == HeadText(ls) + CRLF;
    HeadLines(ls, CRLF);
    NoLines();
    assert (ls + ["", ""])[1..] == ls[1..] + ["", ""];
    OrderHeaders(host, |body|);
    assert buf[i + 4..i + 4 + |body|] == body;
  }
}
