/** Cutting a FIX byte stream into messages, however the stream arrives. */
module StreamParser {
  import opened Wrappers
  import opened Delimited

  const MARKER: string := "8=FIX"
  const CHECK_KEY: string := "10="
  const BUFFER_LIMIT: nat := 1_048_576

  // ----- One buffer -----

  /** The length of the message at the start of the buffer, if its trailer is complete. */
  function MessageEnd(buf: string): (r: Option<nat>)
    ensures r.Some? ==> 0 < r.value <= |buf|
  {
    match Find(buf, [SOH] + CHECK_KEY)
    case None => None
    case Some(i) =>
      var after := i + |[SOH] + CHECK_KEY|;
      match Find(buf[after..], [SOH])
      case None => None
      case Some(j) => Some(after + j + 1)
  }

  /** Does the buffer from `p` on look like the start of a marker? */
  predicate PartialAt(buf: string, p: nat)
    requires p <= |buf|
  {
    buf[p..] <= MARKER
  }

  function PartialFrom(buf: string, p: nat): (r: nat)
    requires p <= |buf|
    ensures p <= r <= |buf| && (r < |buf| ==> PartialAt(buf, r))
    ensures forall q :: p <= q < r ==> !PartialAt(buf, q)
    decreases |buf| - p
  {
    if p == |buf| || PartialAt(buf, p) then p else PartialFrom(buf, p + 1)
  }

  /** Where the kept tail starts when no marker is found. */
  function PartialStart(buf: string): (r: nat)
    ensures r <= |buf| && |buf| <= r + 4
  {
    PartialFrom(buf, if |buf| < 4 then 0 else |buf| - 4)
  }

  datatype Parsed = Parsed(messages: seq<string>, consumed: nat)

  function Later(first: seq<string>, n: nat, p: Parsed): Parsed {
    Parsed(first + p.messages, n + p.consumed)
  }

  /** The messages of a buffer, and how much of it they use up. */
  function Scan(buf: string): (r: Parsed)
    ensures r.consumed <= |buf|
    decreases |buf|
  {
    match Find(buf, MARKER)
    case None => Parsed([], PartialStart(buf))
    case Some(a) =>
      match MessageEnd(buf[a..])
      case None => Parsed([], a)
      case Some(e) => Later([buf[a..a + e]], a + e, Scan(buf[a + e..]))
  }

  /** One turn of the parse loop. */
  lemma ScanTurn(buf: string)
    ensures var start := Find(buf, MARKER);
            && (start.None? ==> Scan(buf) == Parsed([], PartialStart(buf)))
            && (start.Some? && MessageEnd(buf[start.value..]).None? ==> Scan(buf) == Parsed([], start.value))
            && (start.Some? && MessageEnd(buf[start.value..]).Some? ==>
                  var a, e := start.value, MessageEnd(buf[start.value..]).value;
                  Scan(buf) == Later([buf[a..a + e]], a + e, Scan(buf[a + e..])))
  {
  }

  lemma ScanMessage(buf: string, a: nat, e: nat)
    requires Find(buf, MARKER) == Some(a) && a + e <= |buf| && MessageEnd(buf[a..]) == Some(e)
    ensures Scan(buf) == Later([buf[a..a + e]], a + e, Scan(buf[a + e..]))
  {
    hide Scan;
    hide MessageEnd;
    hide Later;
    hide At;
    ScanTurn(buf);
  }

  lemma ScanNothing()
    ensures Scan([]) == Parsed([], 0)
  {
  }

  lemma LaterTwice(m: seq<string>, c: nat, x: seq<string>, n: nat, p: Parsed)
    ensures Later(m, c, Later(x, n, p)) == Later(m + x, c + n, p)
    ensures Later([], 0, p) == p && Later(m, c, Parsed([], n)) == Parsed(m, c + n)
  {
    assert m + (x + p.messages) == (m + x) + p.messages;
    assert [] + p.messages == p.messages && m + [] == m;
  }

  /** The same with a cursor. */
  method ParseMessages(buf: string) returns (messages: seq<string>, cursor: nat)
    ensures Parsed(messages, cursor) == Scan(buf)
  {
    hide Scan;
    hide MessageEnd;
    hide PartialStart;
    hide Later;
    messages, cursor := [], 0;
    LaterTwice([], 0, [], 0, Scan(buf));
    assert buf[0..] == buf;
    while cursor < |buf|
      invariant cursor <= |buf|
      invariant Scan(buf) == Later(messages, cursor, Scan(buf[cursor..]))
      decreases |buf| - cursor
    {
      var rest := buf[cursor..];
      ScanTurn(rest);
      var start := Find(rest, MARKER);
      if start.None? {
        LaterTwice(messages, cursor, [], PartialStart(rest), Parsed([], 0));
        cursor := cursor + PartialStart(rest);
        return;
      }
      var a := start.value;
      var end := MessageEnd(rest[a..]);
      if end.None? {
        LaterTwice(messages, cursor, [], a, Parsed([], 0));
        cursor := cursor + a;
        return;
      }
      var e := end.value;
      LaterTwice(messages, cursor, [rest[a..a + e]], a + e, Scan(rest[a + e..]));
      assert buf[cursor + (a + e)..] == rest[a + e..];
      messages := messages + [rest[a..a + e]];
      cursor := cursor + (a + e);
    }
    ScanNothing();
    assert buf[cursor..] == [];
    LaterTwice(messages, cursor, [], 0, Parsed([], 0));
  }

  // ----- More bytes never change what was found -----

  lemma FindGrows(a: string, b: string, needle: string)
    requires Find(a, needle).Some?
    ensures Find(a + b, needle) == Find(a, needle)
  {
    var i := Find(a, needle).value;
    AtPrefix(a, b, needle, i);
    forall j | 0 <= j < i ensures !At(a + b, needle, j) {
      AtPrefix(a, b, needle, j);
    }
    FindIs(a + b, needle, i);
  }

  lemma EndGrows(a: string, b: string)
    requires MessageEnd(a).Some?
    ensures MessageEnd(a + b) == MessageEnd(a)
  {
    var key := [SOH] + CHECK_KEY;
    FindGrows(a, b, key);
    var after := Find(a, key).value + |key|;
    assert (a + b)[after..] == a[after..] + b;
    FindGrows(a[after..], b, [SOH]);
  }

  /** Nothing starts before the kept tail, not even once more bytes arrive. */
  lemma NoneBeforeTail(a: string, b: string, j: nat)
    requires Find(a, MARKER).None? && j < PartialStart(a)
    ensures !At(a + b, MARKER, j)
  {
    if j + |MARKER| <= |a| {
      AtPrefix(a, b, MARKER, j);
    } else {
      NotPartial(a, j);
      assert !(a[j..] <= MARKER);
      TailDiffers(a, b, j);
    }
  }

  lemma IsPartial(a: string)
    requires PartialStart(a) < |a|
    ensures PartialAt(a, PartialStart(a))
  {
  }

  lemma NotPartial(a: string, j: nat)
    requires j < PartialStart(a) && j + 4 >= |a|
    ensures !PartialAt(a, j)
  {
  }

  lemma TailDiffers(a: string, b: string, j: nat)
    requires j <= |a| < j + |MARKER| && !(a[j..] <= MARKER)
    ensures !At(a + b, MARKER, j)
  {
    var n := |a| - j;
    assert a[j..] != MARKER[..n];
    if j + |MARKER| <= |a + b| {
      assert (a + b)[j..j + |MARKER|][..n] == a[j..];
    }
  }

  /** A marker is searched for in the kept tail as in the whole. */
  lemma FindFromTail(a: string, b: string)
    requires Find(a, MARKER).None?
    ensures Find(a + b, MARKER) == Shift(Find(a[PartialStart(a)..] + b, MARKER), PartialStart(a))
  {
    hide PartialStart;
    var p := PartialStart(a);
    assert a + b == a[..p] + (a[p..] + b);
    forall j | 0 <= j < p ensures !At(a + b, MARKER, j) {
      NoneBeforeTail(a, b, j);
    }
    FindSkip(a[..p], a[p..] + b, MARKER);
  }

  lemma PartialShift(a: string, b: string, q: nat)
    requires q <= |b|
    ensures PartialAt(a + b, |a| + q) == PartialAt(b, q)
  {
    assert (a + b)[|a| + q..] == b[q..];
  }

  /** The first partial marker from `lo` on is unique. */
  lemma PartialFromIs(buf: string, lo: nat, r: nat)
    requires lo <= r <= |buf| && (r < |buf| ==> PartialAt(buf, r)) && forall q :: lo <= q < r ==> !PartialAt(buf, q)
    ensures PartialFrom(buf, lo) == r
  {
  }

  lemma PartialFromTail(a: string, b: string)
    ensures PartialStart(a + b) == PartialStart(a) + PartialStart(a[PartialStart(a)..] + b)
  {
    hide PartialAt, PartialFrom;
    var p := PartialStart(a);
    var rest := a[p..] + b;
    assert a + b == a[..p] + rest;
    var r := PartialStart(rest);
    var lo := if |a + b| < 4 then 0 else |a + b| - 4;
    if p + r < |a + b| {
      IsPartial(rest);
      PartialShift(a[..p], rest, r);
    }
    forall q | lo <= q < p + r ensures !PartialAt(a + b, q) {
      if q >= p {
        NotPartial(rest, q - p);
        PartialShift(a[..p], rest, q - p);
      } else {
        NotPartial(a, q);
        NoGrownPartial(a, b, q);
      }
    }
    PartialFromIs(a + b, lo, p + r);
  }

  lemma NoGrownPartial(a: string, b: string, q: nat)
    requires q <= |a| && !PartialAt(a, q)
    ensures !PartialAt(a + b, q)
  {
    assert (a + b)[q..] == a[q..] + b;
    assert a[q..] == (a[q..] + b)[..|a| - q];
  }

  // ----- Parsing in parts is parsing the whole -----

  lemma Suffixes(x: string, p: nat, k: nat, e: nat)
    requires p + k + e <= |x|
    ensures x[p..][k..] == x[p + k..] && x[p..][k..k + e] == x[p + k..p + k + e] && x[p..][k + e..] == x[p + k + e..]
  {
  }

  lemma RealignMessage(x: string, p: nat, a: nat, e: nat)
    requires p + a + e <= |x| && MessageEnd(x[p + a..]) == Some(e)
    requires Find(x, MARKER) == Some(p + a) && Find(x[p..], MARKER) == Some(a)
    ensures Scan(x) == Later([], p, Scan(x[p..]))
  {
    hide Scan, MessageEnd, Later, At, Find;
    Suffixes(x, p, a, e);
    ScanMessage(x, p + a, e);
    ScanMessage(x[p..], a, e);
    LaterShift(x[p + a..p + a + e], p, a + e, Scan(x[p + a + e..]));
  }

  lemma LaterShift(m: string, p: nat, n: nat, s: Parsed)
    ensures Later([m], p + n, s) == Later([], p, Later([m], n, s))
  {
    assert [] + ([m] + s.messages) == [m] + s.messages;
  }

  /** Bytes before the first marker only shift the result. */
  lemma Realign(x: string, y: string, p: nat)
    requires p <= |x| && y == x[p..] && Find(y, MARKER).Some? && Find(x, MARKER) == Shift(Find(y, MARKER), p)
    ensures Scan(x) == Later([], p, Scan(y))
  {
    hide Scan;
    hide MessageEnd;
    hide Later;
    var a := Find(y, MARKER).value;
    Suffixes(x, p, a, 0);
    var end := MessageEnd(y[a..]);
    if end.Some? {
      RealignMessage(x, p, a, end.value);
    } else {
      ScanTurn(x);
      ScanTurn(y);
      LaterTwice([], p, [], a, Parsed([], 0));
    }
  }

  lemma TailStartsAtMarker(a: string, b: string)
    requires Find(a, MARKER).Some?
    ensures var s := Find(a, MARKER).value; Find(a[s..] + b, MARKER) == Some(0)
  {
    var s := Find(a, MARKER).value;
    assert a[s..s + 5] == MARKER;
    assert (a[s..] + b)[0..5] == a[s..s + 5];
    FindIs(a[s..] + b, MARKER, 0);
  }

  /** Parsing a prefix, then its tail with the rest, is parsing the whole. */
  lemma {:induction false} Resume(a: string, b: string)
    ensures Scan(a + b) == Later(Scan(a).messages, Scan(a).consumed, Scan(a[Scan(a).consumed..] + b))
    decreases |a|
  {
    hide Scan;
    hide MessageEnd;
    hide PartialStart;
    ScanTurn(a);
    var start := Find(a, MARKER);
    if start.None? {
      ResumeNone(a, b);
    } else {
      FindGrows(a, b, MARKER);
      var s := start.value;
      assert (a + b)[s..] == a[s..] + b;
      if MessageEnd(a[s..]).None? {
        TailStartsAtMarker(a, b);
        Realign(a + b, a[s..] + b, s);
      } else {
        var e := MessageEnd(a[s..]).value;
        EndGrows(a[s..], b);
        ScanTurn(a + b);
        Resume(a[s + e..], b);
        ResumeMessage(a, b, s, e);
      }
    }
  }

  lemma ResumeNone(a: string, b: string)
    requires Find(a, MARKER).None?
    ensures Scan(a + b) == Later([], PartialStart(a), Scan(a[PartialStart(a)..] + b))
  {
    hide Scan;
    hide PartialStart;
    var p := PartialStart(a);
    var rest := a[p..] + b;
    FindFromTail(a, b);
    assert (a + b)[p..] == rest;
    if Find(rest, MARKER).Some? {
      Realign(a + b, rest, p);
    } else {
      ScanTurn(a + b);
      ScanTurn(rest);
      PartialFromTail(a, b);
    }
  }

  lemma ResumeMessage(a: string, b: string, s: nat, e: nat)
    requires s + e <= |a| && 0 < e
    requires Scan(a) == Later([a[s..s + e]], s + e, Scan(a[s + e..]))
    requires Scan(a + b) == Later([(a + b)[s..s + e]], s + e, Scan((a + b)[s + e..]))
    requires var r := Scan(a[s + e..]);
             Scan(a[s + e..] + b) == Later(r.messages, r.consumed, Scan(a[s + e..][r.consumed..] + b))
    ensures Scan(a + b) == Later(Scan(a).messages, Scan(a).consumed, Scan(a[Scan(a).consumed..] + b))
  {
    hide Scan;
    var r := Scan(a[s + e..]);
    assert (a + b)[s..s + e] == a[s..s + e];
    assert (a + b)[s + e..] == a[s + e..] + b;
    assert a[s + e..][r.consumed..] == a[Scan(a).consumed..];
    LaterTwice([a[s..s + e]], s + e, r.messages, r.consumed, Scan(a[Scan(a).consumed..] + b));
  }

  // ----- The receive loop -----

  function Flat(chunks: seq<string>): string {
    if chunks == [] then [] else Flat(chunks[..|chunks| - 1]) + chunks[|chunks| - 1]
  }

  /** What is left after parsing a chunk, before the overflow check. */
  function Leftover(chunks: seq<string>): string
    requires chunks != []
    decreases |chunks|, 0
  {
    var buf := Carry(chunks[..|chunks| - 1]) + chunks[|chunks| - 1];
    buf[Scan(buf).consumed..]
  }

  /** The bytes carried over; more than the limit are thrown away. */
  function Carry(chunks: seq<string>): string
    decreases |chunks|, 1
  {
    if chunks == [] then [] else if |Leftover(chunks)| > BUFFER_LIMIT then [] else Leftover(chunks)
  }

  /** The messages of a stream that arrives in chunks. */
  function Received(chunks: seq<string>): seq<string> {
    if chunks == [] then []
    else
      var before := chunks[..|chunks| - 1];
      Received(before) + Scan(Carry(before) + chunks[|chunks| - 1]).messages
  }

  /** No chunk overflowed the buffer. */
  predicate Calm(chunks: seq<string>) {
    chunks == [] || (Calm(chunks[..|chunks| - 1]) && |Leftover(chunks)| <= BUFFER_LIMIT)
  }

  class StreamReader {
    var buf: string

    constructor ()
      ensures buf == []
    {
      buf := [];
    }

    /** Appends a chunk, takes the complete messages out, and drops an oversized rest. */
    method Receive(chunk: string) returns (messages: seq<string>)
      modifies this
      ensures messages == Scan(old(buf) + chunk).messages
      ensures var rest := (old(buf) + chunk)[Scan(old(buf) + chunk).consumed..];
              buf == if |rest| > BUFFER_LIMIT then [] else rest
    {
      buf := buf + chunk;
      var consumed;
      messages, consumed := ParseMessages(buf);
      if consumed > 0 {
        buf := buf[consumed..];
      }
      if |buf| > BUFFER_LIMIT {
        buf := [];
      }
    }

    /** The read loop: every chunk of a stream in turn. */
    method ReceiveAll(chunks: seq<string>) returns (messages: seq<string>)
      requires buf == []
      modifies this
      ensures messages == Received(chunks) && buf == Carry(chunks)
    {
      hide Scan;
      messages := [];
      for i := 0 to |chunks|
        invariant messages == Received(chunks[..i]) && buf == Carry(chunks[..i])
      {
        assert chunks[..i + 1][..i] == chunks[..i];
        var more := Receive(chunks[i]);
        messages := messages + more;
      }
      assert chunks[..|chunks|] == chunks;
    }
  }

  /** However a calm stream is cut, its messages are those of one parse of the whole. */
  lemma {:induction false} ChunksDoNotMatter(chunks: seq<string>)
    requires Calm(chunks)
    ensures Received(chunks) == Scan(Flat(chunks)).messages
    ensures Carry(chunks) == Flat(chunks)[Scan(Flat(chunks)).consumed..]
  {
    hide Scan;
    if chunks == [] {
      ScanNothing();
    } else {
      var before, last := chunks[..|chunks| - 1], chunks[|chunks| - 1];
      ChunksDoNotMatter(before);
      LastChunk(before, last);
      assert before + [last] == chunks;
    }
  }

  /** The last chunk may overflow: its messages still count. */
  lemma LastChunk(before: seq<string>, last: string)
    requires Received(before) == Scan(Flat(before)).messages
    requires Carry(before) == Flat(before)[Scan(Flat(before)).consumed..]
    ensures Received(before + [last]) == Scan(Flat(before + [last])).messages
    ensures Leftover(before + [last]) == Flat(before + [last])[Scan(Flat(before + [last])).consumed..]
  {
    hide Scan;
    var whole := Flat(before);
    assert (before + [last])[..|before|] == before;
    Resume(whole, last);
    TailOf(whole, last, Scan(whole).consumed, Scan(Carry(before) + last).consumed);
  }

  lemma TailOf(a: string, b: string, n: nat, m: nat)
    requires n <= |a| && m <= |a[n..] + b|
    ensures (a + b)[n + m..] == (a[n..] + b)[m..]
  {
    assert (a + b)[n..] == a[n..] + b;
  }

  // ----- The overflow reset loses a message -----

  /** A long tail is an unfinished message. */
  lemma {:induction false} LongTail(buf: string)
    requires |buf| - Scan(buf).consumed > 4
    ensures var t := buf[Scan(buf).consumed..]; MARKER <= t && MessageEnd(t).None?
    decreases |buf|
  {
    hide Scan;
    hide MessageEnd;
    ScanTurn(buf);
    var start := Find(buf, MARKER);
    if start.Some? {
      var a := start.value;
      if MessageEnd(buf[a..]).None? {
        assert buf[a..][..5] == buf[a..a + 5];
      } else {
        var e := MessageEnd(buf[a..]).value;
        var rest := buf[a + e..];
        assert rest[Scan(rest).consumed..] == buf[Scan(buf).consumed..];
        LongTail(rest);
      }
    }
  }

  const CLOSING: string := [SOH] + "10=000" + [SOH]

  lemma ClosingEnds(t: string)
    ensures MessageEnd(t + CLOSING).Some?
  {
    var x, key := t + CLOSING, [SOH] + CHECK_KEY;
    assert At(x, key, |t|) by {
      assert CLOSING[..4] == key;
      assert x[|t|..|t| + 4] == CLOSING[..4];
    }
    var i := Find(x, key).value;
    assert i <= |t|;
    var rest := x[i + 4..];
    assert rest[|rest| - 1] == SOH;
    assert At(rest, [SOH], |rest| - 1);
  }

  lemma ClosingIsNoMessage()
    ensures Scan(CLOSING).messages == []
  {
    forall j: nat ensures !At(CLOSING, MARKER, j) {
      Differs(CLOSING, MARKER, j, 0);
    }
  }

  lemma ClosingCompletes(t: string)
    requires MARKER <= t
    ensures Scan(t + CLOSING).messages != []
  {
    hide Scan;
    hide MessageEnd;
    var x := t + CLOSING;
    assert x[0..5] == t[..5];
    FindIs(x, MARKER, 0);
    assert x[0..] == x;
    ClosingEnds(t);
    ScanTurn(x);
  }

  lemma OverflowLoses(before: seq<string>, last: string)
    requires Calm(before) && |Leftover(before + [last])| > BUFFER_LIMIT
    ensures var chunks := before + [last] + [CLOSING];
            Received(chunks) != Scan(Flat(chunks)).messages
  {
    hide Scan;
    var some := before + [last];
    var whole := Flat(some);
    ChunksDoNotMatter(before);
    LastChunk(before, last);
    assert (some + [CLOSING])[..|some|] == some;
    assert Carry(some) == [] && [] + CLOSING == CLOSING;
    ClosingIsNoMessage();
    LongTail(whole);
    ClosingCompletes(whole[Scan(whole).consumed..]);
    Resume(whole, CLOSING);
  }

  /** Whatever comes next is read right exactly when the last chunk left the buffer within its limit. */
  lemma ResetIff(before: seq<string>, last: string)
    requires Calm(before)
    ensures (forall next :: Received(before + [last] + [next]) == Scan(Flat(before + [last] + [next])).messages)
            <==> |Leftover(before + [last])| <= 1_048_576
  {
    hide Scan;
    hide Received;
    hide Flat;
    if |Leftover(before + [last])| <= BUFFER_LIMIT {
      assert Calm(before + [last]) by {
        assert (before + [last])[..|before|] == before;
      }
      ChunksDoNotMatter(before + [last]);
      forall next ensures Received(before + [last] + [next]) == Scan(Flat(before + [last] + [next])).messages {
        LastChunk(before + [last], next);
      }
    } else {
      OverflowLoses(before, last);
    }
  }
}
