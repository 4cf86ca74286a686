/** Finished frames sent back to back come out of the stream one by one. */
module Framing {
  import opened Wrappers
  import opened Decimals
  import opened Delimited
  import opened FixFrame
  import opened FixOffsets
  import opened StreamParser

  /** Fields that start with the version and close with the only checksum. */
  ghost predicate Framed(fields: seq<string>) {
    var n := |fields|;
    && n >= 2 && Clean(fields)
    && MARKER <= fields[0] && CHECK_KEY <= fields[n - 1]
    && forall j :: 0 < j < n - 1 ==> !(CHECK_KEY <= fields[j])
  }

  lemma MarkerFirst(fields: seq<string>, rest: string)
    requires Framed(fields)
    ensures Find(Wire(fields) + rest, MARKER) == Some(0)
  {
    var text := Wire(fields) + rest;
    assert Wire(fields) == fields[0] + [SOH] + Wire(fields[1..]);
    assert text[0..5] == fields[0][..5];
    FindIs(text, MARKER, 0);
  }

  lemma CheckLast(fields: seq<string>)
    requires Framed(fields)
    ensures Find(Wire(fields), [SOH] + CHECK_KEY) == Some(|Wire(fields[..|fields| - 1])| - 1)
  {
    var n := |fields|;
    FindField(fields, CHECK_KEY);
  }

  lemma LastField(fields: seq<string>)
    requires fields != []
    ensures Wire(fields) == Wire(fields[..|fields| - 1]) + (fields[|fields| - 1] + [SOH])
  {
    var n := |fields| - 1;
    WireSplit(fields, n);
    assert fields[n + 1..] == [];
  }

  /** The message found at a frame is the frame, whatever follows. */
  lemma FrameEnds(fields: seq<string>, rest: string)
    requires Framed(fields)
    ensures MessageEnd(Wire(fields) + rest) == Some(|Wire(fields)|)
  {
    hide Wire;
    var n := |fields| - 1;
    var head, last := Wire(fields[..n]), fields[n];
    CheckLast(fields);
    LastField(fields);
    FindGrows(Wire(fields), rest, [SOH] + CHECK_KEY);
    assert last in fields;
    EndAt(head, last, rest);
  }

  lemma EndAt(head: string, last: string, rest: string)
    requires head != [] && CHECK_KEY <= last && SOH !in last
    requires Find(head + (last + [SOH]) + rest, [SOH] + CHECK_KEY) == Some(|head| - 1)
    ensures MessageEnd(head + (last + [SOH]) + rest) == Some(|head| + |last| + 1)
  {
    var text, v := head + (last + [SOH]) + rest, last[3..];
    assert text[|head| + 3..] == v + [SOH] + rest;
    FindKey(v, SOH, rest, []);
    assert [SOH] + [] == [SOH];
    assert |[SOH] + CHECK_KEY| == 4;
  }

  function Texts(frames: seq<seq<string>>): seq<string> {
    if frames == [] then [] else [Wire(frames[0])] + Texts(frames[1..])
  }

  function Stream(frames: seq<seq<string>>): string {
    if frames == [] then [] else Wire(frames[0]) + Stream(frames[1..])
  }

  ghost predicate AllFramed(frames: seq<seq<string>>) {
    forall i :: 0 <= i < |frames| ==> Framed(frames[i])
  }

  /** A stream of frames parses into the frames and leaves nothing over. */
  lemma {:induction false} ScanFrames(frames: seq<seq<string>>)
    requires AllFramed(frames)
    ensures Scan(Stream(frames)) == Parsed(Texts(frames), |Stream(frames)|)
  {
    hide Scan;
    hide Framed;
    hide Wire;
    if frames == [] {
      ScanNothing();
    } else {
      var f, rest := frames[0], Stream(frames[1..]);
      assert Framed(f);
      ScanFrames(frames[1..]);
      OneFrame(f, rest);
    }
  }

  lemma OneFrame(f: seq<string>, rest: string)
    requires Framed(f)
    ensures Scan(Wire(f) + rest) == Later([Wire(f)], |Wire(f)|, Scan(rest))
  {
    hide Scan;
    hide MessageEnd;
    hide Framed;
    hide Wire;
    hide At;
    MarkerFirst(f, rest);
    FrameEnds(f, rest);
    var text, n := Wire(f) + rest, |Wire(f)|;
    assert text[0..] == text && text[0..n] == Wire(f) && text[n..] == rest;
    ScanMessage(text, 0, n);
  }

  /** Bytes before the first frame that cannot start one are skipped. */
  lemma JunkSkipped(junk: string, frames: seq<seq<string>>)
    requires '8' !in junk && AllFramed(frames) && frames != []
    ensures Scan(junk + Stream(frames)) == Parsed(Texts(frames), |junk| + |Stream(frames)|)
  {
    hide Scan, Framed, Find, Wire;
    var text := Stream(frames);
    ScanFrames(frames);
    StreamStarts(frames);
    SkipJunk(junk, text);
    assert (junk + text)[|junk|..] == text;
    Realign(junk + text, text, |junk|);
    assert [] + Texts(frames) == Texts(frames);
  }

  lemma StreamStarts(frames: seq<seq<string>>)
    requires AllFramed(frames) && frames != []
    ensures Find(Stream(frames), MARKER) == Some(0)
  {
    hide Framed, Wire;
    assert Framed(frames[0]);
    MarkerFirst(frames[0], Stream(frames[1..]));
  }

  lemma SkipJunk(junk: string, text: string)
    requires '8' !in junk
    ensures Find(junk + text, MARKER) == Shift(Find(text, MARKER), |junk|)
  {
    forall j | 0 <= j < |junk| ensures !At(junk + text, MARKER, j) {
      assert junk[j] in junk;
      Differs(junk + text, MARKER, j, 0);
    }
    FindSkip(junk, text, MARKER);
  }

  /** However a stream of frames is cut into chunks, exactly the frames are received. */
  lemma StreamDelivers(frames: seq<seq<string>>, chunks: seq<string>)
    requires AllFramed(frames) && Calm(chunks) && Flat(chunks) == Stream(frames)
    ensures Received(chunks) == Texts(frames) && Carry(chunks) == []
  {
    hide Scan;
    hide Received;
    hide Carry;
    hide Framed;
    ScanFrames(frames);
    ChunksDoNotMatter(chunks);
  }

  /** Every finished body without a checksum field of its own is such a frame. */
  lemma FinalizeFramed(version: string, body: seq<string>) returns (fields: seq<string>)
    requires "FIX" <= version && CleanText(version) && Clean(body)
    requires forall j :: 0 <= j < |body| ==> !(CHECK_KEY <= body[j])
    ensures Framed(fields) && Wire(fields) == Finalize(version, Wire(body))
  {
    var text := Wire(body);
    var head := Head(version, text);
    var front := "8=" + version + [SOH] + "9=" + Dec(|text|) + [SOH] + text;
    var check := CheckText(Sum(front));
    fields := head + body + ["10=" + check];
    HeadClean(version, text);
    DigitsClean(check);
    CleanCat("10=", check);
    CleanConcat(head, body);
    CleanConcat(head + body, ["10=" + check]);
    NoCheckBefore(version, body, check);
    FinalizeWire(version, body);
  }

  lemma NoCheckBefore(version: string, body: seq<string>, check: string)
    requires "FIX" <= version && forall j :: 0 <= j < |body| ==> !(CHECK_KEY <= body[j])
    ensures var fields := Head(version, Wire(body)) + body + ["10=" + check];
            && MARKER <= fields[0] && CHECK_KEY <= fields[|fields| - 1]
            && forall j :: 0 < j < |fields| - 1 ==> !(CHECK_KEY <= fields[j])
  {
    hide Wire;
    hide Dec;
    var head := Head(version, Wire(body));
    assert "8=" + version[..3] == MARKER;
    assert (("8=" + version)[..5]) == "8=" + version[..3];
    forall j | 0 < j < |body| + 2 ensures !(CHECK_KEY <= (head + body + ["10=" + check])[j]) {
      if j == 1 {
        assert head[1][0] == '9';
      }
    }
  }

  lemma FinalizeWire(version: string, body: seq<string>)
    ensures var text := Wire(body);
            var front := "8=" + version + [SOH] + "9=" + Dec(|text|) + [SOH] + text;
            Wire(Head(version, text) + body + ["10=" + CheckText(Sum(front))]) == Finalize(version, text)
  {
    var text := Wire(body);
    var front := "8=" + version + [SOH] + "9=" + Dec(|text|) + [SOH] + text;
    var last := "10=" + CheckText(Sum(front));
    WireConcat(Head(version, text), body);
    WireConcat(Head(version, text) + body, [last]);
    HeadWire(version, text);
    assert Wire([last]) == last + [SOH];
    hide Sum;
    hide CheckText;
    hide Dec;
    assert front + (last + [SOH]) == Finalize(version, text);
  }
}
