/** Stamping a message rendered from scratch: every order kind, with the place of the time found by search. */
module OrderStamp {
  import opened Wrappers
  import opened Decimals
  import opened Delimited
  import opened TaggedFields
  import opened FixFrame
  import opened FixOffsets
  import opened FixPatch
  import opened FixTimestamp
  import opened OrderWire

  /** The body fields of an order up to its time, and those after it. */
  function Before(a: Action): seq<string> {
    ["35=" + MsgType(a), "49=IICPC-BOT", "56=CONTESTANT", "34=" + NumText(a.kind, a.number + 1)]
  }

  function Behind(session: string, bot: nat, a: Action): seq<string> {
    var v := BodyVals(session, bot, a, "");
    Field("11", v[5]) +
    ((Field("41", v[6]) + Field("21", v[7]) + Field("55", v[8])) +
     ((Field("54", v[9]) + Field("38", v[10]) + Field("40", v[11])) +
      (Field("44", v[12]) + Field("7928", v[13]) + Field("59", v[14]))))
  }

  lemma FirstFields(a: Action)
    ensures Field("35", Some(MsgType(a))) + Field("49", Some("IICPC-BOT")) + Field("56", Some("CONTESTANT")) +
            Field("34", Some(NumText(a.kind, a.number + 1))) == Before(a)
  {
    hide Field, NumText, MsgType;
    FixedFields();
    ValueField("35", MsgType(a), "35=");
    ValueField("34", NumText(a.kind, a.number + 1), "34=");
  }

  /** The body of an order: fields, the time, fields. */
  lemma BodyAround(session: string, bot: nat, a: Action, time: string)
    ensures Present(BODY_TAGS, BodyVals(session, bot, a, time)) == Before(a) + ["52=" + time] + Behind(session, bot, a)
  {
    BodyGroups(session, bot, a, time);
    hide Present, Field, NumText, ClOrdId, Before;
    FirstFields(a);
    ValueField("52", time, "52=");
  }

  function Around(session: string, bot: nat, a: Action, time: string): (fs: seq<string>)
    ensures |fs| > 4 && fs[4] == "52=" + time
  {
    Before(a) + ["52=" + time] + Behind(session, bot, a)
  }

  /** The fields of a message before its checksum. */
  function MsgFields(version: string, session: string, bot: nat, a: Action, time: string): (fs: seq<string>)
    ensures |fs| > 6 && fs[6] == "52=" + time
  {
    Head(version, Wire(Around(session, bot, a, time))) + Around(session, bot, a, time)
  }

  lemma EncodeSealed(version: string, session: string, bot: nat, a: Action, time: string)
    ensures Encode(version, session, bot, a, time) == Sealed(Wire(MsgFields(version, session, bot, a, time)))
  {
    hide Wire, Present, BodyVals, Behind, Before, Sum, CheckText, Dec;
    BodyAround(session, bot, a, time);
    var fs := Around(session, bot, a, time);
    WireConcat(Head(version, Wire(fs)), fs);
    HeadWire(version, Wire(fs));
    var head := "8=" + version + [SOH] + "9=" + Dec(|Wire(fs)|) + [SOH] + Wire(fs);
    assert Wire(MsgFields(version, session, bot, a, time)) == head;
    assert head + ("10=" + CheckText(Sum(head)) + [SOH]) == head + "10=" + CheckText(Sum(head)) + [SOH];
  }

  /** A time of the same length changes the time field only: the body length stays. */
  lemma OtherTime(version: string, session: string, bot: nat, a: Action, time: string, ts: string)
    requires |time| == |ts|
    ensures MsgFields(version, session, bot, a, ts) == MsgFields(version, session, bot, a, time)[6 := "52=" + ts]
  {
    hide Wire, Behind, Before, Dec;
    var fs, fs' := Around(session, bot, a, time), Around(session, bot, a, ts);
    assert |Before(a)| == 4 by { BeforeFour(a); }
    assert fs' == fs[4 := "52=" + ts];
    WireLength(fs, 4, "52=" + ts, |fs|);
    assert fs[..|fs|] == fs && fs'[..|fs|] == fs';
  }

  lemma BeforeFour(a: Action)
    ensures |Before(a)| == 4
  {
  }

  // ----- The place of the time -----

  /** The fields before the time, as tag and value. */
  lemma Early(version: string, session: string, bot: nat, a: Action, time: string, j: nat)
    returns (tag: string, value: string)
    requires j < 6
    ensures MsgFields(version, session, bot, a, time)[j] == tag + "=" + value
    ensures '=' !in tag && |tag| <= 2 && tag != "52"
    ensures value == version || AllDigits(value) || value in ["D", "F", "G", "IICPC-BOT", "CONTESTANT"]
  {
    hide Wire, Behind, Dec, Pad;
    var body := Wire(Around(session, bot, a, time));
    if j == 0 {
      tag, value := "8", version;
    } else if j == 1 {
      tag, value := "9", Dec(|body|);
    } else if j == 2 {
      tag, value := "35", MsgType(a);
    } else if j == 3 {
      tag, value := "49", "IICPC-BOT";
    } else if j == 4 {
      tag, value := "56", "CONTESTANT";
    } else {
      tag, value := "34", NumText(a.kind, a.number + 1);
    }
  }

  lemma NotBefore(version: string, session: string, bot: nat, a: Action, time: string, j: nat)
    requires CleanText(version) && j < 6
    ensures Find(MsgFields(version, session, bot, a, time)[j], "52=" + time).None?
  {
    hide MsgFields, Find;
    var tag, value := Early(version, session, bot, a, time, j);
    if AllDigits(value) {
      DigitsClean(value);
    }
    NoTime(tag, value, time);
  }

  /** The search for the time's text in a message finds the time field. */
  lemma TimeFound(version: string, session: string, bot: nat, a: Action, time: string)
    requires CleanText(version) && CleanText(time)
    ensures Find(Encode(version, session, bot, a, time), "52=" + time) ==
            Some(|Wire(MsgFields(version, session, bot, a, time)[..6])|)
  {
    hide MsgFields, Wire, Encode, Find, Sum, CheckText;
    var fs, needle := MsgFields(version, session, bot, a, time), "52=" + time;
    EncodeSealed(version, session, bot, a, time);
    var check := "10=" + CheckText(Sum(Wire(fs)));
    WireConcat(fs, [check]);
    WireOne(check);
    var all := fs + [check];
    forall j | 0 <= j < 6 ensures Find(all[j], needle).None? {
      NotBefore(version, session, bot, a, time, j);
    }
    CleanCat("52=", time);
    FindInFields(all, 6, needle);
    assert all[..6] == fs[..6];
  }

  /** A message rendered with the placeholder and then stamped is the message rendered with that time. */
  lemma StampEncode(version: string, session: string, bot: nat, a: Action, time: string, ts: string)
    requires CleanText(version) && CleanText(time) && |time| == |ts|
    ensures var was := Encode(version, session, bot, a, time);
            var r := Find(was, "52=" + time);
            && r.Some? && r.value + 3 + |ts| + 4 <= |was| && AllDigits(was[|was| - 4..|was| - 1])
            && Stamped(was, r.value + 3, ts) == Encode(version, session, bot, a, ts)
  {
    hide MsgFields, Wire, Encode, Find, Sum, Stamped, Sealed, Overwrite;
    var fs := MsgFields(version, session, bot, a, time);
    TimeFound(version, session, bot, a, time);
    EncodeSealed(version, session, bot, a, time);
    EncodeSealed(version, session, bot, a, ts);
    OtherTime(version, session, bot, a, time, ts);
    assert "52=" + time == "52=" + time + "" && "52=" + ts == "52=" + ts + "";
    WireOverwrite(fs, 6, "52=", time, "", ts);
    StampedSealed(Wire(fs), |Wire(fs[..6])| + 3, ts);
  }
}
