/** What a FIX message says, tag by tag, whoever reads it. */
module FixMeaning {
  import opened Wrappers
  import opened Decimals
  import opened Delimited
  import opened TaggedFields
  import opened PriceTimeBook
  import opened FixFrame
  import opened FixTemplate
  import opened FixOffsets
  import opened FixPatch
  import opened OrderWire

  /** A tag of the header or trailer of a message. */
  lemma EdgeReads(version: string, vals: seq<Option<string>>, k: nat)
    requires |vals| == 15 && CleanVals(vals) && CleanText(version) && 0 < k < 18
    ensures |MsgVals(version, vals)| == |TAGS| == 18
    ensures ExtractTag(Finalize(version, Wire(Present(BODY_TAGS, vals))), TAGS[k]) == MsgVals(version, vals)[k]
  {
    hide Wire, Finalize, Present, ExtractTag, CleanVals, TaggedFields.Distinct;
    TagsDistinct();
    MsgIsWire(version, vals);
    MsgValsClean(version, vals);
    CleanPresent(TAGS, MsgVals(version, vals));
    MsgValAt(version, vals, 0);
    ExtractByTag(TAGS, MsgVals(version, vals), k);
  }

  lemma EdgeVals(version: string, vals: seq<Option<string>>)
    requires |vals| == 15
    ensures |MsgVals(version, vals)| == 18 && |TAGS| == 18 && TAGS[1] == "9" && TAGS[17] == "10"
    ensures var body := Wire(Present(BODY_TAGS, vals));
            var head := "8=" + version + [SOH] + "9=" + Dec(|body|) + [SOH] + body;
            && MsgVals(version, vals)[1] == Some(Dec(|body|))
            && MsgVals(version, vals)[17] == Some(CheckText(Sum(head)))
  {
    hide Wire, Sum, Dec, CheckText, Present;
    TagsAre();
  }

  /** A message is a version, a length, a body and a checksum: the length counts the bytes of the body, and the
      checksum is the sum, modulo 256, of all bytes before it, in three digits. */
  lemma LengthAndChecksum(version: string, session: string, bot: nat, a: Action, time: string) returns (body: string)
    requires CleanText(version) && CleanAction(session, a, time)
    ensures var msg := Encode(version, session, bot, a, time);
            var head := "8=" + version + [SOH] + "9=" + Dec(|body|) + [SOH] + body;
            && msg[..|msg| - 7] == head && |msg| == |head| + 7 && "35=" <= body
            && ExtractTag(msg, "9") == Some(Dec(|body|))
            && msg[|head|..|head| + 3] == "10=" && msg[|msg| - 1] == SOH
            && ExtractTag(msg, "10") == Some(msg[|head| + 3..|head| + 6])
            && AllDigits(msg[|head| + 3..|head| + 6]) && NatOf(msg[|head| + 3..|head| + 6]) == Sum(head) % 256
  {
    hide Wire, Sum, Dec, CheckText, Present, BodyVals, ExtractTag, Finalize, NatOf;
    var vals := BodyVals(session, bot, a, time);
    body := Wire(Present(BODY_TAGS, vals));
    BodyValsClean(session, bot, a, time);
    EdgeVals(version, vals);
    EdgeReads(version, vals, 1);
    EdgeReads(version, vals, 17);
    var head := "8=" + version + [SOH] + "9=" + Dec(|body|) + [SOH] + body;
    Closed(version, body);
    TrailerParts(head, Sum(head));
    TrailerEnds(head, Sum(head));
    StartsWithType(session, bot, a, time);
  }

  lemma Closed(version: string, body: string)
    ensures var head := "8=" + version + [SOH] + "9=" + Dec(|body|) + [SOH] + body;
            Finalize(version, body) == head + Trailer(Sum(head))
  {
    hide Dec, Sum, CheckText;
    var head := "8=" + version + [SOH] + "9=" + Dec(|body|) + [SOH] + body;
    TrailerJoin(head, CheckText(Sum(head)));
  }

  lemma TrailerJoin(head: string, check: string)
    ensures head + ("10=" + check + [SOH]) == head + "10=" + check + [SOH]
  {
  }

  lemma TrailerEnds(head: string, sum: nat)
    ensures var all := head + Trailer(sum);
            && |all| == |head| + 7 && all[..|all| - 7] == head
            && all[|head|..|head| + 3] == "10=" && all[|all| - 1] == SOH && AllDigits(CheckText(sum))
  {
    TrailerParts(head, sum);
    hide Pad;
  }

  lemma StartsWithType(session: string, bot: nat, a: Action, time: string)
    ensures "35=" <= Wire(Present(BODY_TAGS, BodyVals(session, bot, a, time)))
  {
    hide NumText, ClOrdId, SmpText;
    var vals := BodyVals(session, bot, a, time);
    FirstTag();
    var fs := Present(BODY_TAGS, vals);
    assert fs[0] == "35" + "=" + MsgType(a);
    assert "35" + "=" == "35=";
    hide Present;
    assert Wire(fs) == fs[0] + [SOH] + Wire(fs[1..]);
  }

  lemma FirstTag()
    ensures |BODY_TAGS| == 15 && BODY_TAGS[0] == "35"
  {
  }

  /** The fixed tags, the message number one above the sequence number, and the time. */
  lemma FixedTags(version: string, session: string, bot: nat, a: Action, time: string)
    requires CleanText(version) && CleanAction(session, a, time)
    ensures var msg := Encode(version, session, bot, a, time);
            && ExtractTag(msg, "49") == Some("IICPC-BOT") && ExtractTag(msg, "56") == Some("CONTESTANT")
            && ExtractTag(msg, "55") == Some("IICPC") && ExtractTag(msg, "52") == Some(time)
            && ExtractTag(msg, "21") == (if a.kind == Cancel then None else Some("1"))
            && ExtractTag(msg, "59") == (if a.kind == NewLimit || a.kind == NewMarket then Some("0") else None)
            && (ExtractTag(msg, "34").Some? && ParseNat(ExtractTag(msg, "34").value) == Some(a.number + 1))
  {
    hide Wire, Present, ExtractTag, Finalize, BodyVals;
    var vals := BodyVals(session, bot, a, time);
    BodyValsClean(session, bot, a, time);
    BodyTagsAre();
    FixedVals(session, bot, a, time);
    TagReads(version, vals, 1);
    TagReads(version, vals, 2);
    TagReads(version, vals, 3);
    TagReads(version, vals, 4);
    TagReads(version, vals, 7);
    TagReads(version, vals, 8);
    TagReads(version, vals, 14);
    ParseDec(a.number + 1);
    ParsePad(a.number + 1, FIX_NUM_WIDTH);
  }

  lemma BodyTagsAre()
    ensures |BODY_TAGS| == 15
    ensures BODY_TAGS[1] == "49" && BODY_TAGS[2] == "56" && BODY_TAGS[3] == "34" && BODY_TAGS[4] == "52"
    ensures BODY_TAGS[7] == "21" && BODY_TAGS[8] == "55" && BODY_TAGS[14] == "59"
  {
  }

  lemma FixedVals(session: string, bot: nat, a: Action, time: string)
    ensures var v := BodyVals(session, bot, a, time);
            && v[1] == Some("IICPC-BOT") && v[2] == Some("CONTESTANT") && v[3] == Some(NumText(a.kind, a.number + 1))
            && v[4] == Some(time) && v[7] == (if a.kind == Cancel then None else Some("1")) && v[8] == Some("IICPC")
            && v[14] == (if a.kind == NewLimit || a.kind == NewMarket then Some("0") else None)
  {
    hide NumText, ClOrdId, SmpText;
  }
}
