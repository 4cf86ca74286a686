/** Client order ids `{session}_{bot}_{seq}_{kind}` and their compact form. */
module OrderIds {
  import opened Wrappers
  import opened Decimals

  const U32_LIMIT: nat := 0x1_0000_0000

  function JoinOrderId(session: string, bot: nat, number: nat, kind: char): string {
    session + "_" + Dec(bot) + "_" + Dec(number) + "_" + [kind]
  }

  function After(s: string, i: nat): string
    requires i < |s|
  {
    s[i + 1..]
  }

  /** Position of the last occurrence of a character. */
  function RFind(s: string, c: char): (r: Option<nat>)
    ensures r.Some? ==> r.value < |s| && s[r.value] == c && c !in After(s, r.value)
    ensures r.None? ==> c !in s
  {
    if s == [] then None
    else if s[|s| - 1] == c then Some(|s| - 1)
    else
      var r := RFind(s[..|s| - 1], c);
      assert r.Some? ==> s[r.value + 1..] == s[..|s| - 1][r.value + 1..] + [s[|s| - 1]];
      assert s == s[..|s| - 1] + [s[|s| - 1]];
      r
  }

  /** Unsigned 32-bit parsing: an optional plus sign, then digits, no overflow. */
  function ParseU32(s: string): Option<nat> {
    var digits := if |s| > 1 && s[0] == '+' then s[1..] else s;
    match ParseNat(digits)
    case Some(n) => if n < U32_LIMIT then Some(n) else None
    case None => None
  }

  /** The sequence number and kind letter, read off the last two fields. */
  function SplitOrderId(id: string): Option<(nat, char)> {
    match RFind(id, '_')
    case None => None
    case Some(i) =>
      var rest := id[..i];
      var field := match RFind(rest, '_') case None => rest case Some(j) => rest[j + 1..];
      var kind := id[i + 1..];
      match ParseU32(field)
      case None => None
      case Some(n) => if |kind| == 1 then Some((n, kind[0])) else None
  }

  lemma {:induction false} RFindLast(a: string, c: char, b: string)
    requires c !in b
    ensures RFind(a + [c] + b, c) == Some(|a|)
  {
    var s := a + [c] + b;
    if b == [] {
      assert s[|s| - 1] == c;
    } else {
      var n := |b| - 1;
      assert s[|s| - 1] == b[n] && b[n] in b;
      assert s[..|s| - 1] == a + [c] + b[..n];
      RFindLast(a, c, b[..n]);
    }
  }

  lemma DigitsHaveNo(s: string, c: char)
    requires AllDigits(s) && !IsDigit(c)
    ensures c !in s
  {
  }

  lemma ParseU32Dec(n: nat)
    requires n < U32_LIMIT
    ensures ParseU32(Dec(n)) == Some(n)
  {
    ParseDec(n);
    assert IsDigit(Dec(n)[0]);
  }

  /** Splitting undoes joining for every session name, underscores included. */
  lemma SplitJoin(session: string, bot: nat, number: nat, kind: char)
    requires number < U32_LIMIT && kind != '_'
    ensures SplitOrderId(JoinOrderId(session, bot, number, kind)) == Some((number, kind))
  {
    var head := session + "_" + Dec(bot);
    var rest := head + "_" + Dec(number);
    var id := JoinOrderId(session, bot, number, kind);
    assert id == rest + ['_'] + [kind];
    RFindLast(rest, '_', [kind]);
    assert id[..|rest|] == rest && id[|rest| + 1..] == [kind];
    DigitsHaveNo(Dec(number), '_');
    assert rest == head + ['_'] + Dec(number);
    RFindLast(head, '_', Dec(number));
    assert rest[|head| + 1..] == Dec(number);
    ParseU32Dec(number);
  }

  /** Ids of one task differ whenever their numbers or kinds differ. */
  lemma JoinInjective(session: string, bot: nat, m: nat, j: char, n: nat, k: char)
    requires m < U32_LIMIT && n < U32_LIMIT && j != '_' && k != '_'
    requires JoinOrderId(session, bot, m, j) == JoinOrderId(session, bot, n, k)
    ensures m == n && j == k
  {
    SplitJoin(session, bot, m, j);
    SplitJoin(session, bot, n, k);
  }
}
