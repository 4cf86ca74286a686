/** Byte search, delimited fields, and replacing one part of a text by another of its length. */
module Delimited {
  import opened Wrappers

  const SOH: char := '\U{01}'

  // ----- First occurrence -----

  predicate At(text: string, needle: string, i: nat) {
    i + |needle| <= |text| && text[i..i + |needle|] == needle
  }

  function FindFrom(text: string, needle: string, i: nat): (r: Option<nat>)
    requires i <= |text|
    ensures r.Some? ==> i <= r.value && At(text, needle, r.value)
    ensures r.Some? ==> forall j :: i <= j < r.value ==> !At(text, needle, j)
    ensures r.None? ==> forall j :: i <= j ==> !At(text, needle, j)
    decreases |text| - i
  {
    if |needle| > |text| - i then None
    else if text[i..i + |needle|] == needle then Some(i)
    else if i == |text| then None
    else FindFrom(text, needle, i + 1)
  }

  /** Where a needle first occurs; an empty needle is not found. */
  function Find(text: string, needle: string): (r: Option<nat>)
    ensures r.Some? ==> needle != [] && At(text, needle, r.value)
    ensures r.Some? ==> forall j :: 0 <= j < r.value ==> !At(text, needle, j)
    ensures r.None? && needle != [] ==> forall j: nat :: !At(text, needle, j)
  {
    if needle == [] then None else FindFrom(text, needle, 0)
  }

  lemma FindIs(text: string, needle: string, i: nat)
    requires needle != [] && At(text, needle, i) && forall j :: 0 <= j < i ==> !At(text, needle, j)
    ensures Find(text, needle) == Some(i)
  {
  }

  function Shift(r: Option<nat>, n: nat): Option<nat> {
    match r case None => None case Some(i) => Some(i + n)
  }

  /** Occurrences past a cut are the occurrences in the rest. */
  lemma AtShift(a: string, b: string, needle: string, i: nat)
    requires i >= |a|
    ensures At(a + b, needle, i) == At(b, needle, i - |a|)
  {
    if i + |needle| <= |a + b| {
      assert (a + b)[i..i + |needle|] == b[i - |a|..i - |a| + |needle|];
    }
  }

  lemma AtPrefix(a: string, b: string, needle: string, i: nat)
    requires i + |needle| <= |a|
    ensures At(a + b, needle, i) == At(a, needle, i)
  {
    assert (a + b)[i..i + |needle|] == a[i..i + |needle|];
  }

  /** With no occurrence starting in `a`, the search goes on in `b`. */
  lemma FindSkip(a: string, b: string, needle: string)
    requires needle != [] && forall j :: 0 <= j < |a| ==> !At(a + b, needle, j)
    ensures Find(a + b, needle) == Shift(Find(b, needle), |a|)
  {
    var r := Find(b, needle);
    if r.Some? {
      AtShift(a, b, needle, r.value + |a|);
      forall j | 0 <= j < r.value + |a| ensures !At(a + b, needle, j) {
        if j >= |a| {
          AtShift(a, b, needle, j);
        }
      }
      FindIs(a + b, needle, r.value + |a|);
    } else {
      forall j: nat ensures !At(a + b, needle, j) {
        if j >= |a| {
          AtShift(a, b, needle, j);
        }
      }
    }
  }

  /** One differing byte rules an occurrence out. */
  lemma Differs(text: string, needle: string, i: nat, k: nat)
    requires k < |needle| && (i + k < |text| ==> text[i + k] != needle[k])
    ensures !At(text, needle, i)
  {
    if i + |needle| <= |text| {
      assert text[i..i + |needle|][k] == text[i + k];
    }
  }

  /** A needle without the delimiter lies within one field. */
  lemma FindWithin(a: string, d: char, b: string, needle: string)
    requires needle != [] && d !in needle
    ensures Find(a + [d] + b, needle) ==
            if Find(a, needle).Some? then Find(a, needle) else Shift(Find(b, needle), |a| + 1)
  {
    var text := a + [d] + b;
    assert text == a + ([d] + b);
    forall j | 0 <= j <= |a| && j + |needle| > |a| ensures !At(text, needle, j) {
      assert needle[|a| - j] in needle;
      Differs(text, needle, j, |a| - j);
    }
    forall j | 0 <= j && j + |needle| <= |a| ensures At(text, needle, j) == At(a, needle, j) {
      AtPrefix(a, [d] + b, needle, j);
    }
    if Find(a, needle).Some? {
      FindIs(text, needle, Find(a, needle).value);
    } else {
      FindSkip(a + [d], b, needle);
    }
  }

  /** A needle that starts with the delimiter is found where the next field starts with the key. */
  lemma FindKey(a: string, d: char, b: string, key: string)
    requires d !in a
    ensures Find(a + [d] + b, [d] + key) == if key <= b then Some(|a|) else Shift(Find(b, [d] + key), |a| + 1)
  {
    var text, needle := a + [d] + b, [d] + key;
    forall j | 0 <= j < |a| ensures !At(text, needle, j) {
      assert a[j] in a;
      Differs(text, needle, j, 0);
    }
    assert text == a + ([d] + b);
    AtShift(a, [d] + b, needle, |a|);
    if key <= b {
      assert ([d] + b)[0..|needle|] == needle;
      FindIs(text, needle, |a|);
    } else {
      NoKey(d, b, key);
      FindSkip(a + [d], b, needle);
    }
  }

  lemma NoKey(d: char, b: string, key: string)
    requires !(key <= b)
    ensures !At([d] + b, [d] + key, 0)
  {
    var text, needle := [d] + b, [d] + key;
    if |needle| <= |text| {
      assert text[0..|needle|][1..] == b[..|key|];
      assert needle[1..] == key;
    }
  }

  // ----- Delimited fields -----

  function Wire(fields: seq<string>): string {
    if fields == [] then [] else fields[0] + [SOH] + Wire(fields[1..])
  }

  ghost predicate Clean(fields: seq<string>) {
    forall f :: f in fields ==> SOH !in f
  }

  lemma {:induction false} WireConcat(a: seq<string>, b: seq<string>)
    ensures Wire(a + b) == Wire(a) + Wire(b)
  {
    if a == [] {
      assert a + b == b;
    } else {
      assert (a + b)[1..] == a[1..] + b;
      WireConcat(a[1..], b);
    }
  }

  lemma WireSplit(fields: seq<string>, k: nat)
    requires k < |fields|
    ensures Wire(fields) == Wire(fields[..k]) + (fields[k] + [SOH] + Wire(fields[k + 1..]))
  {
    assert fields == fields[..k] + fields[k..];
    WireConcat(fields[..k], fields[k..]);
    assert fields[k..][1..] == fields[k + 1..];
  }

  /** A key starts the wire exactly when it starts the first field. */
  lemma KeyOfFirst(f: string, rest: string, key: string)
    requires SOH !in key
    ensures key <= f + [SOH] + rest <==> key <= f
  {
    var text := f + [SOH] + rest;
    if |key| <= |f| {
      assert text[..|key|] == f[..|key|];
    } else {
      assert key[|f|] in key && text[|f|] == SOH;
    }
  }

  /** The value after a key, in the first field past the leading one that starts with it. */
  function KeyIndex(fields: seq<string>, key: string): (r: Option<nat>)
    ensures r.Some? ==> 0 < r.value < |fields| && key <= fields[r.value]
    ensures r.Some? ==> forall j :: 0 < j < r.value ==> !(key <= fields[j])
    ensures r.None? ==> forall j :: 0 < j < |fields| ==> !(key <= fields[j])
  {
    if |fields| < 2 then None
    else if key <= fields[1] then Some(1)
    else
      var r := KeyIndex(fields[1..], key);
      assert forall j :: 1 < j < |fields| ==> fields[j] == fields[1..][j - 1];
      if r.None? then None else Some(r.value + 1)
  }

  /** Searching the wire for a delimited key is searching the fields. */
  lemma {:induction false} FindField(fields: seq<string>, key: string)
    requires Clean(fields) && SOH !in key && key != []
    ensures var r := KeyIndex(fields, key);
            Find(Wire(fields), [SOH] + key) ==
            if r.None? then None else Some(|Wire(fields[..r.value])| - 1)
  {
    if fields != [] {
      var f, rest := fields[0], fields[1..];
      assert f in fields;
      FindKey(f, SOH, Wire(rest), key);
      if rest != [] {
        KeyOfFirst(rest[0], Wire(rest[1..]), key);
        if key <= rest[0] {
          assert fields[..1] == [f];
        } else {
          FindField(rest, key);
          if KeyIndex(rest, key).Some? {
            FindLater(fields, key);
          }
        }
      }
    }
  }

  lemma FindLater(fields: seq<string>, key: string)
    requires |fields| >= 2 && !(key <= fields[1]) && KeyIndex(fields[1..], key).Some?
    ensures var k := KeyIndex(fields[1..], key).value;
            && KeyIndex(fields, key) == Some(k + 1)
            && |Wire(fields[..k + 1])| == |fields[0]| + 1 + |Wire(fields[1..][..k])|
  {
    var k := KeyIndex(fields[1..], key).value;
    assert fields[..k + 1] == [fields[0]] + fields[1..][..k];
    assert ([fields[0]] + fields[1..][..k])[1..] == fields[1..][..k];
  }

  /** The value of a delimited tag, up to the next delimiter. */
  function ExtractTag(msg: string, tag: string): Option<string> {
    var key := tag + "=";
    match Find(msg, [SOH] + key)
    case None => None
    case Some(i) =>
      var value := msg[i + 1 + |key|..];
      match Find(value, [SOH])
      case None => None
      case Some(j) => Some(value[..j])
  }

  /** On well-delimited fields, the value is the rest of the first field with the tag. */
  lemma ExtractField(fields: seq<string>, tag: string)
    requires Clean(fields) && SOH !in tag
    ensures var r := KeyIndex(fields, tag + "=");
            ExtractTag(Wire(fields), tag) == if r.None? then None else Some(fields[r.value][|tag| + 1..])
  {
    var r := KeyIndex(fields, tag + "=");
    if r.Some? {
      FindTag(fields, tag);
      TagAt(fields, r.value, tag);
    } else {
      FindField(fields, tag + "=");
    }
  }

  lemma FindTag(fields: seq<string>, tag: string)
    requires Clean(fields) && SOH !in tag && KeyIndex(fields, tag + "=").Some?
    ensures Find(Wire(fields), [SOH] + (tag + "=")) == Some(|Wire(fields[..KeyIndex(fields, tag + "=").value])| - 1)
  {
    FindField(fields, tag + "=");
  }

  lemma TagAt(fields: seq<string>, k: nat, tag: string)
    requires Clean(fields) && 0 < k < |fields| && tag + "=" <= fields[k]
    requires Find(Wire(fields), [SOH] + (tag + "=")) == Some(|Wire(fields[..k])| - 1)
    ensures ExtractTag(Wire(fields), tag) == Some(fields[k][|tag| + 1..])
  {
    var f, n := fields[k], |tag| + 1;
    var head, rest := Wire(fields[..k]), Wire(fields[k + 1..]);
    WireSplit(fields, k);
    assert f in fields;
    hide Wire;
    ValueAfter(head, f, rest, n);
    var value := f[n..] + [SOH] + rest;
    FindKey(f[n..], SOH, rest, []);
    assert [SOH] + [] == [SOH];
    assert Find(value, [SOH]) == Some(|f| - n);
    assert value[..|f| - n] == f[n..];
    TagFrom(Wire(fields), tag, |head| - 1, value);
  }

  lemma TagFrom(msg: string, tag: string, i: nat, value: string)
    requires Find(msg, [SOH] + (tag + "=")) == Some(i)
    requires value == msg[i + 1 + |tag + "="|..] && Find(value, [SOH]).Some?
    ensures ExtractTag(msg, tag) == Some(value[..Find(value, [SOH]).value])
  {
  }

  lemma ValueAfter(head: string, f: string, rest: string, n: nat)
    requires n <= |f|
    ensures (head + (f + [SOH] + rest))[|head| + n..] == f[n..] + [SOH] + rest
  {
  }

  // ----- Byte sums and replacement -----

  function Sum(s: string): nat {
    if s == [] then 0 else s[0] as int + Sum(s[1..])
  }

  lemma {:induction false} SumConcat(a: string, b: string)
    ensures Sum(a + b) == Sum(a) + Sum(b)
  {
    if a == [] {
      assert a + b == b;
    } else {
      assert (a + b)[1..] == a[1..] + b;
      SumConcat(a[1..], b);
    }
  }

  /** Overwriting the middle of a text. */
  function Overwrite(text: string, off: nat, m: string): (r: string)
    requires off + |m| <= |text|
    ensures |r| == |text|
  {
    text[..off] + m + text[off + |m|..]
  }

  lemma OverwriteMiddle(a: string, m: string, b: string, m': string)
    requires |m'| == |m|
    ensures (a + m + b)[|a|..|a| + |m|] == m
    ensures Overwrite(a + m + b, |a|, m') == a + m' + b
    ensures Sum(a + m' + b) + Sum(m) == Sum(a + m + b) + Sum(m')
  {
    var text := a + m + b;
    assert text[..|a|] == a && text[|a| + |m|..] == b;
    SumConcat(a + m, b);
    SumConcat(a, m);
    SumConcat(a + m', b);
    SumConcat(a, m');
  }

  /** Overwriting inside one field keeps every other field. */
  lemma WireOverwrite(fields: seq<string>, k: nat, a: string, m: string, b: string, m': string)
    requires k < |fields| && fields[k] == a + m + b && |m'| == |m|
    ensures var off := |Wire(fields[..k])| + |a|;
            && off + |m| <= |Wire(fields)|
            && Wire(fields)[off..off + |m|] == m
            && Wire(fields[k := a + m' + b]) == Overwrite(Wire(fields), off, m')
            && Sum(Wire(fields[k := a + m' + b])) + Sum(m) == Sum(Wire(fields)) + Sum(m')
  {
    hide Wire, Sum, Overwrite;
    var fields' := fields[k := a + m' + b];
    WireSplit(fields, k);
    WireSplit(fields', k);
    assert fields'[..k] == fields[..k] && fields'[k + 1..] == fields[k + 1..];
    var head, tail := Wire(fields[..k]), Wire(fields[k + 1..]);
    Regroup(head, a, m, b, tail);
    Regroup(head, a, m', b, tail);
    OverwriteMiddle(head + a, m, b + [SOH] + tail, m');
  }

  lemma Regroup(head: string, a: string, m: string, b: string, tail: string)
    ensures head + ((a + m + b) + [SOH] + tail) == (head + a) + m + (b + [SOH] + tail)
  {
  }
}
