/** Messages as a list of tags, some absent: looking a tag up finds its own value. */
module TaggedFields {
  import opened Wrappers
  import opened Delimited

  /** The fields of the tags that are present, in order. */
  function Present(tags: seq<string>, vals: seq<Option<string>>): seq<string>
    requires |tags| == |vals|
  {
    if tags == [] then []
    else (if vals[0].Some? then [tags[0] + "=" + vals[0].value] else []) + Present(tags[1..], vals[1..])
  }

  ghost predicate Distinct(tags: seq<string>) {
    && (forall i, j :: 0 <= i < j < |tags| ==> tags[i] != tags[j])
    && (forall i :: 0 <= i < |tags| ==> '=' !in tags[i])
  }

  /** The rest of the first field that starts with a key. */
  function FirstWith(fields: seq<string>, key: string): Option<string> {
    if fields == [] then None
    else if key <= fields[0] then Some(fields[0][|key|..])
    else FirstWith(fields[1..], key)
  }

  /** A key ends at the first equals sign, so it starts only fields of its own tag. */
  lemma OwnTag(tag: string, other: string, value: string)
    requires '=' !in tag && '=' !in other
    ensures tag + "=" <= other + "=" + value <==> tag == other
    ensures (tag + "=" + value)[|tag + "="|..] == value
  {
    var key, f := tag + "=", other + "=" + value;
    if |tag| == |other| {
      if |key| <= |f| {
        assert f[..|key|] == other + "=";
        assert key[..|tag|] == tag && (other + "=")[..|tag|] == other;
      }
    } else if |tag| < |other| {
      assert other[|tag|] in other;
      assert f[|tag|] == other[|tag|] && key[|tag|] == '=';
    } else {
      assert tag[|other|] in tag;
      assert f[|other|] == '=' && key[|other|] == tag[|other|];
    }
  }

  lemma DistinctTail(tags: seq<string>)
    requires Distinct(tags) && tags != []
    ensures Distinct(tags[1..]) && tags[0] !in tags[1..] && '=' !in tags[0]
  {
  }

  lemma {:induction false} AbsentTag(tags: seq<string>, vals: seq<Option<string>>, tag: string)
    requires |tags| == |vals| && Distinct(tags) && tag !in tags && '=' !in tag
    ensures FirstWith(Present(tags, vals), tag + "=") == None
  {
    if tags != [] {
      DistinctTail(tags);
      AbsentTag(tags[1..], vals[1..], tag);
      if vals[0].Some? {
        OwnTag(tag, tags[0], vals[0].value);
        Skip(tags, vals, tag + "=");
      } else {
        assert Present(tags, vals) == Present(tags[1..], vals[1..]);
      }
    }
  }

  lemma Skip(tags: seq<string>, vals: seq<Option<string>>, key: string)
    requires |tags| == |vals| && tags != [] && vals[0].Some?
    ensures var f, rest := tags[0] + "=" + vals[0].value, Present(tags[1..], vals[1..]);
            FirstWith(Present(tags, vals), key) == if key <= f then Some(f[|key|..]) else FirstWith(rest, key)
  {
    var f, rest := tags[0] + "=" + vals[0].value, Present(tags[1..], vals[1..]);
    assert ([f] + rest)[1..] == rest;
  }

  /** Looking a tag up among distinct tags gives its own value, or nothing when it is absent. */
  lemma {:induction false} ByTag(tags: seq<string>, vals: seq<Option<string>>, k: nat)
    requires |tags| == |vals| && Distinct(tags) && k < |tags|
    ensures FirstWith(Present(tags, vals), tags[k] + "=") == vals[k]
  {
    DistinctTail(tags);
    if k == 0 {
      if vals[0].Some? {
        OwnTag(tags[0], tags[0], vals[0].value);
        Skip(tags, vals, tags[0] + "=");
      } else {
        AbsentTag(tags[1..], vals[1..], tags[0]);
        assert Present(tags, vals) == Present(tags[1..], vals[1..]);
      }
    } else {
      assert tags[k] == tags[1..][k - 1] && vals[k] == vals[1..][k - 1];
      ByTag(tags[1..], vals[1..], k - 1);
      if vals[0].Some? {
        OwnTag(tags[k], tags[0], vals[0].value);
        Skip(tags, vals, tags[k] + "=");
      } else {
        assert Present(tags, vals) == Present(tags[1..], vals[1..]);
      }
    }
  }

  lemma {:induction false} FirstIsKeyIndex(fields: seq<string>, key: string)
    requires fields != []
    ensures var r := KeyIndex(fields, key);
            FirstWith(fields[1..], key) == if r.None? then None else Some(fields[r.value][|key|..])
  {
    if |fields| >= 2 && !(key <= fields[1]) {
      FirstIsKeyIndex(fields[1..], key);
      assert fields[1..][1..] == fields[2..];
    }
  }

  /** Extraction from the wire is lookup by tag. */
  lemma ExtractByTag(tags: seq<string>, vals: seq<Option<string>>, k: nat)
    requires |tags| == |vals| && Distinct(tags) && 0 < k < |tags| && vals[0].Some?
    requires Clean(Present(tags, vals)) && SOH !in tags[k]
    ensures ExtractTag(Wire(Present(tags, vals)), tags[k]) == vals[k]
  {
    hide ExtractTag;
    hide Wire;
    hide Clean;
    var fields := Present(tags, vals);
    DistinctTail(tags);
    ExtractField(fields, tags[k]);
    FirstIsKeyIndex(fields, tags[k] + "=");
    assert fields[1..] == Present(tags[1..], vals[1..]);
    assert tags[k] == tags[1..][k - 1];
    ByTag(tags[1..], vals[1..], k - 1);
  }
}
