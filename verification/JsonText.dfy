/** A text as the pieces between its quotes, and the search for a quoted key. */
module JsonText {
  import opened Wrappers
  import opened Delimited

  const QUOTE: char := '\"'

  /** Pieces with a quote between each two. */
  function Join(pieces: seq<string>): string {
    if pieces == [] then []
    else if |pieces| == 1 then pieces[0]
    else pieces[0] + [QUOTE] + Join(pieces[1..])
  }

  ghost predicate QuoteFree(pieces: seq<string>) {
    forall p :: p in pieces ==> QUOTE !in p
  }

  lemma {:induction false} JoinConcat(a: seq<string>, b: seq<string>)
    requires a != [] && b != []
    ensures Join(a + b) == Join(a) + [QUOTE] + Join(b)
  {
    assert (a + b)[1..] == a[1..] + b;
    if |a| == 1 {
      assert a + b == [a[0]] + b;
    } else {
      JoinConcat(a[1..], b);
      Nest(a[0], Join(a[1..]), Join(b));
    }
  }

  lemma Nest(a: string, b: string, c: string)
    ensures a + [QUOTE] + (b + [QUOTE] + c) == (a + [QUOTE] + b) + [QUOTE] + c
  {
  }

  /** What follows the pieces before position `k`. */
  function From(pieces: seq<string>, k: nat): string
    requires k < |pieces|
  {
    if k + 1 < |pieces| then [QUOTE] + Join(pieces[k + 1..]) else []
  }

  lemma JoinFirst(pieces: seq<string>)
    requires pieces != []
    ensures Join(pieces) == pieces[0] + From(pieces, 0)
  {
    if |pieces| == 1 {
      assert pieces[0] + [] == pieces[0];
    } else {
      assert pieces[0] + [QUOTE] + Join(pieces[1..]) == pieces[0] + ([QUOTE] + Join(pieces[1..]));
    }
  }

  lemma JoinSplit(pieces: seq<string>, k: nat)
    requires 0 < k < |pieces|
    ensures Join(pieces) == Join(pieces[..k]) + [QUOTE] + (pieces[k] + From(pieces, k))
  {
    hide Join;
    assert pieces == pieces[..k] + pieces[k..];
    JoinConcat(pieces[..k], pieces[k..]);
    JoinFirst(pieces[k..]);
    assert k + 1 < |pieces| ==> pieces[k..][1..] == pieces[k + 1..];
  }

  // ----- Searching -----

  /** A quote-free word followed by a quote starts a text exactly when it is the first piece. */
  lemma WordStarts(t: string, rest: string, word: string, more: string)
    requires QUOTE !in t && QUOTE !in word
    ensures word + [QUOTE] + more <= t + [QUOTE] + rest <==> t == word && more <= rest
  {
    var key, text := word + [QUOTE] + more, t + [QUOTE] + rest;
    if key <= text {
      assert key[|word|] == QUOTE && text[|word|] == QUOTE && text[|t|] == QUOTE;
      assert t == text[..|t|] && word == key[..|word|];
      assert rest == text[|t| + 1..] && more == key[|word| + 1..];
    }
  }

  lemma NoQuoteNoKey(t: string, word: string, more: string)
    requires QUOTE !in t
    ensures !(word + [QUOTE] + more <= t)
  {
    assert (word + [QUOTE] + more)[|word|] == QUOTE;
    assert |word| < |t| ==> t[|word|] in t;
  }

  lemma FirstPiece(pieces: seq<string>, word: string, more: string)
    requires pieces != [] && QuoteFree(pieces) && QUOTE !in word
    ensures word + [QUOTE] + more <= Join(pieces) <==> |pieces| > 1 && pieces[0] == word && more <= Join(pieces[1..])
  {
    assert pieces[0] in pieces;
    if |pieces| == 1 {
      NoQuoteNoKey(pieces[0], word, more);
    } else {
      WordStarts(pieces[0], Join(pieces[1..]), word, more);
    }
  }

  /** The first piece past the leading one that is `word`. */
  function WordIndex(pieces: seq<string>, word: string): (r: Option<nat>)
    ensures r.Some? ==> 0 < r.value < |pieces| && pieces[r.value] == word
    ensures r.Some? ==> forall j :: 0 < j < r.value ==> pieces[j] != word
    ensures r.None? ==> forall j :: 0 < j < |pieces| ==> pieces[j] != word
  {
    if |pieces| < 2 then None
    else if pieces[1] == word then Some(1)
    else
      var r := WordIndex(pieces[1..], word);
      assert forall j :: 1 < j < |pieces| ==> pieces[j] == pieces[1..][j - 1];
      if r.None? then None else Some(r.value + 1)
  }

  /** Searching for a quoted word, when what follows it matches, is searching the pieces. */
  lemma {:induction false} FindWord(pieces: seq<string>, word: string, more: string)
    requires pieces != [] && QuoteFree(pieces) && QUOTE !in word
    requires var r := WordIndex(pieces, word);
      r.Some? ==> r.value + 1 < |pieces| && more <= Join(pieces[r.value + 1..])
    ensures var r := WordIndex(pieces, word);
      Find(Join(pieces), [QUOTE] + (word + [QUOTE] + more)) ==
        if r.None? then None else Some(|Join(pieces[..r.value])|)
  {
    hide Join, WordIndex, Find;
    var key := word + [QUOTE] + more;
    assert pieces[0] in pieces;
    if |pieces| == 1 {
      Lone(pieces[0], word);
      assert pieces == [pieces[0]];
      NoQuoteFind(pieces[0], key);
    } else {
      var rest := pieces[1..];
      JoinTail(pieces);
      FindKey(pieces[0], QUOTE, Join(rest), key);
      FirstPiece(rest, word, more);
      assert rest[1..] == pieces[2..];
      if pieces[1] == word {
        NextWord(pieces, word);
      } else {
        LaterWord(pieces, word);
        FindWord(rest, word, more);
      }
    }
  }

  lemma JoinTail(pieces: seq<string>)
    requires |pieces| > 1
    ensures Join(pieces) == pieces[0] + [QUOTE] + Join(pieces[1..])
  {
  }

  lemma Lone(t: string, word: string)
    ensures Join([t]) == t && WordIndex([t], word) == None
  {
  }

  lemma NextWord(pieces: seq<string>, word: string)
    requires |pieces| > 1 && pieces[1] == word
    ensures WordIndex(pieces, word) == Some(1) && |Join(pieces[..1])| == |pieces[0]|
  {
    assert pieces[..1] == [pieces[0]];
  }

  lemma LaterWord(pieces: seq<string>, word: string)
    requires |pieces| > 1 && pieces[1] != word
    ensures WordIndex(pieces, word) == Shift(WordIndex(pieces[1..], word), 1)
    ensures var r := WordIndex(pieces[1..], word);
      r.Some? ==> && pieces[1..][r.value + 1..] == pieces[r.value + 2..]
                  && |Join(pieces[..r.value + 1])| == |pieces[0]| + 1 + |Join(pieces[1..][..r.value])|
  {
    var r := WordIndex(pieces[1..], word);
    if r.Some? {
      assert pieces[..r.value + 1][1..] == pieces[1..][..r.value];
    }
  }

  lemma NoQuoteFind(t: string, key: string)
    requires QUOTE !in t
    ensures Find(t, [QUOTE] + key) == None
  {
    forall j: nat ensures !At(t, [QUOTE] + key, j) {
      assert j < |t| ==> t[j] in t;
      Differs(t, [QUOTE] + key, j, 0);
    }
  }

  // ----- Replacing one piece -----

  lemma JoinOverwrite(pieces: seq<string>, k: nat, a: string, m: string, b: string, m': string)
    requires 0 < k < |pieces| && pieces[k] == a + m + b && |m'| == |m|
    ensures var off := |Join(pieces[..k])| + 1 + |a|;
      && off + |m| <= |Join(pieces)|
      && Join(pieces)[off..off + |m|] == m
      && Join(pieces[k := a + m' + b]) == Overwrite(Join(pieces), off, m')
  {
    hide Join, From, Overwrite;
    var pieces' := pieces[k := a + m' + b];
    JoinSplit(pieces, k);
    JoinSplit(pieces', k);
    assert pieces'[..k] == pieces[..k];
    FromOther(pieces, k, a + m' + b);
    Middle(Join(pieces[..k]), a, m, b, From(pieces, k), m');
  }

  lemma FromOther(pieces: seq<string>, k: nat, p: string)
    requires k < |pieces|
    ensures From(pieces[k := p], k) == From(pieces, k)
  {
    assert pieces[k := p][k + 1..] == pieces[k + 1..];
  }

  lemma Middle(head: string, a: string, m: string, b: string, tail: string, m': string)
    requires |m'| == |m|
    ensures var text, off := head + [QUOTE] + ((a + m + b) + tail), |head| + 1 + |a|;
      && text[off..off + |m|] == m
      && head + [QUOTE] + ((a + m' + b) + tail) == Overwrite(text, off, m')
  {
    var text := head + [QUOTE] + ((a + m + b) + tail);
    assert text == (head + [QUOTE] + a) + m + (b + tail);
    assert head + [QUOTE] + ((a + m' + b) + tail) == (head + [QUOTE] + a) + m' + (b + tail);
    OverwriteMiddle(head + [QUOTE] + a, m, b + tail, m');
  }

  /** The length of a join depends on the lengths of its pieces only. */
  lemma {:induction false} SameLengths(a: seq<string>, b: seq<string>)
    requires |a| == |b| && forall i :: 0 <= i < |a| ==> |a[i]| == |b[i]|
    ensures |Join(a)| == |Join(b)|
  {
    if |a| > 1 {
      SameLengths(a[1..], b[1..]);
    }
  }

  /** Different pieces make different texts. */
  lemma {:induction false} JoinInjective(a: seq<string>, b: seq<string>)
    requires a != [] && b != [] && QuoteFree(a) && QuoteFree(b) && Join(a) == Join(b)
    ensures a == b
  {
    assert a[0] in a && b[0] in b;
    HasQuote(a);
    HasQuote(b);
    if |a| > 1 {
      WordStarts(a[0], Join(a[1..]), b[0], Join(b[1..]));
      WordStarts(b[0], Join(b[1..]), a[0], Join(a[1..]));
      assert Join(a[1..]) == Join(b[1..]);
      JoinInjective(a[1..], b[1..]);
      assert a == [a[0]] + a[1..] && b == [b[0]] + b[1..];
    }
  }

  lemma HasQuote(pieces: seq<string>)
    requires pieces != [] && QuoteFree(pieces)
    ensures QUOTE in Join(pieces) <==> |pieces| > 1
  {
    assert pieces[0] in pieces;
    assert |pieces| > 1 ==> Join(pieces)[|pieces[0]|] == QUOTE;
  }
}
