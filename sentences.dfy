/** `split_into_sentences`: the regular-expression split on `.`, `!` and `?`
    that keeps each terminator, followed by pairing every piece with the
    terminator after it. It is specified here by characters: the pieces
    concatenate back to the text, every piece but the last is one sentence
    ending with its only terminator, and the last piece holds no terminator. */
module Sentences {
  import opened Common

  /** The characters of the class `[.!?]`. */
  predicate IsTerminator(c: char)
  {
    c == '.' || c == '!' || c == '?'
  }

  ghost predicate NoTerminator(s: string)
  {
    forall j :: 0 <= j < |s| ==> !IsTerminator(s[j])
  }

  /** A complete sentence: text without terminators followed by one terminator. */
  ghost predicate IsSentence(s: string)
  {
    |s| >= 1 && IsTerminator(s[|s| - 1]) && NoTerminator(s[..|s| - 1])
  }

  function CountTerminators(s: string): nat
  {
    if s == [] then 0
    else (if IsTerminator(s[0]) then 1 else 0) + CountTerminators(s[1..])
  }

  /** `''.join` over a list of pieces. */
  function Concat(pieces: seq<string>): string
  {
    if pieces == [] then "" else pieces[0] + Concat(pieces[1..])
  }

  /** Where the regular expression first matches, if anywhere. */
  function FirstTerminator(t: string): (r: Option<nat>)
    ensures r.Some? ==> r.value < |t|
  {
    if t == [] then None
    else if IsTerminator(t[0]) then Some(0)
    else match FirstTerminator(t[1..])
      case None => None
      case Some(i) => Some(i + 1)
  }

  /** The match is the first terminator of `t`; there is none exactly when
      `t` holds no terminator. */
  lemma {:induction false} FirstTerminatorSpec(t: string)
    ensures var r := FirstTerminator(t);
      && (r.None? ==> NoTerminator(t))
      && (r.Some? ==> IsTerminator(t[r.value]) && NoTerminator(t[..r.value]))
    decreases |t|
  {
    if t != [] && !IsTerminator(t[0]) {
      FirstTerminatorSpec(t[1..]);
      var r := FirstTerminator(t[1..]);
      if r.Some? {
        assert t[..r.value + 1] == [t[0]] + t[1..][..r.value];
      }
    }
  }

  /** The split of a text: its complete sentences, each with its terminator,
      and the undelimited tail after the last terminator. */
  datatype Segmentation = Segmentation(sentences: seq<string>, tail: string)

  /** Cutting after each terminator from the front: the piece up to and
      including the first terminator, then the segmentation of the rest. */
  function Segment(t: string): Segmentation
    decreases |t|
  {
    match FirstTerminator(t)
    case None => Segmentation([], t)
    case Some(i) =>
      var rest := Segment(t[i + 1..]);
      Segmentation([t[..i + 1]] + rest.sentences, rest.tail)
  }

  /** The list `split_into_sentences(t)` returns: the complete sentences
      followed by the tail, which is `''` when `t` ends with a terminator. */
  function SplitIntoSentences(t: string): seq<string>
  {
    Segment(t).sentences + [Segment(t).tail]
  }

  /** One sentence per terminator of `t`. */
  lemma {:induction false} SegmentCount(t: string)
    ensures |Segment(t).sentences| == CountTerminators(t)
    decreases |t|
  {
    FirstTerminatorSpec(t);
    match FirstTerminator(t)
    case None =>
      NoTerminatorCountsZero(t);
    case Some(i) =>
      SegmentCount(t[i + 1..]);
      CountSplit(t, i);
  }

  /** The sentences followed by the tail concatenate back to `t`. */
  lemma {:induction false} SegmentConcat(t: string)
    ensures Concat(Segment(t).sentences) + Segment(t).tail == t
    decreases |t|
  {
    match FirstTerminator(t)
    case None =>
      assert Concat([]) + t == t;
    case Some(i) =>
      var rest := Segment(t[i + 1..]);
      SegmentConcat(t[i + 1..]);
      var g := Segment(t);
      assert g.sentences[1..] == rest.sentences;
      assert Concat(g.sentences) + g.tail == t[..i + 1] + (Concat(rest.sentences) + rest.tail);
      JoinAt(t, i + 1);
  }

  /** Each sentence ends with its only terminator; the tail holds none. */
  lemma {:induction false} SegmentPieces(t: string)
    ensures forall k :: 0 <= k < |Segment(t).sentences| ==> IsSentence(Segment(t).sentences[k])
    ensures NoTerminator(Segment(t).tail)
    decreases |t|
  {
    FirstTerminatorSpec(t);
    match FirstTerminator(t)
    case None =>
    case Some(i) =>
      var rest := Segment(t[i + 1..]);
      SegmentPieces(t[i + 1..]);
      var g := Segment(t);
      assert IsSentence(g.sentences[0]) by {
        assert t[..i + 1][..i] == t[..i];
      }
      forall k | 0 < k < |g.sentences| ensures IsSentence(g.sentences[k]) {
        assert g.sentences[k] == rest.sentences[k - 1];
      }
  }

  /** The sentences and the tail concatenate back to `t`; there is one
      sentence per terminator of `t`; each sentence ends with its only
      terminator; the tail holds none. */
  lemma {:induction false} SegmentSpec(t: string)
    ensures var g := Segment(t);
      && |g.sentences| == CountTerminators(t)
      && Concat(g.sentences) + g.tail == t
      && (forall k :: 0 <= k < |g.sentences| ==> IsSentence(g.sentences[k]))
      && NoTerminator(g.tail)
  {
    SegmentCount(t);
    SegmentConcat(t);
    SegmentPieces(t);
  }

  /** `split_into_sentences(t)`: the pieces concatenate back to `t`; there is
      one more piece than `t` has terminators; every piece but the last ends
      with its only terminator; the last piece holds no terminator. */
  lemma {:induction false} SplitIntoSentencesSpec(t: string)
    ensures var r := SplitIntoSentences(t);
      && |r| == CountTerminators(t) + 1
      && Concat(r) == t
      && (forall k :: 0 <= k < |r| - 1 ==> IsSentence(r[k]))
      && NoTerminator(r[|r| - 1])
  {
    var g := Segment(t);
    SegmentSpec(t);
    ConcatAppend(g.sentences, [g.tail]);
    assert Concat([g.tail]) == g.tail + Concat([]);
    var r := SplitIntoSentences(t);
    forall k | 0 <= k < |r| - 1 ensures IsSentence(r[k]) {
      assert r[k] == g.sentences[k];
    }
  }

  /** Text arriving in two parts: the sentences of the whole are those of the
      first part followed by those of its tail joined with the second part,
      and the final tails agree. */
  lemma {:induction false} SegmentAppend(x: string, y: string)
    ensures Segment(x + y).sentences == Segment(x).sentences + Segment(Segment(x).tail + y).sentences
    ensures Segment(x + y).tail == Segment(Segment(x).tail + y).tail
    decreases |x|
  {
    match FirstTerminator(x)
    case None =>
      assert [] + Segment(x + y).sentences == Segment(x + y).sentences;
    case Some(i) =>
      var head := x[..i + 1];
      var rest := x[i + 1..];
      assert FirstTerminator(x + y) == Some(i) && (x + y)[..i + 1] == head && (x + y)[i + 1..] == rest + y by {
        FirstTerminatorSpec(x);
        assert IsSentence(head) by {
          assert head[..i] == x[..i];
        }
        JoinAt(x, i + 1);
        assert x + y == head + (rest + y);
        FirstTerminatorOfSentence(head, rest + y);
      }
      SegmentAppend(rest, y);
      var a := Segment(rest).sentences;
      var b := Segment(Segment(rest).tail + y).sentences;
      assert [head] + (a + b) == ([head] + a) + b;
  }

  lemma JoinAt(t: string, n: nat)
    requires n <= |t|
    ensures t[..n] + t[n..] == t
  {
  }

  lemma {:induction false} NoTerminatorCountsZero(t: string)
    requires NoTerminator(t)
    ensures CountTerminators(t) == 0
    decreases |t|
  {
    if t != [] {
      NoTerminatorCountsZero(t[1..]);
    }
  }

  lemma {:induction false} CountAppend(a: string, b: string)
    ensures CountTerminators(a + b) == CountTerminators(a) + CountTerminators(b)
    decreases |a|
  {
    if a == [] {
      assert a + b == b;
    } else {
      assert (a + b)[1..] == a[1..] + b;
      CountAppend(a[1..], b);
    }
  }

  /** Counting around the first terminator at `i`. */
  lemma {:induction false} CountSplit(t: string, i: nat)
    requires i < |t| && IsTerminator(t[i]) && NoTerminator(t[..i])
    ensures CountTerminators(t) == 1 + CountTerminators(t[i + 1..])
  {
    assert t == t[..i] + ([t[i]] + t[i + 1..]);
    CountAppend(t[..i], [t[i]] + t[i + 1..]);
    NoTerminatorCountsZero(t[..i]);
    assert ([t[i]] + t[i + 1..])[1..] == t[i + 1..];
  }

  lemma {:induction false} ConcatAppend(p: seq<string>, q: seq<string>)
    ensures Concat(p + q) == Concat(p) + Concat(q)
    decreases |p|
  {
    if p == [] {
      assert p + q == q;
    } else {
      assert (p + q)[1..] == p[1..] + q;
      ConcatAppend(p[1..], q);
    }
  }

  /** Appending one more piece. */
  lemma ConcatSnoc(p: seq<string>, last: string)
    ensures Concat(p + [last]) == Concat(p) + last
  {
    ConcatAppend(p, [last]);
    assert Concat([last]) == last + Concat([]);
    assert last + "" == last;
  }

  /** Extending a prefix of `p` by its next piece. */
  lemma ConcatPrefix(p: seq<string>, i: nat)
    requires i < |p|
    ensures Concat(p[..i + 1]) == Concat(p[..i]) + p[i]
  {
    assert p[..i + 1] == p[..i] + [p[i]];
    ConcatSnoc(p[..i], p[i]);
  }

  /** Joining a sentence to text without terminators: the result's first
      terminator is the sentence's last character. */
  lemma {:induction false} FirstTerminatorOfSentence(s: string, rest: string)
    requires IsSentence(s)
    ensures FirstTerminator(s + rest) == Some(|s| - 1)
    decreases |s|
  {
    var t := s + rest;
    if |s| > 1 {
      assert t[1..] == s[1..] + rest;
      assert s[1..][..|s| - 2] == s[..|s| - 1][1..];
      FirstTerminatorOfSentence(s[1..], rest);
    }
  }

  /** A text starting with a complete sentence segments into that sentence
      followed by the segmentation of the rest. */
  lemma {:induction false} SegmentOfSentence(s: string, rest: string)
    requires IsSentence(s)
    ensures Segment(s + rest) == Segmentation([s] + Segment(rest).sentences, Segment(rest).tail)
  {
    FirstTerminatorOfSentence(s, rest);
    assert (s + rest)[..|s|] == s;
    assert (s + rest)[|s|..] == rest;
  }

  /** The split is the only way to cut `t` into sentences followed by a
      terminator-free tail: any such cut is the one `split_into_sentences`
      returns. */
  lemma {:induction false} SplitIsUnique(t: string, pieces: seq<string>)
    requires |pieces| >= 1
    requires Concat(pieces) == t
    requires forall k :: 0 <= k < |pieces| - 1 ==> IsSentence(pieces[k])
    requires NoTerminator(pieces[|pieces| - 1])
    ensures pieces == SplitIntoSentences(t)
    decreases |pieces|
  {
    if |pieces| == 1 {
      assert pieces[1..] == [];
      assert Concat(pieces) == pieces[0] + Concat(pieces[1..]);
      assert Concat(pieces[1..]) == "";
      assert pieces[0] + "" == pieces[0];
      FirstTerminatorSpec(t);
      assert FirstTerminator(t) == None;
      assert pieces == [t];
    } else {
      var s := pieces[0];
      var rest := Concat(pieces[1..]);
      FirstTerminatorOfSentence(s, rest);
      assert t[..|s|] == s && t[|s|..] == rest;
      SplitIsUnique(rest, pieces[1..]);
      assert pieces == [s] + pieces[1..];
    }
  }
}
