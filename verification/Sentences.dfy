/** Paragraphs and how they split into sentences (`_split_paragraph_by_sentence` in
    src/ai_sdr/kb/chunker.py). */
module Sentences {
  import opened Strings

  predicate HasBlankLine(t: string) {
    exists i, j :: 0 <= i < j < |t| && t[i] == '\n' && t[j] == '\n' && IsBlank(t[i..j])
  }

  predicate IsParagraph(t: string) {
    IsPart(t) && !HasBlankLine(t)
  }

  /** A sentence ends at the full stop `t[i]`: white space follows. */
  predicate EndsAt(t: string, i: int) {
    0 <= i && i + 1 < |t| && t[i] == '.' && IsSpace(t[i + 1])
  }

  predicate IsSentence(t: string) {
    IsParagraph(t) && forall i | 0 <= i < |t| - 1 && t[i] == '.' :: !IsSpace(t[i + 1])
  }

  predicate EndsInStop(t: string) {
    t != "" && t[|t| - 1] == '.'
  }

  /** All sentences but the last end in a full stop. */
  predicate AreSentences(ss: seq<string>) {
    && ss != []
    && forall i | 0 <= i < |ss| :: IsSentence(ss[i]) && (i < |ss| - 1 ==> EndsInStop(ss[i]))
  }

  function FirstEnd(t: string, i: nat): (k: nat)
    requires i <= |t|
    ensures i <= k <= |t| && (k < |t| ==> EndsAt(t, k))
    ensures forall j | i <= j < k :: !EndsAt(t, j)
    decreases |t| - i
  {
    if i == |t| || EndsAt(t, i) then i else FirstEnd(t, i + 1)
  }

  function LeftStrip(t: string): (r: string)
    ensures |r| <= |t|
  {
    if t != "" && IsSpace(t[0]) then LeftStrip(t[1..]) else t
  }

  lemma DropDrop(t: string, a: nat, m: nat)
    requires a + m <= |t|
    ensures t[a..][m..] == t[a + m..]
  {
  }

  lemma {:induction false} LeftStripIsSuffix(t: string) returns (m: nat)
    ensures m <= |t| && LeftStrip(t) == t[m..]
    ensures m < |t| ==> !IsSpace(t[m])
    ensures t != "" && !IsSpace(t[|t| - 1]) ==> m < |t|
  {
    if t != "" && IsSpace(t[0]) {
      var k := LeftStripIsSuffix(t[1..]);
      DropDrop(t, 1, k);
      assert |t| > 1 ==> t[1..][|t| - 2] == t[|t| - 1];
      return k + 1;
    }
    assert t[0..] == t;
    return 0;
  }

  /** White space after a full stop separates sentences. */
  function SplitSentences(t: string): (r: seq<string>)
    ensures r != []
    decreases |t|
  {
    var k := FirstEnd(t, 0);
    if k == |t| then [t] else [t[..k + 1]] + SplitSentences(LeftStrip(t[k + 1..]))
  }

  lemma SliceOfSlice(t: string, a: nat, b: nat, i: nat, j: nat)
    requires a <= b <= |t| && i <= j <= b - a
    ensures t[a..b][i..j] == t[a + i..a + j]
  {
    var u, v := t[a..b][i..j], t[a + i..a + j];
    assert |u| == |v|;
    forall k | 0 <= k < |u| ensures u[k] == v[k] {
      assert t[a..b][i..j][k] == t[a..b][i + k] == t[a + i + k];
    }
  }

  lemma SliceHasNoBlankLine(t: string, a: nat, b: nat)
    requires a <= b <= |t| && !HasBlankLine(t)
    ensures !HasBlankLine(t[a..b])
  {
    var u := t[a..b];
    forall i, j | 0 <= i < j < |u| && u[i] == '\n' && u[j] == '\n' ensures !IsBlank(u[i..j]) {
      assert t[a + i] == '\n' && t[a + j] == '\n';
      assert !IsBlank(t[a + i..a + j]);
      SliceOfSlice(t, a, b, i, j);
    }
  }

  lemma NoEndInside(t: string)
    requires IsParagraph(t) && forall i | 0 <= i < |t| :: !EndsAt(t, i)
    ensures IsSentence(t)
  {
    hide IsParagraph;
    assert forall i | 0 <= i < |t| - 1 && t[i] == '.' :: !EndsAt(t, i);
  }

  lemma FirstIsSentence(t: string, k: nat)
    requires IsParagraph(t) && k < |t| && EndsAt(t, k) && forall i | 0 <= i < k :: !EndsAt(t, i)
    ensures IsSentence(t[..k + 1])
  {
    var first := t[..k + 1];
    SliceHasNoBlankLine(t, 0, k + 1);
    assert first == t[0..k + 1];
    hide HasBlankLine;
    forall i | 0 <= i < |first| ensures !EndsAt(first, i) {
      assert EndsAt(first, i) ==> EndsAt(t, i);
    }
    NoEndInside(first);
  }

  lemma RestIsParagraph(t: string, k: nat)
    requires IsParagraph(t) && k < |t| && EndsAt(t, k)
    ensures IsParagraph(LeftStrip(t[k + 1..]))
  {
    hide HasBlankLine;
    var tail := t[k + 1..];
    assert tail[|tail| - 1] == t[|t| - 1];
    var m := LeftStripIsSuffix(tail);
    hide LeftStrip;
    DropDrop(t, k + 1, m);
    var rest := t[k + 1 + m..];
    SliceHasNoBlankLine(t, k + 1 + m, |t|);
    assert t[k + 1 + m..|t|] == rest && rest[|rest| - 1] == t[|t| - 1] && rest[0] == tail[m];
  }

  lemma SentencesCons(s: string, more: seq<string>)
    requires IsSentence(s) && EndsInStop(s) && AreSentences(more)
    ensures AreSentences([s] + more)
  {
    hide HasBlankLine, EndsAt;
    var all := [s] + more;
    forall i | 0 <= i < |all| ensures IsSentence(all[i]) && (i < |all| - 1 ==> EndsInStop(all[i])) {
      if i > 0 {
        assert all[i] == more[i - 1];
      }
    }
  }

  /** A paragraph splits into sentences. */
  lemma {:induction false} ParagraphSplits(t: string)
    requires IsParagraph(t)
    ensures AreSentences(SplitSentences(t))
    decreases |t|
  {
    hide IsParagraph, AreSentences;
    var k := FirstEnd(t, 0);
    if k < |t| {
      FirstIsSentence(t, k);
      RestIsParagraph(t, k);
      ParagraphSplits(LeftStrip(t[k + 1..]));
      SentencesCons(t[..k + 1], SplitSentences(LeftStrip(t[k + 1..])));
    } else {
      OneSentence(t);
    }
  }

  lemma OneSentence(t: string)
    requires IsParagraph(t) && forall i | 0 <= i < |t| :: !EndsAt(t, i)
    ensures AreSentences([t])
  {
    NoEndInside(t);
  }

  lemma CrossingIsNotBlank(t: string, n: nat, i: nat, j: nat)
    requires 0 < n < |t| && !IsSpace(t[n - 1]) && i < n <= j < |t|
    ensures !IsBlank(t[i..j])
  {
    assert t[i..j][n - 1 - i] == t[n - 1];
  }

  lemma JoinHasNoBlankLine(a: string, b: string)
    requires IsParagraph(a) && IsParagraph(b)
    ensures !HasBlankLine(a + " " + b)
  {
    var t, n := a + " " + b, |a|;
    assert t[..n] == a && t[n] == ' ' && t[n + 1..] == b;
    forall i, j | 0 <= i < j < |t| && t[i] == '\n' && t[j] == '\n' ensures !IsBlank(t[i..j]) {
      if j < n {
        assert a[i..j] == t[i..j] && a[i] == '\n' && a[j] == '\n';
      } else if i > n {
        assert b[i - n - 1..j - n - 1] == t[i..j] && b[i - n - 1] == '\n' && b[j - n - 1] == '\n';
      } else {
        CrossingIsNotBlank(t, n, i, j);
      }
    }
  }

  lemma SpaceStrips(rest: string)
    requires rest != "" && !IsSpace(rest[0])
    ensures LeftStrip(" " + rest) == rest
  {
    assert (" " + rest)[1..] == rest;
  }

  lemma FirstEndOfJoin(first: string, rest: string)
    requires IsSentence(first) && EndsInStop(first)
    ensures FirstEnd(first + " " + rest, 0) == |first| - 1
  {
    var t, n := first + " " + rest, |first|;
    hide HasBlankLine, FirstEnd;
    assert t[n - 1] == '.' && t[n] == ' ' && EndsAt(t, n - 1);
    forall i | 0 <= i < n - 1 ensures !EndsAt(t, i) {
      assert t[i] == first[i] && t[i + 1] == first[i + 1] && !EndsAt(first, i);
    }
  }

  lemma JoinIsParagraph(first: string, rest: string)
    requires IsParagraph(first) && IsParagraph(rest)
    ensures IsParagraph(first + " " + rest)
  {
    var t := first + " " + rest;
    JoinHasNoBlankLine(first, rest);
    assert t[0] == first[0] && t[|t| - 1] == rest[|rest| - 1];
  }

  lemma SplitsAtEnd(t: string, k: nat)
    requires k < |t| && FirstEnd(t, 0) == k
    ensures SplitSentences(t) == [t[..k + 1]] + SplitSentences(LeftStrip(t[k + 1..]))
  {
    hide FirstEnd, LeftStrip;
  }

  lemma SplitsFirst(first: string, rest: string)
    requires IsSentence(first) && EndsInStop(first) && IsParagraph(rest)
    ensures IsParagraph(first + " " + rest)
    ensures SplitSentences(first + " " + rest) == [first] + SplitSentences(rest)
  {
    var t, n := first + " " + rest, |first|;
    JoinIsParagraph(first, rest);
    FirstEndOfJoin(first, rest);
    SpaceStrips(rest);
    SplitsAtEnd(t, n - 1);
    hide IsSentence, IsParagraph, SplitSentences, FirstEnd, LeftStrip;
    assert t[..n] == first && t[n..] == " " + rest;
  }

  lemma SentencesTail(ss: seq<string>)
    requires AreSentences(ss)
    ensures IsSentence(ss[0])
    ensures |ss| > 1 ==> EndsInStop(ss[0]) && AreSentences(ss[1..])
  {
    hide HasBlankLine, EndsAt;
    if |ss| > 1 {
      assert forall i | 0 <= i < |ss[1..]| :: ss[1..][i] == ss[i + 1];
    }
  }

  lemma JoinCons(ss: seq<string>)
    requires |ss| > 1
    ensures Join(" ", ss) == ss[0] + " " + Join(" ", ss[1..])
  {
  }

  lemma SentenceStaysWhole(t: string)
    requires IsSentence(t)
    ensures SplitSentences(t) == [t]
  {
    assert FirstEnd(t, 0) == |t|;
  }

  /** Sentences joined by a space are a paragraph that splits into them again. */
  lemma {:induction false} SplitJoins(ss: seq<string>)
    requires AreSentences(ss)
    ensures IsParagraph(Join(" ", ss)) && SplitSentences(Join(" ", ss)) == ss
    decreases |ss|
  {
    SentencesTail(ss);
    SentenceStaysWhole(ss[0]);
    hide AreSentences, SplitSentences, HasBlankLine, EndsAt, IsPart, IsSpace;
    if |ss| > 1 {
      JoinCons(ss);
      SplitJoins(ss[1..]);
      SplitsFirst(ss[0], Join(" ", ss[1..]));
      assert [ss[0]] + ss[1..] == ss;
    } else {
      assert ss == [ss[0]];
    }
  }

  /** The characters that are no white space. */
  function Ink(t: string): (r: string) {
    if t == "" then "" else (if IsSpace(t[0]) then "" else [t[0]]) + Ink(t[1..])
  }

  function InkOf(ss: seq<string>): string {
    if ss == [] then "" else Ink(ss[0]) + InkOf(ss[1..])
  }

  lemma {:induction false} InkConcat(a: string, b: string)
    ensures Ink(a + b) == Ink(a) + Ink(b)
  {
    if a == "" {
      assert a + b == b;
    } else {
      assert (a + b)[1..] == a[1..] + b;
      InkConcat(a[1..], b);
    }
  }

  lemma {:induction false} LeftStripKeepsInk(t: string)
    ensures Ink(LeftStrip(t)) == Ink(t)
  {
    if t != "" && IsSpace(t[0]) {
      LeftStripKeepsInk(t[1..]);
    }
  }

  /** Splitting any text loses nothing but white space, and keeps the order. */
  lemma {:induction false} SplitKeepsInk(t: string)
    ensures InkOf(SplitSentences(t)) == Ink(t)
    decreases |t|
  {
    var k := FirstEnd(t, 0);
    if k < |t| {
      var rest := LeftStrip(t[k + 1..]);
      SplitKeepsInk(rest);
      LeftStripKeepsInk(t[k + 1..]);
      assert t == t[..k + 1] + t[k + 1..];
      InkConcat(t[..k + 1], t[k + 1..]);
      SplitsAtEnd(t, k);
    } else {
      SplitsWhole(t);
      assert InkOf([t]) == Ink(t) + InkOf([t][1..]) == Ink(t);
    }
  }

  lemma SplitsWhole(t: string)
    requires FirstEnd(t, 0) == |t|
    ensures SplitSentences(t) == [t]
  {
  }
}
