/** The Markdown chunker (src/ai_sdr/kb/chunker.py).

    Lines arrive already classified by the heading pattern, and paragraph and
    sentence splitting are parameters, as is the token counter. */
module Chunker {
  import opened Batching
  import opened Sentences
  import opened Strings
  import opened Wrappers

  datatype Line = Heading(depth: nat, title: string) | Text(text: string)

  datatype Head = Head(depth: nat, title: string)

  datatype Section = Section(path: Option<string>, body: seq<string>)

  // ---------------------------------------------------------------- headings

  /** Heading `j` still governs the lines just before line `i`: nothing as shallow
      has come since. */
  ghost predicate Governs(lines: seq<Line>, j: nat, i: nat)
    requires j < i <= |lines|
  {
    && lines[j].Heading?
    && forall k | j < k < i && lines[k].Heading? :: lines[k].depth > lines[j].depth
  }

  /** The governing headings at line `i` among lines `j..i`, in document order. */
  ghost function Governing(lines: seq<Line>, i: nat, j: nat): (r: seq<Head>)
    requires j <= i <= |lines|
    decreases i - j
  {
    if j == i then []
    else if Governs(lines, j, i) then [Head(lines[j].depth, lines[j].title)] + Governing(lines, i, j + 1)
    else Governing(lines, i, j + 1)
  }

  function PathOf(heads: seq<Head>): Option<string> {
    if heads == [] then None
    else Some(Join(" > ", seq(|heads|, i requires 0 <= i < |heads| => heads[i].title)))
  }

  ghost function PathAt(lines: seq<Line>, i: nat): Option<string>
    requires i <= |lines|
  {
    PathOf(Governing(lines, i, 0))
  }

  ghost function Shallower(heads: seq<Head>, depth: nat): (r: seq<Head>) {
    if heads == [] then []
    else (if heads[0].depth < depth then [heads[0]] else []) + Shallower(heads[1..], depth)
  }

  ghost predicate Deepening(heads: seq<Head>) {
    forall a, b | 0 <= a < b < |heads| :: heads[a].depth < heads[b].depth
  }

  lemma {:induction false} GoverningDeepens(lines: seq<Line>, i: nat, j: nat)
    requires j <= i <= |lines|
    ensures Deepening(Governing(lines, i, j))
    ensures forall h, g: nat | h in Governing(lines, i, j) && g < j && Governs(lines, g, i) :: h.depth > lines[g].depth
    decreases i - j
  {
    if j < i {
      GoverningDeepens(lines, i, j + 1);
      if Governs(lines, j, i) {
        var rest := Governing(lines, i, j + 1);
        forall b | 0 <= b < |rest| ensures rest[b].depth > lines[j].depth {
          assert rest[b] in rest;
        }
      }
    }
  }

  lemma {:induction false} TextKeepsGoverning(lines: seq<Line>, i: nat, j: nat)
    requires j <= i < |lines| && lines[i].Text?
    ensures Governing(lines, i + 1, j) == Governing(lines, i, j)
    decreases i - j
  {
    if j < i {
      TextKeepsGoverning(lines, i, j + 1);
      assert Governs(lines, j, i + 1) <==> Governs(lines, j, i);
    }
  }

  lemma {:induction false} HeadingPrunesGoverning(lines: seq<Line>, i: nat, j: nat)
    requires j <= i < |lines| && lines[i].Heading?
    ensures Governing(lines, i + 1, j)
         == Shallower(Governing(lines, i, j), lines[i].depth) + [Head(lines[i].depth, lines[i].title)]
    decreases i - j
  {
    if j < i {
      HeadingPrunesGoverning(lines, i, j + 1);
      assert Governs(lines, j, i + 1) <==> Governs(lines, j, i) && lines[i].depth > lines[j].depth;
      if Governs(lines, j, i) {
        var h := Head(lines[j].depth, lines[j].title);
        assert ([h] + Governing(lines, i, j + 1))[1..] == Governing(lines, i, j + 1);
      }
    } else {
      assert Governs(lines, i, i + 1);
    }
  }

  lemma {:induction false} PopKeepsShallower(heads: seq<Head>, depth: nat)
    requires heads != [] && heads[|heads| - 1].depth >= depth
    ensures Shallower(heads, depth) == Shallower(heads[..|heads| - 1], depth)
  {
    if |heads| > 1 {
      PopKeepsShallower(heads[1..], depth);
      assert heads[1..][..|heads| - 2] == heads[..|heads| - 1][1..];
    }
  }

  lemma {:induction false} ShallowerIsAll(heads: seq<Head>, depth: nat)
    requires forall h | h in heads :: h.depth < depth
    ensures Shallower(heads, depth) == heads
  {
    if heads != [] {
      assert heads[0] in heads;
      ShallowerIsAll(heads[1..], depth);
    }
  }

  /** The stack discipline of the loop: popping while the top is as deep, then pushing. */
  method PushHeading(stack: seq<Head>, depth: nat, title: string) returns (r: seq<Head>)
    requires Deepening(stack)
    ensures r == Shallower(stack, depth) + [Head(depth, title)]
  {
    r := stack;
    while r != [] && r[|r| - 1].depth >= depth
      invariant Deepening(r)
      invariant Shallower(r, depth) == Shallower(stack, depth)
      decreases |r|
    {
      PopKeepsShallower(r, depth);
      r := r[..|r| - 1];
    }
    ShallowerIsAll(r, depth);
    r := r + [Head(depth, title)];
  }

  // ---------------------------------------------------------------- sections

  ghost function Texts(lines: seq<Line>): (r: seq<string>) {
    if lines == [] then []
    else (if lines[0].Text? then [lines[0].text] else []) + Texts(lines[1..])
  }

  ghost function RunEnd(lines: seq<Line>, i: nat): (e: nat)
    requires i <= |lines|
    ensures i <= e <= |lines|
    decreases |lines| - i
  {
    if i < |lines| && lines[i].Text? then RunEnd(lines, i + 1) else i
  }

  /** The maximal runs of non-heading lines from line `i` on, each labelled with the
      headings that govern it. */
  ghost function TextRuns(lines: seq<Line>, i: nat): (r: seq<Section>)
    requires i <= |lines|
    decreases |lines| - i
  {
    if i == |lines| then []
    else if lines[i].Heading? then TextRuns(lines, i + 1)
    else
      var e := RunEnd(lines, i);
      [Section(PathAt(lines, i), Texts(lines[i..e]))] + TextRuns(lines, e)
  }

  ghost function Bodies(sections: seq<Section>): seq<seq<string>> {
    seq(|sections|, i requires 0 <= i < |sections| => sections[i].body)
  }

  ghost predicate IsRun(lines: seq<Line>, a: nat, b: nat) {
    a <= b <= |lines| && forall k | a <= k < b :: lines[k].Text?
  }

  lemma {:induction false} RunEndsAt(lines: seq<Line>, a: nat, b: nat)
    requires IsRun(lines, a, b) && (b == |lines| || lines[b].Heading?)
    ensures RunEnd(lines, a) == b
    decreases b - a
  {
    if a < b {
      RunEndsAt(lines, a + 1, b);
    }
  }

  lemma {:induction false} TextsConcat(a: seq<Line>, b: seq<Line>)
    ensures Texts(a + b) == Texts(a) + Texts(b)
  {
    if a == [] {
      assert a + b == b;
    } else {
      assert (a + b)[1..] == a[1..] + b;
      TextsConcat(a[1..], b);
      Appended(if a[0].Text? then [a[0].text] else [], Texts(a[1..]), Texts(b));
    }
  }

  /** The sections' bodies, in order, are exactly the document's non-heading lines. */
  lemma {:induction false} SectionsConserveLines(lines: seq<Line>, i: nat)
    requires i <= |lines|
    ensures Flatten(Bodies(TextRuns(lines, i))) == Texts(lines[i..])
    decreases |lines| - i
  {
    if i < |lines| {
      if lines[i].Heading? {
        SectionsConserveLines(lines, i + 1);
        assert lines[i..][1..] == lines[i + 1..];
      } else {
        var e := RunEnd(lines, i);
        SectionsConserveLines(lines, e);
        var runs := TextRuns(lines, i);
        assert Bodies(runs)[1..] == Bodies(TextRuns(lines, e));
        assert lines[i..] == lines[i..e] + lines[e..];
        TextsConcat(lines[i..e], lines[e..]);
      }
    }
  }

  /** A run that has come to its end is one section, unless it is empty. */
  lemma RunIsSection(lines: seq<Line>, a: nat, b: nat)
    requires IsRun(lines, a, b) && (b == |lines| || lines[b].Heading?)
    ensures TextRuns(lines, a)
         == (if a < b then [Section(PathAt(lines, a), Texts(lines[a..b]))] else []) + TextRuns(lines, b)
  {
    RunEndsAt(lines, a, b);
    if a == b {
      assert [] + TextRuns(lines, b) == TextRuns(lines, b);
    }
  }

  function Flush(sections: seq<Section>, path: Option<string>, body: seq<string>): seq<Section> {
    if body == [] then sections else sections + [Section(path, body)]
  }

  /** Where the walk stands before line `i`: the open body is lines `start..i`. */
  ghost predicate Walked(lines: seq<Line>, i: nat, start: nat, sections: seq<Section>, body: seq<string>)
    requires i <= |lines|
  {
    && start <= i && IsRun(lines, start, i)
    && body == Texts(lines[start..i]) && |body| == i - start
    && sections + TextRuns(lines, start) == TextRuns(lines, 0)
  }

  lemma WalkedText(lines: seq<Line>, i: nat, start: nat, sections: seq<Section>, body: seq<string>)
    requires i < |lines| && lines[i].Text? && Walked(lines, i, start, sections, body)
    ensures Walked(lines, i + 1, start, sections, body + [lines[i].text])
  {
    TextsConcat(lines[start..i], [lines[i]]);
    assert Texts([lines[i]]) == [lines[i].text] + Texts([]);
    assert lines[start..i + 1] == lines[start..i] + [lines[i]];
  }

  lemma WalkedFlush(lines: seq<Line>, i: nat, start: nat, sections: seq<Section>, body: seq<string>)
    requires i <= |lines| && (i == |lines| || lines[i].Heading?) && Walked(lines, i, start, sections, body)
    ensures var flushed := Flush(sections, PathAt(lines, start), body);
            if i == |lines| then flushed == TextRuns(lines, 0) else Walked(lines, i + 1, i + 1, flushed, [])
  {
    RunIsSection(lines, start, i);
    Appended(sections, if start < i then [Section(PathAt(lines, start), body)] else [], TextRuns(lines, i));
  }

  lemma WalkedFromStart(lines: seq<Line>)
    ensures Walked(lines, 0, 0, [], []) && Governing(lines, 0, 0) == []
  {
    assert [] + TextRuns(lines, 0) == TextRuns(lines, 0);
  }

  method Sectionize(lines: seq<Line>) returns (sections: seq<Section>)
    ensures sections == TextRuns(lines, 0)
  {
    hide Walked, Governing, TextRuns;
    var stack: seq<Head> := [];
    var body: seq<string> := [];
    var path: Option<string> := None;
    sections := [];
    ghost var start := 0;
    WalkedFromStart(lines);
    for i := 0 to |lines|
      invariant start <= i && Walked(lines, i, start, sections, body)
      invariant stack == Governing(lines, i, 0)
      invariant path == PathOf(stack) == PathAt(lines, start)
    {
      match lines[i] {
        case Heading(depth, title) =>
          WalkedFlush(lines, i, start, sections, body);
          sections := Flush(sections, path, body);
          body, start := [], i + 1;
          GoverningDeepens(lines, i, 0);
          HeadingPrunesGoverning(lines, i, 0);
          stack := PushHeading(stack, depth, title);
          path := PathOf(stack);
        case Text(text) =>
          TextKeepsGoverning(lines, i, 0);
          WalkedText(lines, i, start, sections, body);
          body := body + [text];
      }
    }
    WalkedFlush(lines, |lines|, start, sections, body);
    sections := Flush(sections, path, body);
  }

  // ----------------------------------------------------------------- packing

  datatype Paragraph = Paragraph(text: string, sentences: seq<string>)

  /** What a piece is made of: whole paragraphs, or sentences of one oversize
      paragraph (the `para`-th of its section). */
  datatype Atom = Para(text: string) | Sentence(para: nat, text: string)

  datatype Draft = Draft(idx: nat, path: Option<string>, content: string, tokens: nat)

  ghost predicate Compatible(a: Atom, b: Atom) {
    (a.Para? && b.Para?) || (a.Sentence? && b.Sentence? && a.para == b.para)
  }

  ghost function Wrap(from: Option<nat>, text: string): Atom {
    match from
    case None => Para(text)
    case Some(k) => Sentence(k, text)
  }

  ghost function WrapAll(from: Option<nat>, texts: seq<string>): (r: seq<Atom>) {
    seq(|texts|, i requires 0 <= i < |texts| => Wrap(from, texts[i]))
  }

  ghost function AtomTexts(g: seq<Atom>): seq<string> {
    seq(|g|, i requires 0 <= i < |g| => g[i].text)
  }

  ghost function Separator(from: Option<nat>): string {
    if from.Some? then " " else "\n\n"
  }

  /** The text of one piece. */
  ghost function Render(g: seq<Atom>): string {
    Join(if g != [] && g[0].Sentence? then " " else "\n\n", AtomTexts(g))
  }

  ghost function RenderAll(groups: seq<seq<Atom>>): seq<string> {
    seq(|groups|, i requires 0 <= i < |groups| => Render(groups[i]))
  }

  /** Paragraphs as the body splits into them. */
  ghost predicate Proper(paras: seq<Paragraph>) {
    forall p | p in paras :: IsParagraph(p.text) && p.sentences == SplitSentences(p.text)
  }

  datatype MarkdownChunker = MarkdownChunker(
    maxTokens: int, tok: string -> nat, paragraphs: string -> seq<Paragraph>)
  {
    /** Blank bodies have no paragraphs; paragraphs and sentences come stripped and nonempty,
        and no paragraph splits into nothing. */
    ghost predicate Valid() {
      && (forall body | IsBlank(body) :: paragraphs(body) == [])
      && (forall body :: Proper(paragraphs(body)))
    }

    ghost function Tokens(g: seq<Atom>): (t: nat) {
      if g == [] then 0 else tok(g[0].text) + Tokens(g[1..])
    }

    /** A piece is one atom, or atoms of one kind whose token counts add up to at
        most the cap. */
    ghost predicate Admissible(g: seq<Atom>) {
      |g| <= 1 || ((forall i, j | 0 <= i < j < |g| :: Compatible(g[i], g[j])) && Tokens(g) <= maxTokens)
    }

    /** Paragraphs within the cap stay whole; the others are split into sentences. */
    ghost function Atoms(paras: seq<Paragraph>, k: nat): (r: seq<Atom>)
      requires k <= |paras|
      decreases |paras| - k
    {
      if k == |paras| then []
      else (if tok(paras[k].text) > maxTokens then WrapAll(Some(k), paras[k].sentences)
            else [Para(paras[k].text)]) + Atoms(paras, k + 1)
    }

    lemma {:induction false} TokensConcat(a: seq<Atom>, b: seq<Atom>)
      ensures Tokens(a + b) == Tokens(a) + Tokens(b)
    {
      if a == [] {
        assert a + b == b;
      } else {
        assert (a + b)[1..] == a[1..] + b;
        TokensConcat(a[1..], b);
      }
    }

    lemma AdmissibleIsHereditary()
      ensures Hereditary(Admissible)
    {
      forall g: seq<Atom>, k: nat | 0 < k <= |g| && Admissible(g) ensures Admissible(g[..k]) {
        assert g == g[..k] + g[k..];
        TokensConcat(g[..k], g[k..]);
      }
      forall g: seq<Atom>, k: nat | k < |g| && Admissible(g) ensures Admissible(g[k..]) {
        assert g == g[..k] + g[k..];
        TokensConcat(g[..k], g[k..]);
      }
    }

    /** The pieces the greedy packer makes of `xs` when `buf` is open. */
    ghost function Pieces(buf: seq<Atom>, xs: seq<Atom>): seq<string> {
      RenderAll(Greedy(Admissible, buf, xs))
    }

    lemma TokensSnoc(from: Option<nat>, buf: seq<string>, x: string)
      ensures WrapAll(from, buf + [x]) == WrapAll(from, buf) + [Wrap(from, x)]
      ensures Tokens(WrapAll(from, buf + [x])) == Tokens(WrapAll(from, buf)) + tok(x)
    {
      assert WrapAll(from, buf + [x]) == WrapAll(from, buf) + [Wrap(from, x)];
      TokensConcat(WrapAll(from, buf), [Wrap(from, x)]);
      assert Tokens([Wrap(from, x)]) == tok(x) + Tokens([]);
    }

    /** One step of either packing loop: emit the open buffer when `x` would
        overflow it, else take `x` in. */
    lemma PackStep(from: Option<nat>, buf: seq<string>, x: string, rest: seq<Atom>)
      ensures Pieces(WrapAll(from, buf), [Wrap(from, x)] + rest)
           == if buf != [] && Tokens(WrapAll(from, buf)) + tok(x) > maxTokens
              then [Join(Separator(from), buf)] + Pieces(WrapAll(from, [x]), rest)
              else Pieces(WrapAll(from, buf + [x]), rest)
    {
      TokensSnoc(from, buf, x);
      var open, xs := WrapAll(from, buf), [Wrap(from, x)] + rest;
      assert xs[0] == Wrap(from, x) && xs[1..] == rest;
      if buf != [] {
        assert AtomTexts(open) == buf;
        assert WrapAll(from, [x]) == [Wrap(from, x)];
        var groups := Greedy(Admissible, [Wrap(from, x)], rest);
        assert RenderAll([open] + groups) == [Render(open)] + RenderAll(groups);
      }
    }

    /** What is left at the end of a loop. */
    lemma PackEnd(from: Option<nat>, buf: seq<string>)
      ensures Pieces(WrapAll(from, buf), []) == if buf == [] then [] else [Join(Separator(from), buf)]
    {
      assert AtomTexts(WrapAll(from, buf)) == buf;
    }

    /** The pieces emitted so far and those still to come make up the whole. */
    ghost predicate SentencesPacked(k: nat, sentences: seq<string>, i: nat, out: seq<string>, buf: seq<string>)
      requires i <= |sentences|
    {
      out + Pieces(WrapAll(Some(k), buf), WrapAll(Some(k), sentences[i..])) == Pieces([], WrapAll(Some(k), sentences))
    }

    lemma SentencesPackedStep(k: nat, sentences: seq<string>, i: nat, out: seq<string>, buf: seq<string>)
      requires i < |sentences| && SentencesPacked(k, sentences, i, out, buf)
      ensures if buf != [] && Tokens(WrapAll(Some(k), buf)) + tok(sentences[i]) > maxTokens
              then SentencesPacked(k, sentences, i + 1, out + [Join(" ", buf)], [sentences[i]])
              else SentencesPacked(k, sentences, i + 1, out, buf + [sentences[i]])
    {
      var from, s, rest := Some(k), sentences[i], WrapAll(Some(k), sentences[i + 1..]);
      assert WrapAll(from, sentences[i..]) == [Wrap(from, s)] + rest;
      PackStep(from, buf, s, rest);
      hide Pieces;
      Appended(out, [Join(" ", buf)], Pieces(WrapAll(from, [s]), rest));
    }

    method PackSentences(ghost k: nat, sentences: seq<string>) returns (out: seq<string>)
      ensures out == Pieces([], WrapAll(Some(k), sentences))
    {
      hide Pieces;
      out := [];
      var buf: seq<string>, bufTok := [], 0;
      assert WrapAll(Some(k), []) == [] && sentences[0..] == sentences;
      for i := 0 to |sentences|
        invariant bufTok == Tokens(WrapAll(Some(k), buf))
        invariant SentencesPacked(k, sentences, i, out, buf)
      {
        var s := sentences[i];
        var sTok := tok(s);
        SentencesPackedStep(k, sentences, i, out, buf);
        TokensSnoc(Some(k), buf, s);
        TokensSnoc(Some(k), [], s);
        if buf != [] && bufTok + sTok > maxTokens {
          out := out + [Join(" ", buf)];
          buf, bufTok := [s], sTok;
        } else {
          buf := buf + [s];
          bufTok := bufTok + sTok;
        }
      }
      PackEnd(Some(k), buf);
      assert WrapAll(Some(k), sentences[|sentences|..]) == [];
      if buf != [] {
        out := out + [Join(" ", buf)];
      }
    }

    lemma {:induction false} LaterAtoms(paras: seq<Paragraph>, k: nat)
      requires k <= |paras|
      ensures forall a | a in Atoms(paras, k) :: a.Para? || a.para >= k
      decreases |paras| - k
    {
      if k < |paras| {
        LaterAtoms(paras, k + 1);
      }
    }

    lemma IncompatibleSplits(buf: seq<Atom>, xs: seq<Atom>, ys: seq<Atom>)
      requires buf + xs != []
      requires ys == [] || !Compatible((buf + xs)[|buf + xs| - 1], ys[0])
      ensures Pieces(buf, xs + ys) == Pieces(buf, xs) + Pieces([], ys)
    {
      AdmissibleIsHereditary();
      if ys == [] {
        assert xs + ys == xs;
      } else {
        var pair := [(buf + xs)[|buf + xs| - 1], ys[0]];
        assert !Compatible(pair[0], pair[1]);
        GreedySplits(Admissible, buf, xs, ys);
      }
    }

    /** An oversize paragraph closes the open piece, and nothing joins its sentences. */
    lemma OversizeStandsAlone(buf: seq<string>, k: nat, sentences: seq<string>, rest: seq<Atom>)
      requires sentences != []
      requires forall a | a in rest :: a.Para? || a.para > k
      ensures Pieces(WrapAll(None, buf), WrapAll(Some(k), sentences) + rest)
           == (if buf == [] then [] else [Join("\n\n", buf)]) + (Pieces([], WrapAll(Some(k), sentences)) + Pieces([], rest))
    {
      var open, own := WrapAll(None, buf), WrapAll(Some(k), sentences);
      assert [] + own == own && open + [] == open;
      assert rest != [] ==> rest[0] in rest;
      IncompatibleSplits([], own, rest);
      if buf != [] {
        assert [] + (own + rest) == own + rest;
        IncompatibleSplits(open, [], own + rest);
      }
      PackEnd(None, buf);
    }

    /** The pieces emitted so far and those still to come make up the whole. */
    ghost predicate Packed(paras: seq<Paragraph>, k: nat, chunks: seq<string>, buf: seq<string>)
      requires k <= |paras|
    {
      chunks + Pieces(WrapAll(None, buf), Atoms(paras, k)) == Pieces([], Atoms(paras, 0))
    }

    lemma PackedOversize(paras: seq<Paragraph>, k: nat, chunks: seq<string>, buf: seq<string>)
      requires k < |paras| && tok(paras[k].text) > maxTokens && paras[k].sentences != []
      requires Packed(paras, k, chunks, buf)
      ensures Packed(paras, k + 1, Emit(chunks, buf) + Pieces([], WrapAll(Some(k), paras[k].sentences)), [])
    {
      var own, rest := WrapAll(Some(k), paras[k].sentences), Atoms(paras, k + 1);
      LaterAtoms(paras, k + 1);
      OversizeStandsAlone(buf, k, paras[k].sentences, rest);
      var closed := if buf == [] then [] else [Join("\n\n", buf)];
      Appended(chunks, closed, Pieces([], own) + Pieces([], rest));
      Appended(chunks + closed, Pieces([], own), Pieces([], rest));
      assert WrapAll(None, []) == [];
    }

    lemma PackedWhole(paras: seq<Paragraph>, k: nat, chunks: seq<string>, buf: seq<string>)
      requires k < |paras| && tok(paras[k].text) <= maxTokens
      requires Packed(paras, k, chunks, buf)
      ensures if buf != [] && Tokens(WrapAll(None, buf)) + tok(paras[k].text) > maxTokens
              then Packed(paras, k + 1, chunks + [Join("\n\n", buf)], [paras[k].text])
              else Packed(paras, k + 1, chunks, buf + [paras[k].text])
    {
      PackStep(None, buf, paras[k].text, Atoms(paras, k + 1));
      Appended(chunks, [Join("\n\n", buf)], Pieces(WrapAll(None, [paras[k].text]), Atoms(paras, k + 1)));
    }

    function Emit(chunks: seq<string>, buf: seq<string>): seq<string> {
      if buf == [] then chunks else chunks + [Join("\n\n", buf)]
    }

    method Pack(paras: seq<Paragraph>) returns (chunks: seq<string>)
      requires forall p | p in paras :: p.sentences != []
      ensures chunks == Pieces([], Atoms(paras, 0))
    {
      hide Pieces;
      chunks := [];
      var buf: seq<string>, bufTok := [], 0;
      assert WrapAll(None, []) == [];
      for k := 0 to |paras|
        invariant bufTok == Tokens(WrapAll(None, buf))
        invariant Packed(paras, k, chunks, buf)
      {
        var p := paras[k];
        var pTok := tok(p.text);
        if pTok > maxTokens {
          PackedOversize(paras, k, chunks, buf);
          chunks := Emit(chunks, buf);
          buf, bufTok := [], 0;
          var own := PackSentences(k, p.sentences);
          chunks := chunks + own;
          continue;
        }
        PackedWhole(paras, k, chunks, buf);
        TokensSnoc(None, buf, p.text);
        TokensSnoc(None, [], p.text);
        if buf != [] && bufTok + pTok > maxTokens {
          chunks := chunks + [Join("\n\n", buf)];
          buf, bufTok := [p.text], pTok;
        } else {
          buf := buf + [p.text];
          bufTok := bufTok + pTok;
        }
      }
      PackEnd(None, buf);
      chunks := Emit(chunks, buf);
    }

    /** No other way of cutting the same paragraphs and sentences into admissible
        pieces, in order, uses fewer pieces. */
    lemma PackIsOptimal(paras: seq<Paragraph>, groups: seq<seq<Atom>>)
      requires Grouping(Admissible, groups, Atoms(paras, 0))
      ensures |Pieces([], Atoms(paras, 0))| <= |groups|
    {
      AdmissibleIsHereditary();
      GreedyIsOptimal(Admissible, Atoms(paras, 0), groups);
    }

    /** The parts each piece that `Pack` emits is made of. */
    ghost function Packing(paras: seq<Paragraph>): (groups: seq<seq<Atom>>)
      ensures Pieces([], Atoms(paras, 0)) == RenderAll(groups)
    {
      Greedy(Admissible, [], Atoms(paras, 0))
    }

    /** The pieces regroup the paragraphs and sentences, in order and without loss, and the
        parts of a piece of several add up to at most the cap. */
    lemma PackConserves(paras: seq<Paragraph>)
      ensures Grouping(Admissible, Packing(paras), Atoms(paras, 0))
    {
      AdmissibleIsHereditary();
      GreedyIsGrouping(Admissible, [], Atoms(paras, 0));
      assert [] + Atoms(paras, 0) == Atoms(paras, 0);
    }

    lemma {:induction false} AtomsChain(paras: seq<Paragraph>, k: nat)
      requires k <= |paras| && Proper(paras)
      ensures Chained(Atoms(paras, k))
      decreases |paras| - k
    {
      hide IsParagraph, IsSentence, Chained, AreSentences, SplitSentences;
      if k == |paras| {
        ChainedEmpty();
      } else {
        AtomsChain(paras, k + 1);
        LaterAtoms(paras, k + 1);
        var p, rest := paras[k], Atoms(paras, k + 1);
        assert p in paras;
        ParagraphSplits(p.text);
        var own := if tok(p.text) > maxTokens then WrapAll(Some(k), p.sentences) else [Para(p.text)];
        ChainedParagraph(p, k);
        assert rest != [] ==> rest[0] in rest;
        ChainedConcat(own, rest);
      }
    }

    lemma {:induction false} TokensAreSum(g: seq<Atom>)
      ensures Tokens(g) == Sum(tok, AtomTexts(g))
    {
      if g != [] {
        TokensAreSum(g[1..]);
        assert AtomTexts(g)[1..] == AtomTexts(g[1..]);
      }
    }

    /** With a tokenizer for which joining is free, a piece exceeds the cap exactly when it is a
        single part that already does. */
    lemma PieceWithinCap(g: seq<Atom>)
      requires g != [] && Admissible(g) && Chained(g) && JoiningIsFree(tok)
      ensures tok(Render(g)) > maxTokens <==> |g| == 1 && tok(g[0].text) > maxTokens
    {
      hide Sum, Tokens, Chained, AreParagraphs, AreSentences;
      if |g| == 1 {
        assert AtomTexts(g) == [g[0].text];
      } else {
        TokensAreSum(g);
        assert forall i | 0 < i < |g| :: Compatible(g[0], g[i]);
        ChainedTexts(g);
      }
    }

    lemma PackedIsChained(paras: seq<Paragraph>, g: seq<Atom>)
      requires Proper(paras) && g in Packing(paras)
      ensures g != [] && Admissible(g) && Chained(g)
    {
      PackConserves(paras);
      AtomsChain(paras, 0);
      hide Packing, Atoms, Admissible;
      var i := GroupIsSlice(Packing(paras), g);
      ChainedSlice(Atoms(paras, 0), i, i + |g|);
    }

    // ------------------------------------------------------------- split

    ghost function SectionPieces(s: Section): seq<string> {
      Pieces([], Atoms(paragraphs(Join("\n", s.body)), 0))
    }

    ghost function SectionLabels(s: Section): (r: seq<(Option<string>, string)>) {
      seq(|SectionPieces(s)|, i requires 0 <= i < |SectionPieces(s)| => (s.path, SectionPieces(s)[i]))
    }

    /** Every piece of every section, in order, with the section's heading path. */
    ghost function Labelled(sections: seq<Section>): (r: seq<(Option<string>, string)>) {
      if sections == [] then [] else SectionLabels(sections[0]) + Labelled(sections[1..])
    }

    ghost function Numbered(pieces: seq<(Option<string>, string)>): seq<Draft> {
      seq(|pieces|, i requires 0 <= i < |pieces| => Draft(i, pieces[i].0, pieces[i].1, tok(pieces[i].1)))
    }

    lemma {:induction false} LabelledSnoc(sections: seq<Section>, s: Section)
      ensures Labelled(sections + [s]) == Labelled(sections) + SectionLabels(s)
    {
      if sections == [] {
        assert (sections + [s])[1..] == [];
        assert SectionLabels(s) + [] == [] + SectionLabels(s);
      } else {
        assert (sections + [s])[1..] == sections[1..] + [s];
        LabelledSnoc(sections[1..], s);
        Appended(SectionLabels(sections[0]), Labelled(sections[1..]), SectionLabels(s));
      }
    }

    lemma NumberedSnoc(pieces: seq<(Option<string>, string)>, path: Option<string>, text: string)
      ensures Numbered(pieces + [(path, text)]) == Numbered(pieces) + [Draft(|pieces|, path, text, tok(text))]
    {
    }

    /** Every paragraph and sentence of the sections, in order. */
    ghost function SectionAtoms(sections: seq<Section>): (r: seq<Atom>) {
      if sections == [] then []
      else Atoms(paragraphs(Join("\n", sections[0].body)), 0) + SectionAtoms(sections[1..])
    }

    /** The parts of every piece of the sections, in order. */
    ghost function SectionGroups(sections: seq<Section>): (r: seq<seq<Atom>>) {
      if sections == [] then []
      else Packing(paragraphs(Join("\n", sections[0].body))) + SectionGroups(sections[1..])
    }

    lemma {:induction false} SectionsRegroup(sections: seq<Section>)
      ensures Flatten(SectionGroups(sections)) == SectionAtoms(sections)
      ensures forall g | g in SectionGroups(sections) :: g != [] && Admissible(g)
      ensures |Labelled(sections)| == |SectionGroups(sections)|
      ensures forall i | 0 <= i < |Labelled(sections)| :: Labelled(sections)[i].1 == Render(SectionGroups(sections)[i])
    {
      if sections != [] {
        var paras := paragraphs(Join("\n", sections[0].body));
        PackConserves(paras);
        SectionsRegroup(sections[1..]);
        hide Packing, Atoms, Admissible, Render;
        FlattenConcat(Packing(paras), SectionGroups(sections[1..]));
        assert SectionPieces(sections[0]) == RenderAll(Packing(paras));
      }
    }

    /** A whole document: the drafts are numbered without gaps, their contents render groups that,
        end to end, are all paragraphs and sentences of the sections in order, and the sections'
        bodies are all its non-heading lines in order. */
    lemma DocumentIsConserved(lines: seq<Line>)
      ensures var sections, drafts := TextRuns(lines, 0), Numbered(Labelled(TextRuns(lines, 0)));
              var groups := SectionGroups(sections);
              && |drafts| == |groups|
              && (forall i | 0 <= i < |drafts| :: drafts[i].idx == i && drafts[i].content == Render(groups[i]))
              && Grouping(Admissible, groups, SectionAtoms(sections))
              && Flatten(Bodies(sections)) == Texts(lines)
    {
      SectionsRegroup(TextRuns(lines, 0));
      SectionsConserveLines(lines, 0);
      assert lines[0..] == lines;
    }

    method Split(lines: seq<Line>) returns (drafts: seq<Draft>)
      requires Valid()
      ensures drafts == Numbered(Labelled(TextRuns(lines, 0)))
    {
      var sections := Sectionize(lines);
      drafts := [];
      for i := 0 to |sections|
        invariant drafts == Numbered(Labelled(sections[..i]))
      {
        LabelledSnoc(sections[..i], sections[i]);
        assert sections[..i + 1] == sections[..i] + [sections[i]];
        drafts := SplitSection(sections[i], drafts, Labelled(sections[..i]));
      }
      assert sections[..|sections|] == sections;
    }

    lemma LabelsOf(s: Section, packed: seq<string>)
      requires packed == Pieces([], Atoms(paragraphs(Join("\n", s.body)), 0))
      ensures |SectionLabels(s)| == |packed| && forall j | 0 <= j < |packed| :: SectionLabels(s)[j] == (s.path, packed[j])
    {
      hide Pieces, Atoms;
    }

    /** The loop body of `Split`: blank sections give nothing, the others their pieces. */
    method SplitSection(s: Section, drafts: seq<Draft>, ghost done: seq<(Option<string>, string)>)
      returns (r: seq<Draft>)
      requires Valid() && drafts == Numbered(done)
      ensures r == Numbered(done + SectionLabels(s))
    {
      assert |drafts| == |done|;
      hide Numbered, SectionLabels, SplitSentences, IsParagraph;
      r := drafts;
      var body := Join("\n", s.body);
      ghost var own := SectionLabels(s);
      assert done + own[..0] == done;
      if IsBlank(body) {
        LabelsOf(s, []);
        assert done + own == done;
        return;
      }
      var packed := Pack(paragraphs(body));
      LabelsOf(s, packed);
      hide Pieces, Atoms;
      var idx := |drafts|;
      for j := 0 to |packed|
        invariant idx == |drafts| + j
        invariant |own| == |packed| && r == Numbered(done + own[..j])
      {
        NumberedSnoc(done + own[..j], s.path, packed[j]);
        assert done + own[..j + 1] == done + own[..j] + [(s.path, packed[j])];
        r := r + [Draft(idx, s.path, packed[j], tok(packed[j]))];
        idx := idx + 1;
      }
      assert own[..|packed|] == own;
    }
  }

  // ---------------------------------------------------------------- the labels

  /** `js` are the lines, in order, whose headings govern line `i`. */
  ghost predicate GoverningLines(lines: seq<Line>, i: nat, js: seq<nat>)
    requires i <= |lines|
  {
    && (forall a, b | 0 <= a < b < |js| :: js[a] < js[b])
    && (forall j: nat :: j in js <==> j < i && Governs(lines, j, i))
  }

  ghost function TitleOf(lines: seq<Line>, j: nat): string {
    if j < |lines| && lines[j].Heading? then lines[j].title else ""
  }

  ghost function TitlesAt(lines: seq<Line>, js: seq<nat>): seq<string> {
    seq(|js|, k requires 0 <= k < |js| => TitleOf(lines, js[k]))
  }

  /** The titles of the governing headings, in document order. */
  lemma {:induction false} GoverningHasLines(lines: seq<Line>, i: nat, j: nat) returns (js: seq<nat>)
    requires j <= i <= |lines|
    ensures forall a, b | 0 <= a < b < |js| :: js[a] < js[b]
    ensures forall k: nat :: k in js <==> j <= k < i && Governs(lines, k, i)
    ensures |js| == |Governing(lines, i, j)| && forall a | 0 <= a < |js| :: Governing(lines, i, j)[a].title == TitleOf(lines, js[a])
    decreases i - j
  {
    if j == i {
      return [];
    }
    js := GoverningHasLines(lines, i, j + 1);
    if Governs(lines, j, i) {
      assert forall a | 0 <= a < |js| :: js[a] in js;
      js := [j] + js;
    }
  }

  /** A text line whose section starts there. */
  predicate IsStart(lines: seq<Line>, i: nat) {
    i < |lines| && lines[i].Text? && (i == 0 || lines[i - 1].Heading?)
  }

  lemma {:induction false} RunEndStops(lines: seq<Line>, i: nat)
    requires i <= |lines|
    ensures RunEnd(lines, i) == |lines| || lines[RunEnd(lines, i)].Heading?
    decreases |lines| - i
  {
    if i < |lines| && lines[i].Text? {
      RunEndStops(lines, i + 1);
    }
  }

  lemma {:induction false} SectionStarts(lines: seq<Line>, from: nat, s: Section) returns (i: nat)
    requires from <= |lines| && (from == 0 || from == |lines| || lines[from].Heading? || lines[from - 1].Heading?)
    requires s in TextRuns(lines, from)
    ensures IsStart(lines, i) && s == Section(PathAt(lines, i), Texts(lines[i..RunEnd(lines, i)]))
    decreases |lines| - from
  {
    if lines[from].Heading? {
      i := SectionStarts(lines, from + 1, s);
    } else {
      var e := RunEnd(lines, from);
      if s == Section(PathAt(lines, from), Texts(lines[from..e])) {
        return from;
      }
      RunEndStops(lines, from);
      i := SectionStarts(lines, e, s);
    }
  }

  lemma {:induction false} LabelledFrom(c: MarkdownChunker, sections: seq<Section>, k: nat) returns (s: Section)
    requires k < |c.Labelled(sections)|
    ensures s in sections && c.Labelled(sections)[k].0 == s.path && c.Labelled(sections)[k].1 in c.SectionPieces(s)
  {
    var own := c.SectionLabels(sections[0]);
    if k < |own| {
      return sections[0];
    }
    s := LabelledFrom(c, sections[1..], k - |own|);
  }

  /** Every chunk of a document is a piece of the section that starts at some line, and its label is
      made of the titles of the headings in force there, outermost first, joined by " > "; a chunk
      before the first heading has none. */
  lemma ChunksAreLabelled(c: MarkdownChunker, lines: seq<Line>, k: nat) returns (i: nat, js: seq<nat>)
    requires k < |c.Labelled(TextRuns(lines, 0))|
    ensures IsStart(lines, i) && GoverningLines(lines, i, js)
    ensures var d := c.Numbered(c.Labelled(TextRuns(lines, 0)))[k];
            && d.path == (if js == [] then None else Some(Join(" > ", TitlesAt(lines, js))))
            && d.content in c.SectionPieces(Section(d.path, Texts(lines[i..RunEnd(lines, i)])))
            && d.tokens == c.tok(d.content)
  {
    var s := LabelledFrom(c, TextRuns(lines, 0), k);
    i := SectionStarts(lines, 0, s);
    js := GoverningHasLines(lines, i, 0);
    var heads := Governing(lines, i, 0);
    assert seq(|heads|, a requires 0 <= a < |heads| => heads[a].title) == TitlesAt(lines, js);
  }

  // ------------------------------------------------------------------- the cap

  function Sum(tok: string -> nat, texts: seq<string>): nat {
    if texts == [] then 0 else tok(texts[0]) + Sum(tok, texts[1..])
  }

  predicate AreParagraphs(ps: seq<string>) {
    forall i | 0 <= i < |ps| :: IsParagraph(ps[i])
  }

  /** Paragraphs joined by a blank line, and sentences joined by a space, never cost more tokens
      than on their own. */
  ghost predicate JoiningIsFree(tok: string -> nat) {
    && (forall ps | |ps| >= 2 && AreParagraphs(ps) :: tok(Join("\n\n", ps)) <= Sum(tok, ps))
    && (forall ss | |ss| >= 2 && AreSentences(ss) :: tok(Join(" ", ss)) <= Sum(tok, ss))
  }

  /** Atoms as they come from paragraphs: a sentence followed by one of its paragraph ends in a
      full stop. */
  ghost predicate Chained(g: seq<Atom>) {
    && (forall i | 0 <= i < |g| :: if g[i].Para? then IsParagraph(g[i].text) else IsSentence(g[i].text))
    && (forall i | 0 <= i < |g| - 1 && g[i].Sentence? && Compatible(g[i], g[i + 1]) :: EndsInStop(g[i].text))
  }

  lemma ChainedEmpty()
    ensures Chained([])
  {
  }

  lemma ChainedParagraph(p: Paragraph, k: nat)
    requires IsParagraph(p.text) && AreSentences(p.sentences)
    ensures Chained([Para(p.text)]) && Chained(WrapAll(Some(k), p.sentences))
  {
    hide IsParagraph;
  }

  lemma ChainedConcat(a: seq<Atom>, b: seq<Atom>)
    requires Chained(a) && Chained(b)
    requires a == [] || b == [] || a[|a| - 1].Para? || !Compatible(a[|a| - 1], b[0])
    ensures Chained(a + b)
  {
    hide IsParagraph, IsSentence;
    var g := a + b;
    assert forall i | 0 <= i < |g| :: g[i] == if i < |a| then a[i] else b[i - |a|];
  }

  lemma ChainedSlice(g: seq<Atom>, i: nat, j: nat)
    requires Chained(g) && i <= j <= |g|
    ensures Chained(g[i..j])
  {
    hide IsParagraph, IsSentence;
  }

  /** Compatible atoms are paragraphs, or the sentences of one paragraph that follow each other. */
  lemma ChainedTexts(g: seq<Atom>)
    requires g != [] && Chained(g) && forall i | 0 < i < |g| :: Compatible(g[0], g[i])
    ensures if g[0].Para? then AreParagraphs(AtomTexts(g)) else AreSentences(AtomTexts(g))
  {
    hide IsParagraph, IsSentence;
    var texts := AtomTexts(g);
    if g[0].Para? {
      assert forall i | 0 <= i < |g| :: g[i].Para?;
    } else {
      forall i | 0 <= i < |texts| ensures IsSentence(texts[i]) && (i < |texts| - 1 ==> EndsInStop(texts[i])) {
        assert i > 0 ==> Compatible(g[0], g[i]);
        if i < |g| - 1 {
          assert Compatible(g[0], g[i + 1]) && Compatible(g[i], g[i + 1]);
        }
      }
    }
  }

  lemma {:induction false} GroupIsSlice<T>(groups: seq<seq<T>>, g: seq<T>) returns (i: nat)
    requires g in groups
    ensures i + |g| <= |Flatten(groups)| && Flatten(groups)[i..i + |g|] == g
  {
    if groups[0] == g {
      return 0;
    }
    var k := GroupIsSlice(groups[1..], g);
    return |groups[0]| + k;
  }

  /** Atoms that fit together from the start on are one group. */
  lemma {:induction false} AllFit<T(!new)>(fits: seq<T> -> bool, buf: seq<T>, xs: seq<T>)
    requires Hereditary(fits) && fits(buf + xs) && buf + xs != []
    ensures Greedy(fits, buf, xs) == [buf + xs]
    decreases |xs|
  {
    if xs == [] {
      assert buf + xs == buf;
    } else {
      var more := buf + [xs[0]];
      assert more + xs[1..] == buf + xs && (buf + xs)[..|more|] == more;
      assert fits((buf + xs)[..|more|]);
      AllFit(fits, more, xs[1..]);
    }
  }

  function NoParagraphs(body: string): seq<Paragraph> {
    []
  }

  /** Every piece of two or more parts that packing `paras` under the cap emits is within it. */
  ghost predicate PiecesFit(tok: string -> nat, cap: int, paras: seq<Paragraph>) {
    forall g | g in MarkdownChunker(cap, tok, NoParagraphs).Packing(paras) && |g| >= 2 :: tok(Render(g)) <= cap
  }

  function Whole(ps: seq<string>): seq<Paragraph> {
    seq(|ps|, i requires 0 <= i < |ps| => Paragraph(ps[i], SplitSentences(ps[i])))
  }

  lemma {:induction false} EachWithinSum(tok: string -> nat, texts: seq<string>, i: nat)
    requires i < |texts|
    ensures tok(texts[i]) <= Sum(tok, texts)
  {
    if i > 0 {
      EachWithinSum(tok, texts[1..], i - 1);
    }
  }

  lemma {:induction false} WholeAtoms(c: MarkdownChunker, ps: seq<string>, k: nat)
    requires k <= |ps| && forall i | 0 <= i < |ps| :: c.tok(ps[i]) <= c.maxTokens
    ensures c.Atoms(Whole(ps), k) == WrapAll(None, ps[k..])
    decreases |ps| - k
  {
    if k < |ps| {
      WholeAtoms(c, ps, k + 1);
      assert WrapAll(None, ps[k..]) == [Para(ps[k])] + WrapAll(None, ps[k + 1..]);
    }
  }

  lemma WrapIsAdmissible(c: MarkdownChunker, from: Option<nat>, texts: seq<string>)
    requires Sum(c.tok, texts) <= c.maxTokens
    ensures c.Admissible(WrapAll(from, texts)) && AtomTexts(WrapAll(from, texts)) == texts
  {
    var g := WrapAll(from, texts);
    assert AtomTexts(g) == texts;
    c.TokensAreSum(g);
    hide Sum, MarkdownChunker.Tokens;
    assert forall i, j | 0 <= i < j < |g| :: Compatible(g[i], g[j]);
  }

  /** Parts whose counts add up to the cap are packed into one piece. */
  lemma PacksAll(c: MarkdownChunker, from: Option<nat>, texts: seq<string>)
    requires texts != [] && Sum(c.tok, texts) <= c.maxTokens
    ensures Greedy(c.Admissible, [], WrapAll(from, texts)) == [WrapAll(from, texts)]
    ensures Render(WrapAll(from, texts)) == Join(Separator(from), texts)
  {
    hide Sum, Join, Greedy, Hereditary, MarkdownChunker.Tokens, MarkdownChunker.Admissible;
    var g := WrapAll(from, texts);
    WrapIsAdmissible(c, from, texts);
    c.AdmissibleIsHereditary();
    assert [] + g == g;
    AllFit(c.Admissible, [], g);
  }

  lemma ParagraphsCost(tok: string -> nat, ps: seq<string>)
    requires |ps| >= 2 && AreParagraphs(ps) && PiecesFit(tok, Sum(tok, ps), Whole(ps))
    ensures tok(Join("\n\n", ps)) <= Sum(tok, ps)
  {
    var c := MarkdownChunker(Sum(tok, ps), tok, NoParagraphs);
    forall i | 0 <= i < |ps| ensures tok(ps[i]) <= c.maxTokens {
      EachWithinSum(tok, ps, i);
    }
    WholeAtoms(c, ps, 0);
    assert ps[0..] == ps;
    PacksAll(c, None, ps);
    assert WrapAll(None, ps) in c.Packing(Whole(ps));
  }

  lemma SentencesOverflow(tok: string -> nat, ss: seq<string>)
    requires |ss| >= 2 && AreSentences(ss) && tok(Join(" ", ss)) > Sum(tok, ss)
    ensures !PiecesFit(tok, Sum(tok, ss), [Paragraph(Join(" ", ss), ss)])
  {
    var c, paras := MarkdownChunker(Sum(tok, ss), tok, NoParagraphs), [Paragraph(Join(" ", ss), ss)];
    assert c.Atoms(paras, 1) == [];
    assert c.Atoms(paras, 0) == WrapAll(Some(0), ss);
    PacksAll(c, Some(0), ss);
    assert WrapAll(Some(0), ss) in c.Packing(paras);
  }

  /** The cap holds for every piece of several parts, whatever the cap and the paragraphs,
      exactly for the tokenizers for which joining is free. */
  lemma CapHoldsExactly(tok: string -> nat)
    ensures (forall cap, paras | Proper(paras) :: PiecesFit(tok, cap, paras)) <==> JoiningIsFree(tok)
  {
    hide AreSentences, IsParagraph;
    if JoiningIsFree(tok) {
      forall cap, paras | Proper(paras) ensures PiecesFit(tok, cap, paras) {
        var c := MarkdownChunker(cap, tok, NoParagraphs);
        forall g | g in c.Packing(paras) && |g| >= 2 ensures tok(Render(g)) <= cap {
          c.PackedIsChained(paras, g);
          c.PieceWithinCap(g);
        }
      }
    }
    if forall cap, paras | Proper(paras) :: PiecesFit(tok, cap, paras) {
      forall ps | |ps| >= 2 && AreParagraphs(ps) ensures tok(Join("\n\n", ps)) <= Sum(tok, ps) {
        assert Proper(Whole(ps)) && PiecesFit(tok, Sum(tok, ps), Whole(ps));
        ParagraphsCost(tok, ps);
      }
      forall ss | |ss| >= 2 && AreSentences(ss) ensures tok(Join(" ", ss)) <= Sum(tok, ss) {
        SplitJoins(ss);
        assert Proper([Paragraph(Join(" ", ss), ss)]) && PiecesFit(tok, Sum(tok, ss), [Paragraph(Join(" ", ss), ss)]);
        if tok(Join(" ", ss)) > Sum(tok, ss) {
          SentencesOverflow(tok, ss);
        }
      }
    }
  }

  /** It is enough that joining two stripped texts is free. */
  lemma {:induction false} PairsSuffice(tok: string -> nat, sep: string, texts: seq<string>)
    requires texts != [] && AllParts(texts)
    requires forall a, b {:trigger tok(a + sep + b)} | IsPart(a) && IsPart(b) :: tok(a + sep + b) <= tok(a) + tok(b)
    ensures tok(Join(sep, texts)) <= Sum(tok, texts)
  {
    if |texts| == 1 {
      assert Sum(tok, texts) == tok(texts[0]) + Sum(tok, []);
    } else {
      PairsSuffice(tok, sep, texts[1..]);
      JoinIsPart(sep, texts[1..]);
      assert IsPart(texts[0]);
      assert tok(texts[0] + sep + Join(sep, texts[1..])) <= tok(texts[0]) + tok(Join(sep, texts[1..]));
    }
  }

  /** A document that `Split` cuts into one chunk over the cap, though each paragraph is within
      it: the tokenizer counts characters. */
  lemma SplitMayExceedCap() returns (c: MarkdownChunker, lines: seq<Line>)
    ensures c.Valid() && forall p | p in c.paragraphs("ab\n\ncd") :: c.tok(p.text) <= c.maxTokens
    ensures c.Numbered(c.Labelled(TextRuns(lines, 0))) == [Draft(0, None, "ab\n\ncd", 6)] && c.maxTokens == 4
  {
    var paras := [Paragraph("ab", ["ab"]), Paragraph("cd", ["cd"])];
    c := MarkdownChunker(4, (s: string) => |s|, (body: string) => if IsBlank(body) then [] else paras);
    lines := [Text("ab"), Text(""), Text("cd")];
    TwoLetters("ab");
    TwoLetters("cd");
    hide TextRuns, IsParagraph, SplitSentences, Governing;
    assert Proper(paras);
    assert !IsBlank("ab\n\ncd") by {
      assert !IsSpace("ab\n\ncd"[0]);
    }
    var s := Section(None, ["ab", "", "cd"]);
    OneSection(lines, s);
    SplitsAsOne(c, s, paras);
  }

  lemma TwoLetters(t: string)
    requires |t| == 2 && !IsSpace(t[0]) && !IsSpace(t[1]) && t[0] != '.'
    ensures IsParagraph(t) && SplitSentences(t) == [t]
  {
    SentenceStaysWhole(t);
  }

  lemma OneSection(lines: seq<Line>, s: Section)
    requires lines == [Text("ab"), Text(""), Text("cd")] && s == Section(None, ["ab", "", "cd"])
    ensures TextRuns(lines, 0) == [s]
  {
    RunIsSection(lines, 0, 3);
    assert lines[0..3] == lines;
    assert lines[1..] == [Text(""), Text("cd")] && lines[1..][1..] == [Text("cd")] && lines[1..][1..][1..] == [];
    assert Texts(lines[1..][1..]) == ["cd"] + Texts(lines[1..][1..][1..]) == ["cd"];
    assert Texts(lines[1..]) == [""] + ["cd"];
    assert Governing(lines, 0, 0) == [];
    assert Texts(lines) == s.body && PathAt(lines, 0) == None;
    assert TextRuns(lines, 3) == [];
    assert TextRuns(lines, 0) == [s] + [];
  }

  lemma SplitsAsOne(c: MarkdownChunker, s: Section, paras: seq<Paragraph>)
    requires s == Section(None, ["ab", "", "cd"]) && c.paragraphs("ab\n\ncd") == paras
    requires paras == [Paragraph("ab", ["ab"]), Paragraph("cd", ["cd"])] && c.maxTokens == 4
    requires c.tok("ab") == 2 && c.tok("cd") == 2 && c.tok("ab\n\ncd") == 6
    ensures c.Numbered(c.Labelled([s])) == [Draft(0, None, "ab\n\ncd", 6)]
  {
    assert s.body[1..] == ["", "cd"] && s.body[1..][1..] == ["cd"];
    assert Join("\n", s.body) == "ab" + "\n" + ("" + "\n" + "cd");
    assert Join("\n", s.body) == "ab\n\ncd";
    assert c.Atoms(paras, 2) == [] && c.Atoms(paras, 1) == [Para("cd")];
    assert c.Atoms(paras, 0) == [Para("ab"), Para("cd")];
    assert WrapAll(None, ["ab", "cd"]) == [Para("ab"), Para("cd")];
    assert ["ab", "cd"][1..] == ["cd"] && Sum(c.tok, ["ab", "cd"]) == 2 + Sum(c.tok, ["cd"]) == 2 + (2 + Sum(c.tok, ["cd"][1..]));
    PacksAll(c, None, ["ab", "cd"]);
    assert Join("\n\n", ["ab", "cd"]) == "ab" + "\n\n" + "cd";
    assert "ab" + "\n\n" + "cd" == "ab\n\ncd";
    var groups := [[Para("ab"), Para("cd")]];
    assert c.Pieces([], [Para("ab"), Para("cd")]) == RenderAll(groups) == [Render(groups[0])];
    assert c.SectionPieces(s) == ["ab\n\ncd"];
    assert c.Labelled([s][1..]) == [];
    assert c.Labelled([s]) == [(None, "ab\n\ncd")];
  }
}
