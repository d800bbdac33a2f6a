/**
 * Exporting a canvas to the unified document and importing the document again.
 * For a canvas of the shape the editor produces (a guide, then input cards,
 * then the `add` sentinel) whose titles and contents cannot be mistaken for
 * headings, the import reads back every title and content and keeps each
 * card's id, subtitle, image and size, because every section lands on the
 * output position its card had.
 */
module RoundTrip {
  import opened Model
  import opened Strings
  import opened Canvas
  import opened Transcoder
  import Seqs

  // ---------------------------------------------------------------------
  // The condition on the canvas
  // ---------------------------------------------------------------------

  /** No break (`\n##` and whitespace) occurs anywhere in `s`. */
  predicate Quiet(s: string)
  {
    forall k :: 0 <= k < |s| ==> !BreakAt(s, k)
  }

  /**
   * No line of `content` is `##` followed by whitespace or by the end of the
   * line: such a line would begin a new section on import.
   */
  predicate NoSectionBreak(content: string)
  {
    Quiet("\n" + content + "\n")
  }

  /** An input card whose title and content read back unchanged from its section. */
  predicate SafeSection(c: Card)
  {
    && c.kind == Input
    && c.title != "" && IsTrimmed(c.title) && '\n' !in c.title
    && IsTrimmed(c.content) && NoSectionBreak(c.content)
  }

  /**
   * A guide with a single-line title once its newlines are flattened and no
   * content, then safe input cards, then the sentinel.
   */
  predicate RoundTrippable(cs: seq<Card>)
  {
    && |cs| >= 2
    && cs[0].kind == Guide && cs[0].content == "" && HeadingSafe(ReplaceAllNewlines(cs[0].title))
    && cs[|cs| - 1].kind == Add
    && forall i :: 0 < i < |cs| - 1 ==> SafeSection(cs[i])
  }

  // ---------------------------------------------------------------------
  // The exported document, described piece by piece
  // ---------------------------------------------------------------------

  /** The cards between the guide and the sentinel. */
  function Between(cs: seq<Card>): (r: seq<Card>)
    requires |cs| >= 2
    ensures |r| == |cs| - 2
    ensures forall i :: 0 <= i < |r| ==> r[i] == cs[i + 1]
  {
    cs[1..|cs| - 1]
  }

  /** A section without its `## ` marker: the title line, then the content if any. */
  function SectionText(c: Card): string
  {
    if c.content != "" then c.title + "\n" + c.content else c.title
  }

  function Texts(cs: seq<Card>): (r: seq<string>)
    ensures |r| == |cs|
    ensures forall i :: 0 <= i < |cs| ==> r[i] == SectionText(cs[i])
  {
    if cs == [] then [] else [SectionText(cs[0])] + Texts(cs[1..])
  }

  /** The texts joined by blank lines and `## ` markers. */
  function Join(qs: seq<string>): (r: string)
    requires |qs| >= 1
    ensures qs[0] != [] ==> r != [] && r[0] == qs[0][0]
    ensures qs[|qs| - 1] != [] ==> r != [] && r[|r| - 1] == qs[|qs| - 1][|qs[|qs| - 1]| - 1]
  {
    if |qs| == 1 then qs[0] else qs[0] + "\n\n## " + Join(qs[1..])
  }

  /** What the split yields for joined texts: each but the last keeps one newline. */
  function Pieces(qs: seq<string>): (r: seq<string>)
    requires |qs| >= 1
    ensures |r| == |qs|
    ensures forall i :: 0 <= i < |qs| ==> r[i] == qs[i] || r[i] == qs[i] + "\n"
  {
    if |qs| == 1 then [qs[0]] else [qs[0] + "\n"] + Pieces(qs[1..])
  }

  /** A text that starts and ends with non-whitespace and cannot contain a break even with a newline after it. */
  predicate QuietText(q: string)
  {
    q != [] && !IsWhitespace(q[0]) && !IsWhitespace(q[|q| - 1]) && Quiet(q + "\n")
  }

  // ---------------------------------------------------------------------
  // Export side
  // ---------------------------------------------------------------------

  lemma {:induction false} ExportFromConcat(a: seq<Card>, b: seq<Card>, offset: nat)
    ensures ExportFrom(a + b, offset) == ExportFrom(a, offset) + ExportFrom(b, offset + |a|)
    decreases |a|
  {
    if a == [] {
      assert a + b == b;
    } else {
      assert (a + b)[1..] == a[1..] + b;
      ExportFromConcat(a[1..], b, offset + 1);
      Seqs.ConcatAssoc(ExportCard(a[0], offset), ExportFrom(a[1..], offset + 1), ExportFrom(b, offset + |a|));
    }
  }

  /** A titled input card exports as its section text between a `## ` marker and a blank line. */
  lemma ExportSafeCard(c: Card, index: nat)
    requires SafeSection(c)
    ensures ExportCard(c, index) == "## " + SectionText(c) + "\n\n"
  {
    if c.content != "" {
      assert ExportCard(c, index) == "## " + c.title + "\n" + (c.content + "\n") + "\n";
    }
  }

  /** Safe input cards export as their joined section texts. */
  lemma {:induction false} ExportInputs(ins: seq<Card>, offset: nat)
    requires |ins| >= 1 && forall i :: 0 <= i < |ins| ==> SafeSection(ins[i])
    ensures ExportFrom(ins, offset) == "## " + Join(Texts(ins)) + "\n\n"
    decreases |ins|
  {
    ExportSafeCard(ins[0], offset);
    var q := SectionText(ins[0]);
    if |ins| == 1 {
      assert ExportFrom(ins[1..], offset + 1) == "";
      assert Texts(ins) == [q];
    } else {
      var rest := ins[1..];
      assert forall i :: 0 <= i < |rest| ==> rest[i] == ins[i + 1];
      ExportInputs(rest, offset + 1);
      assert Texts(ins) == [q] + Texts(rest);
      assert Join(Texts(ins)) == q + "\n\n## " + Join(Texts(rest));
      MarkedBlocks(q, Join(Texts(rest)));
    }
  }

  lemma MarkedBlocks(q: string, j: string)
    ensures ("## " + q + "\n\n") + ("## " + j + "\n\n") == "## " + (q + "\n\n## " + j) + "\n\n"
  {
  }

  // ---------------------------------------------------------------------
  // Breaks are local
  // ---------------------------------------------------------------------

  /** A break inside `x` is not affected by what follows `x`. */
  lemma BreakInPrefix(x: string, y: string, k: nat)
    requires k + 4 <= |x|
    ensures BreakAt(x + y, k) == BreakAt(x, k)
  {
  }

  /** A break inside `y` is not affected by what precedes `y`. */
  lemma BreakShifted(x: string, y: string, k: nat)
    ensures BreakAt(x + y, |x| + k) == BreakAt(y, k)
  {
    if k + 4 <= |y| {
      assert (x + y)[|x| + k..|x| + k + 4] == y[k..k + 4];
    }
  }

  /** The section text of a safe card is quiet even with a newline after it. */
  lemma SafeTextQuiet(c: Card)
    requires SafeSection(c)
    ensures QuietText(SectionText(c))
  {
    var t := c.title;
    var s := SectionText(c) + "\n";
    forall k | 0 <= k < |s|
      ensures !BreakAt(s, k)
    {
      if k < |t| {
        assert s[k] == t[k];
        assert t[k] != '\n';
      } else if c.content != "" {
        assert s == t + ("\n" + c.content + "\n");
        BreakShifted(t, "\n" + c.content + "\n", k - |t|);
      } else {
        assert s == t + "\n";
      }
    }
    if c.content != "" {
      assert SectionText(c)[|SectionText(c)| - 1] == c.content[|c.content| - 1];
    }
  }

  /** A quiet text keeps quiet behind a `## ` marker. */
  lemma MarkedQuiet(q: string)
    requires QuietText(q)
    ensures QuietText("## " + q)
  {
    var s := "## " + q + "\n";
    assert s == "## " + (q + "\n");
    forall k | 0 <= k < |s|
      ensures !BreakAt(s, k)
    {
      if k < 3 {
        assert s[k] == "## "[k];
      } else {
        BreakShifted("## ", q + "\n", k - 3);
      }
    }
  }

  // ---------------------------------------------------------------------
  // Splitting the joined texts
  // ---------------------------------------------------------------------

  /** The split of a text containing no break is the text itself. */
  lemma SplitQuiet(s: string)
    requires Quiet(s)
    ensures SplitSections(s) == [s]
  {
  }

  /** A quiet text without its trailing newline is quiet too. */
  lemma QuietWithoutNewline(q: string)
    requires Quiet(q + "\n")
    ensures Quiet(q)
  {
    forall k | 0 <= k < |q|
      ensures !BreakAt(q, k)
    {
      if k + 4 <= |q| {
        BreakInPrefix(q, "\n", k);
      }
    }
  }

  /**
   * The split stops at the blank line before the next `## ` marker: the first
   * piece keeps one newline and the rest is split again.
   */
  lemma SplitStep(q: string, rest: string)
    requires QuietText(q)
    requires rest != [] && !IsWhitespace(rest[0])
    ensures SplitSections(q + "\n\n## " + rest) == [q + "\n"] + SplitSections(rest)
  {
    var head := q + "\n";
    var s := head + ("\n## " + rest);
    assert s == q + "\n\n## " + rest;
    HeadQuiet(q, rest, head, s);
    SplitAfter(head, rest, s);
  }

  /** No break starts inside the first text, even one running into the marker after it. */
  lemma HeadQuiet(q: string, rest: string, head: string, s: string)
    requires QuietText(q)
    requires head == q + "\n" && s == head + ("\n## " + rest)
    ensures forall k :: 0 <= k < |head| ==> !BreakAt(s, k)
  {
    var m := |q|;
    assert s[m] == '\n' && s[m + 1] == '\n';
    assert s[m - 1] == q[|q| - 1];
    forall k | 0 <= k < |head|
      ensures !BreakAt(s, k)
    {
      if k + 4 <= |head| {
        BreakInPrefix(head, "\n## " + rest, k);
      }
    }
  }

  /** A text without breaks, then a newline and a `## ` marker: the split separates them there. */
  lemma SplitAfter(head: string, rest: string, s: string)
    requires s == head + ("\n## " + rest)
    requires forall k :: 0 <= k < |head| ==> !BreakAt(s, k)
    requires rest != [] && !IsWhitespace(rest[0])
    ensures SplitSections(s) == [head] + SplitSections(rest)
  {
    var m := |head|;
    assert s[m] == '\n' && s[m + 1] == '#' && s[m + 2] == '#' && s[m + 3] == ' ';
    assert BreakAt(s, m);
    assert FirstBreak(s, 0) == m;
    assert s[m + 4] == rest[0];
    assert WsRun(s, m + 4) == 0;
    assert BreakEnd(s, m) == m + 4;
    assert s[..m] == head;
    assert s[m + 4..] == rest;
  }

  /** The split of joined quiet texts. */
  lemma {:induction false} SplitJoined(qs: seq<string>)
    requires |qs| >= 1
    requires forall i :: 0 <= i < |qs| ==> QuietText(qs[i])
    ensures SplitSections(Join(qs)) == Pieces(qs)
    decreases |qs|
  {
    if |qs| == 1 {
      QuietWithoutNewline(qs[0]);
      SplitQuiet(qs[0]);
    } else {
      var rest := qs[1..];
      assert forall i :: 0 <= i < |rest| ==> rest[i] == qs[i + 1];
      SplitJoined(rest);
      var j := Join(rest);
      JoinCons(qs);
      SplitStep(qs[0], j);
      assert Pieces(qs) == [qs[0] + "\n"] + Pieces(rest);
    }
  }

  lemma JoinCons(qs: seq<string>)
    requires |qs| >= 2
    ensures Join(qs) == qs[0] + "\n\n## " + Join(qs[1..])
  {
  }

  // ---------------------------------------------------------------------
  // The first section keeps its `## ` marker through the split
  // ---------------------------------------------------------------------

  /** The texts with a `## ` marker in front of the first. */
  function Marked(qs: seq<string>): (r: seq<string>)
    requires |qs| >= 1
    ensures |r| == |qs| && r[0] == "## " + qs[0] && r[1..] == qs[1..]
  {
    qs[0 := "## " + qs[0]]
  }

  lemma JoinMarked(qs: seq<string>)
    requires |qs| >= 1
    ensures Join(Marked(qs)) == "## " + Join(qs)
  {
    if |qs| >= 2 {
      JoinCons(qs);
      JoinCons(Marked(qs));
      MarkerRegroup(qs[0], Join(qs[1..]));
    }
  }

  lemma MarkerRegroup(q: string, j: string)
    ensures ("## " + q) + "\n\n## " + j == "## " + (q + "\n\n## " + j)
  {
  }

  /** `s.replace(/^##\s+/, '')` takes exactly the marker off a marked text. */
  lemma StripMarked(x: string)
    requires x != [] && !IsWhitespace(x[0])
    ensures StripSectionMarker("## " + x) == x
  {
    var s := "## " + x;
    assert s[3] == x[0];
    assert WsRun(s, 3) == 0;
    assert s[3..] == x;
  }

  /** The split of the marked texts, with the marker stripped from the first piece, is the split of the texts. */
  lemma PiecesMarked(qs: seq<string>)
    requires |qs| >= 1 && qs[0] != [] && !IsWhitespace(qs[0][0])
    ensures Pieces(Marked(qs))[0 := StripSectionMarker(Pieces(Marked(qs))[0])] == Pieces(qs)
  {
    var m := Marked(qs);
    if |qs| == 1 {
      StripMarked(qs[0]);
    } else {
      var tail := Pieces(qs[1..]);
      PiecesCons(m);
      PiecesCons(qs);
      var first := qs[0] + "\n";
      assert m[0] + "\n" == "## " + first;
      assert first[0] == qs[0][0];
      StripMarked(first);
      ReplaceHead("## " + first, first, tail);
    }
  }

  lemma PiecesCons(qs: seq<string>)
    requires |qs| >= 2
    ensures Pieces(qs) == [qs[0] + "\n"] + Pieces(qs[1..])
  {
  }

  lemma ReplaceHead<T>(x: T, y: T, rest: seq<T>)
    ensures ([x] + rest)[0 := y] == [y] + rest
  {
  }

  // ---------------------------------------------------------------------
  // Reading the document back
  // ---------------------------------------------------------------------

  /** The document of a canvas with a content-less guide first and the sentinel last: the heading, then the sections of the cards between. */
  lemma ExportShape(cs: seq<Card>, offset: nat)
    requires |cs| >= 2 && cs[0].kind == Guide && cs[0].content == "" && cs[|cs| - 1].kind == Add
    ensures ExportFrom(cs, offset) == "# " + ReplaceAllNewlines(cs[0].title) + "\n\n" + ExportFrom(Between(cs), offset + 1)
  {
    var rest := cs[1..];
    ExportFromCons(cs, offset);
    ExportBareGuide(cs[0], offset);
    ExportBeforeSentinel(rest, offset + 1);
    assert rest[..|rest| - 1] == Between(cs);
  }

  lemma ExportFromCons(cs: seq<Card>, offset: nat)
    requires cs != []
    ensures ExportFrom(cs, offset) == ExportCard(cs[0], offset) + ExportFrom(cs[1..], offset + 1)
  {
  }

  /** A guide without content exports as its heading line and a blank line. */
  lemma ExportBareGuide(g: Card, index: nat)
    requires g.kind == Guide && g.content == ""
    ensures ExportCard(g, index) == "# " + ReplaceAllNewlines(g.title) + "\n\n"
  {
    var h := "# " + ReplaceAllNewlines(g.title) + "\n\n";
    assert h + "" == h;
  }

  /** The sentinel at the end contributes nothing. */
  lemma ExportBeforeSentinel(cs: seq<Card>, offset: nat)
    requires |cs| >= 1 && cs[|cs| - 1].kind == Add
    ensures ExportFrom(cs, offset) == ExportFrom(cs[..|cs| - 1], offset)
  {
    var ins := cs[..|cs| - 1];
    assert cs == ins + [cs[|cs| - 1]];
    ExportFromConcat(ins, [cs[|cs| - 1]], offset);
    assert ExportFrom([cs[|cs| - 1]], offset + |ins|) == "";
  }

  /** The heading of such a document is the flattened guide title, and the body is everything after its blank line. */
  lemma HeadingOfExport(t: string, title: string, sections: string)
    requires HeadingSafe(title) && t == "# " + title + "\n\n" + sections
    ensures GuideTitle(t) == title
    ensures BodyText(t) == Trim("\n" + sections)
  {
    HeadingRest(t, title, sections);
    HeadingLine(t, title, "\n\n" + sections);
    TrimOfTrimmed(title);
  }

  /** After the heading line's newline comes the blank line and then the sections. */
  lemma HeadingRest(t: string, title: string, sections: string)
    requires t == "# " + title + "\n\n" + sections
    ensures t == "# " + title + ("\n\n" + sections)
    ensures t[3 + |title|..] == "\n" + sections
  {
    assert t == "# " + title + ("\n\n" + sections);
  }

  /** Trimming the sections drops the newline before them and the blank line after them. */
  lemma BodyOfSections(sections: string, j: string)
    requires sections == "## " + j + "\n\n" && j != [] && !IsWhitespace(j[|j| - 1])
    ensures Trim("\n" + sections) == "## " + j
  {
    assert "\n" + sections == "\n" + ("## " + j) + "\n\n";
    TrimPadded("\n", "## " + j, "\n\n");
  }

  /** A body made of the marked, joined texts imports as one section card per text after the guide. */
  lemma ImportOfBody(guide: Card, body: string, qs: seq<string>, prev: seq<Card>, now: int)
    requires |qs| >= 1 && forall i :: 0 <= i < |qs| ==> QuietText(qs[i])
    requires body == "## " + Join(qs)
    ensures Assemble(guide, body, SplitSections(body), prev, now)
            == [guide] + SectionCards(Pieces(qs), 0, 1, prev, now) + [ImportedAdd]
  {
    var m := Marked(qs);
    MarkedQuiet(qs[0]);
    assert forall i :: 0 <= i < |m| ==> QuietText(m[i]);
    JoinMarked(qs);
    SplitJoined(m);
    assert SplitSections(body) == Pieces(m);
    assert StartsWith(body, "## ");
    PiecesMarked(qs);
  }

  /** A safe card's section text, with or without the newline the split leaves, reads back as its title and content. */
  lemma PieceReadsBack(c: Card, piece: string)
    requires SafeSection(c) && (piece == SectionText(c) || piece == SectionText(c) + "\n")
    ensures !IsBlank(piece)
    ensures SectionTitle(piece) == c.title && SectionContent(piece) == c.content
  {
    var rest := PieceAfterTitle(c, piece);
    SectionTitleLine(c.title, rest, piece);
  }

  /** What follows the title in such a piece: nothing, or a newline and then the content, padded by at most a newline. */
  lemma PieceAfterTitle(c: Card, piece: string) returns (rest: string)
    requires SafeSection(c) && (piece == SectionText(c) || piece == SectionText(c) + "\n")
    ensures piece == c.title + rest && (rest == [] || rest[0] == '\n')
    ensures (if rest == [] then "" else Trim(rest[1..])) == c.content
  {
    var pad := if piece == SectionText(c) then "" else "\n";
    assert piece == SectionText(c) + pad;
    if c.content != "" {
      rest := "\n" + (c.content + pad);
      assert piece == c.title + rest;
      assert rest[1..] == c.content + pad;
      PaddedContent(c.content, pad);
    } else {
      rest := pad;
    }
  }

  /** Trimmed content keeps its value under the newline the split may leave after it. */
  lemma PaddedContent(content: string, pad: string)
    requires IsTrimmed(content) && content != [] && (pad == "" || pad == "\n")
    ensures Trim(content + pad) == content
  {
    if pad == "" {
      assert content + pad == content;
      TrimOfTrimmed(content);
    } else {
      TrimTrailing(content, pad);
    }
  }

  /** A title line followed by nothing or by a newline and more: the title and the text after the newline. */
  lemma SectionTitleLine(t: string, rest: string, piece: string)
    requires piece == t + rest && t != [] && IsTrimmed(t) && '\n' !in t
    requires rest == [] || rest[0] == '\n'
    ensures !IsBlank(piece)
    ensures SectionTitle(piece) == t
    ensures SectionContent(piece) == if rest == [] then "" else Trim(rest[1..])
  {
    assert piece[0] == t[0];
    TitleLineEnd(t, rest, piece);
    assert piece[..|t|] == t;
    TrimOfTrimmed(t);
    if rest != [] {
      assert piece[|t| + 1..] == rest[1..];
    }
  }

  /** The first newline of such a line is the one right after the title. */
  lemma TitleLineEnd(t: string, rest: string, piece: string)
    requires piece == t + rest && '\n' !in t
    requires rest == [] || rest[0] == '\n'
    ensures IndexOf(piece, '\n') == |t|
  {
    if |t| < |piece| {
      assert piece[|t|] == rest[0];
    }
  }

  // ---------------------------------------------------------------------
  // The round trip
  // ---------------------------------------------------------------------

  /**
   * `d` is what the import made of the input card `c` at the same position:
   * same title and content, and the id, subtitle, image and size `c` had.
   */
  predicate CardReadsBack(c: Card, d: Card)
  {
    && d.kind == Input && d.title == c.title && d.content == c.content
    && (c.id != 0 ==> d.id == c.id)
    && (c.subtitle != "" ==> d.subtitle == c.subtitle)
    && KeepsLayout(d, Some(c))
  }

  /** `d` is the guide the import made from the guide `g`: the flattened title, no content, and `g`'s id, subtitle and layout. */
  predicate GuideReadsBack(g: Card, d: Card)
  {
    && d.kind == Guide && d.title == ReplaceAllNewlines(g.title) && d.content == ""
    && (g.id != 0 ==> d.id == g.id)
    && (g.subtitle != "" ==> d.subtitle == g.subtitle)
    && KeepsLayout(d, Some(g))
  }

  /**
   * `r` is the canvas `cs` read back: as many cards, the guide first, every
   * input card read back at its own position, and the sentinel last.
   */
  predicate ReadsBack(cs: seq<Card>, r: seq<Card>)
    requires |cs| >= 2
  {
    && |r| == |cs|
    && GuideReadsBack(cs[0], r[0])
    && r[|r| - 1] == ImportedAdd
    && forall i :: 0 < i < |cs| - 1 ==> CardReadsBack(cs[i], r[i])
  }

  /**
   * Exporting a round-trippable canvas to the unified document and saving the
   * document unchanged gives the canvas back: every title and content, and
   * every id, subtitle, image and size the cards had.
   */
  lemma RoundTrip(cs: seq<Card>, now: int)
    requires RoundTrippable(cs)
    ensures ReadsBack(cs, ImportCards(ExportFrom(cs, 0), cs, now))
  {
    RoundTripFrom(cs, now, 0);
  }

  /** The round trip for any numbering of the cards: the section numbers never reach the document of a safe canvas. */
  lemma RoundTripFrom(cs: seq<Card>, now: int, offset: nat)
    requires RoundTrippable(cs)
    ensures ReadsBack(cs, ImportCards(ExportFrom(cs, offset), cs, now))
  {
    var guide := ImportedGuide(ReplaceAllNewlines(cs[0].title), cs);
    ImportedGuideReadsBack(cs);
    if |cs| == 2 {
      RoundTripBare(cs, now, offset);
    } else {
      var qs := Texts(Between(cs));
      RoundTripSections(cs, now, offset);
      SectionsReadBack(cs, now);
      ReadBackAssembled(cs, guide, SectionCards(Pieces(qs), 0, 1, cs, now), ImportCards(ExportFrom(cs, offset), cs, now));
    }
  }

  lemma ImportedGuideReadsBack(cs: seq<Card>)
    requires |cs| >= 1 && cs[0].kind == Guide
    ensures GuideReadsBack(cs[0], ImportedGuide(ReplaceAllNewlines(cs[0].title), cs))
  {
    FirstGuideIsFirst(cs, 0);
  }

  /** A canvas with no input cards exports as its heading alone, which imports as the guide and the sentinel. */
  lemma RoundTripBare(cs: seq<Card>, now: int, offset: nat)
    requires RoundTrippable(cs) && |cs| == 2
    ensures ImportCards(ExportFrom(cs, offset), cs, now) == [ImportedGuide(ReplaceAllNewlines(cs[0].title), cs), ImportedAdd]
  {
    var t := ExportFrom(cs, offset);
    var title := ReplaceAllNewlines(cs[0].title);
    ExportShape(cs, offset);
    assert Between(cs) == [];
    HeadingOfExport(t, title, "");
    BareBody(t);
    EmptyBodyAssembles(ImportedGuide(title, cs), "", cs, now);
  }

  /** A canvas with input cards imports as the guide, the cards of the split sections, and the sentinel. */
  lemma RoundTripSections(cs: seq<Card>, now: int, offset: nat)
    requires RoundTrippable(cs) && |cs| >= 3
    ensures ImportCards(ExportFrom(cs, offset), cs, now)
            == [ImportedGuide(ReplaceAllNewlines(cs[0].title), cs)]
               + SectionCards(Pieces(Texts(Between(cs))), 0, 1, cs, now) + [ImportedAdd]
  {
    var t := ExportFrom(cs, offset);
    DocumentOfSections(cs, offset);
    ImportOfBody(ImportedGuide(ReplaceAllNewlines(cs[0].title), cs), BodyText(t), Texts(Between(cs)), cs, now);
  }

  /** The document of a canvas with input cards: its heading is the guide title, its body the marked, joined section texts. */
  lemma DocumentOfSections(cs: seq<Card>, offset: nat)
    requires RoundTrippable(cs) && |cs| >= 3
    ensures forall i :: 0 <= i < |cs| - 2 ==> QuietText(Texts(Between(cs))[i])
    ensures GuideTitle(ExportFrom(cs, offset)) == ReplaceAllNewlines(cs[0].title)
    ensures BodyText(ExportFrom(cs, offset)) == "## " + Join(Texts(Between(cs)))
  {
    var ins := Between(cs);
    SafeInputs(cs);
    ExportShape(cs, offset);
    ExportInputs(ins, offset + 1);
    BodyOfExport(ExportFrom(cs, offset), ReplaceAllNewlines(cs[0].title), ExportFrom(ins, offset + 1), Join(Texts(ins)));
  }

  /** The heading and body of a document whose sections are the marked, joined texts `j`. */
  lemma BodyOfExport(t: string, title: string, sections: string, j: string)
    requires HeadingSafe(title) && t == "# " + title + "\n\n" + sections
    requires sections == "## " + j + "\n\n" && j != [] && !IsWhitespace(j[|j| - 1])
    ensures GuideTitle(t) == title && BodyText(t) == "## " + j
  {
    HeadingOfExport(t, title, sections);
    BodyOfSections(sections, j);
  }

  /** The cards between the guide and the sentinel are safe, and so their texts are quiet. */
  lemma SafeInputs(cs: seq<Card>)
    requires RoundTrippable(cs)
    ensures forall i :: 0 <= i < |cs| - 2 ==> SafeSection(Between(cs)[i])
    ensures forall i :: 0 <= i < |cs| - 2 ==> QuietText(Texts(Between(cs))[i])
  {
    var ins := Between(cs);
    forall i | 0 <= i < |ins| ensures SafeSection(ins[i]) && QuietText(Texts(ins)[i]) {
      assert ins[i] == cs[i + 1];
      SafeTextQuiet(ins[i]);
    }
  }

  /** Every section card of the split reads back as the input card at its position. */
  lemma SectionsReadBack(cs: seq<Card>, now: int)
    requires RoundTrippable(cs) && |cs| >= 3
    ensures |SectionCards(Pieces(Texts(Between(cs))), 0, 1, cs, now)| == |cs| - 2
    ensures forall i :: 0 <= i < |cs| - 2 ==>
      CardReadsBack(cs[i + 1], SectionCards(Pieces(Texts(Between(cs))), 0, 1, cs, now)[i])
  {
    var ins := Between(cs);
    SafeInputs(cs);
    var ps := Pieces(Texts(ins));
    forall i | 0 <= i < |ps| ensures !IsBlank(ps[i]) {
      PieceReadsBack(ins[i], ps[i]);
    }
    Seqs.PushEachFromStart(ps, 1, IsBlank, SectionBuilder(cs, now));
    forall i | 0 <= i < |ins| ensures CardReadsBack(cs[i + 1], SectionCards(ps, 0, 1, cs, now)[i]) {
      assert ins[i] == cs[i + 1];
      SectionReadsBack(ins[i], ps[i], i, cs, now);
    }
  }

  /** A document holding only the heading line and a blank line has an empty body. */
  lemma BareBody(t: string)
    requires BodyText(t) == Trim("\n" + "")
    ensures BodyText(t) == ""
  {
    assert IsBlank("\n" + "");
  }

  /** The card built from a safe card's piece at that card's own position reads back as that card. */
  lemma SectionReadsBack(c: Card, piece: string, k: nat, cs: seq<Card>, now: int)
    requires SafeSection(c) && (piece == SectionText(c) || piece == SectionText(c) + "\n")
    requires 1 + k < |cs| && cs[1 + k] == c
    ensures CardReadsBack(c, SectionBuilder(cs, now)(piece, k, 1 + k))
  {
    PieceReadsBack(c, piece);
    assert SectionBuilder(cs, now)(piece, k, 1 + k) == SectionCard(piece, k, 1 + k, cs, now);
  }

  /** The guide, the cards read back, and the sentinel make the canvas read back. */
  lemma ReadBackAssembled(cs: seq<Card>, guide: Card, cards: seq<Card>, r: seq<Card>)
    requires |cs| >= 3 && GuideReadsBack(cs[0], guide)
    requires |cards| == |cs| - 2 && forall i :: 0 <= i < |cards| ==> CardReadsBack(cs[i + 1], cards[i])
    requires r == [guide] + cards + [ImportedAdd]
    ensures ReadsBack(cs, r)
  {
    forall i | 0 < i < |cs| - 1 ensures CardReadsBack(cs[i], r[i]) {
      assert r[i] == cards[i - 1];
    }
  }
}
