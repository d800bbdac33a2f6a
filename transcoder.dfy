/**
 * The unified document editor's two directions: the canvas written out as one
 * Markdown document, and that document parsed back into cards. The parser is
 * written against the exact behaviour of the regular expressions it uses:
 * the heading match `/^#\s+(.*?)(\n|$)/` with its backtracking, the heading
 * removal `/^#\s+.*(\n|$)/`, and `split(/\n##\s+/)`.
 */
module Transcoder {
  import opened Model
  import opened Strings
  import opened Canvas
  import Seqs

  // ---------------------------------------------------------------------
  // Export (openUnifiedEditor)
  // ---------------------------------------------------------------------

  /** What one card at array index `index` contributes to the document. */
  function ExportCard(c: Card, index: nat): string
  {
    match c.kind
    case Add => ""
    case Guide =>
      "# " + ReplaceAllNewlines(c.title) + "\n\n" + (if c.content != "" then c.content + "\n\n" else "")
    case Input =>
      "## " + (if c.title != "" then c.title else "Section " + DecimalString(index)) + "\n"
      + (if c.content != "" then c.content + "\n" else "") + "\n"
  }

  /** The document for the cards `cs`, the first of which sits at array index `offset`. */
  function ExportFrom(cs: seq<Card>, offset: nat): string
    decreases |cs|
  {
    if cs == [] then "" else ExportCard(cs[0], offset) + ExportFrom(cs[1..], offset + 1)
  }

  /** The `forEach` loop of `openUnifiedEditor`. */
  method ExportMarkdown(cs: seq<Card>) returns (md: string)
    ensures md == ExportFrom(cs, 0)
  {
    md := "";
    var i := 0;
    assert cs[i..] == cs;
    assert md + ExportFrom(cs, 0) == ExportFrom(cs, 0);
    while i < |cs|
      invariant 0 <= i <= |cs|
      invariant md + ExportFrom(cs[i..], i) == ExportFrom(cs, 0)
    {
      var piece := ExportStep(cs[i], i);
      ExportFromStep(cs, i);
      Seqs.ConcatAssoc(md, piece, ExportFrom(cs[i + 1..], i + 1));
      md := md + piece;
      i := i + 1;
    }
  }

  /** The body of that loop for one card: the text it appends. */
  method ExportStep(el: Card, index: nat) returns (piece: string)
    ensures piece == ExportCard(el, index)
  {
    piece := "";
    if el.kind == Guide {
      piece := "# " + ReplaceAllNewlines(el.title) + "\n\n";
      if el.content != "" {
        piece := piece + el.content + "\n\n";
      }
    } else if el.kind == Input {
      var header := if el.title != "" then el.title else "Section " + DecimalString(index);
      piece := "## " + header + "\n";
      if el.content != "" {
        piece := piece + el.content + "\n";
      }
      piece := piece + "\n";
    }
  }

  lemma ExportFromStep(cs: seq<Card>, i: nat)
    requires i < |cs|
    ensures ExportFrom(cs[i..], i) == ExportCard(cs[i], i) + ExportFrom(cs[i + 1..], i + 1)
  {
    assert cs[i..][1..] == cs[i + 1..];
  }

  /** `add` cards contribute nothing to the document. */
  lemma ExportSkipsAdd(c: Card, index: nat)
    requires c.kind == Add
    ensures ExportCard(c, index) == ""
  {
  }

  /** A guide title's newlines are flattened to spaces, so the heading is one line. */
  lemma ExportGuideIsOneLine(c: Card, index: nat)
    requires c.kind == Guide
    ensures StartsWith(ExportCard(c, index), "# " + ReplaceAllNewlines(c.title) + "\n")
    ensures '\n' !in ReplaceAllNewlines(c.title)
  {
    var e := ExportCard(c, index);
    var h := "# " + ReplaceAllNewlines(c.title) + "\n";
    assert e == h + "\n" + (if c.content != "" then c.content + "\n\n" else "");
    assert e[..|h|] == h;
  }

  /** An untitled input card gets the placeholder heading `Section <array index>`. */
  lemma ExportUntitledSection(c: Card, index: nat)
    requires c.kind == Input && c.title == ""
    ensures StartsWith(ExportCard(c, index), "## Section " + DecimalString(index) + "\n")
  {
    var e := ExportCard(c, index);
    var h := "## Section " + DecimalString(index) + "\n";
    assert e == h + (if c.content != "" then c.content + "\n" else "") + "\n";
    assert e[..|h|] == h;
  }

  // ---------------------------------------------------------------------
  // File export (handleExport)
  // ---------------------------------------------------------------------

  /** What one card contributes to the downloaded `.md` file. */
  function FileCard(c: Card): string
  {
    if c.kind == Add then ""
    else
      TitleLine(c.title) + ContentLine(c.content) + ImageLine(c.image) + "---\n\n"
  }

  /** The heading line of the file export, empty without a title. */
  function TitleLine(title: string): string
  {
    if title != "" then "# " + title + "\n\n" else ""
  }

  /** The content paragraph of the file export, empty without content. */
  function ContentLine(content: string): string
  {
    if content != "" then content + "\n\n" else ""
  }

  /** The image reference line of the file export, empty without an image. */
  function ImageLine(image: string): string
  {
    if image != "" then "![Image](" + image + ")\n\n" else ""
  }

  function FileText(cs: seq<Card>): string
    decreases |cs|
  {
    if cs == [] then "" else FileCard(cs[0]) + FileText(cs[1..])
  }

  /** The `forEach` loop of `handleExport` (the download itself is not modelled). */
  method ExportFile(cs: seq<Card>) returns (md: string)
    ensures md == FileText(cs)
  {
    md := "";
    var i := 0;
    assert cs[i..] == cs;
    assert md + FileText(cs) == FileText(cs);
    while i < |cs|
      invariant 0 <= i <= |cs|
      invariant md + FileText(cs[i..]) == FileText(cs)
    {
      var piece := FileStep(cs[i]);
      assert cs[i..][1..] == cs[i + 1..];
      Seqs.ConcatAssoc(md, piece, FileText(cs[i + 1..]));
      md := md + piece;
      i := i + 1;
    }
  }

  /** The body of that loop for one card. */
  method FileStep(el: Card) returns (piece: string)
    ensures piece == FileCard(el)
  {
    piece := "";
    if el.kind != Add {
      if el.title != "" {
        piece := piece + "# " + el.title + "\n\n";
      }
      assert piece == TitleLine(el.title);
      ghost var text := piece;
      if el.content != "" {
        piece := piece + el.content + "\n\n";
      }
      assert piece == text + ContentLine(el.content);
      text := piece;
      if el.image != "" {
        piece := piece + "![Image](" + el.image + ")\n\n";
      }
      assert piece == text + ImageLine(el.image);
      piece := piece + "---\n\n";
    }
  }

  /** The file is the concatenation of the cards' blocks: exporting two runs of cards is exporting each. */
  lemma {:induction false} FileTextConcat(a: seq<Card>, b: seq<Card>)
    ensures FileText(a + b) == FileText(a) + FileText(b)
    decreases |a|
  {
    if a == [] {
      assert a + b == b;
    } else {
      assert (a + b)[0] == a[0];
      assert (a + b)[1..] == a[1..] + b;
      FileTextConcat(a[1..], b);
      Seqs.ConcatAssoc(FileCard(a[0]), FileText(a[1..]), FileText(b));
    }
  }

  /** Every card other than `add` ends its block with a horizontal rule. */
  lemma FileCardEndsWithRule(c: Card)
    requires c.kind != Add
    ensures |FileCard(c)| >= 5 && FileCard(c)[|FileCard(c)| - 5..] == "---\n\n"
  {
  }

  // ---------------------------------------------------------------------
  // insertMarkdown
  // ---------------------------------------------------------------------

  datatype Edit = Edit(text: string, cursor: nat)

  /**
   * `insertMarkdown(syntax, wrap)` for the selection `[start, end)`: wrapping puts
   * the syntax on both sides of the selection and the cursor after the closing
   * one; otherwise the syntax goes before the selection, on a line of its own
   * (a newline is inserted unless the selection already starts a line), and the
   * cursor goes right after it.
   */
  function InsertMarkdown(text: string, syntax: string, wrap: bool, start: nat, end: nat): (r: Edit)
    requires start <= end <= |text|
    ensures wrap ==> r.text == text[..start] + syntax + text[start..end] + syntax + text[end..]
    ensures wrap ==> r.cursor == |text[..start] + syntax + text[start..end] + syntax|
    ensures !wrap ==> exists prefix :: ((prefix == "" || prefix == "\n")
                                        && (prefix == "" <==> (start == 0 || text[start - 1] == '\n'))
                                        && r.text == text[..start] + prefix + syntax + text[start..]
                                        && r.cursor == start + |prefix| + |syntax|)
    ensures r.cursor <= |r.text|
    ensures !wrap ==> r.text[r.cursor - |syntax|..r.cursor] == syntax
    ensures !wrap ==> r.cursor - |syntax| == 0 || r.text[r.cursor - |syntax| - 1] == '\n'
  {
    if wrap then WrapSelection(text, syntax, start, end) else PrefixLine(text, syntax, start)
  }

  /** The wrapping branch of `insertMarkdown`: the syntax on both sides of the selection, the cursor after the closing one. */
  function WrapSelection(text: string, syntax: string, start: nat, end: nat): (r: Edit)
    requires start <= end <= |text|
    ensures r.text == text[..start] + syntax + text[start..end] + syntax + text[end..]
    ensures r.cursor == |text[..start] + syntax + text[start..end] + syntax|
    ensures r.cursor <= |r.text|
  {
    Edit(text[..start] + syntax + text[start..end] + syntax + text[end..], end + |syntax| * 2)
  }

  /** The line branch of `insertMarkdown`: the syntax at the cursor, after a newline unless the cursor starts a line. */
  function PrefixLine(text: string, syntax: string, start: nat): (r: Edit)
    requires start <= |text|
    ensures exists prefix :: ((prefix == "" || prefix == "\n")
                              && (prefix == "" <==> (start == 0 || text[start - 1] == '\n'))
                              && r.text == text[..start] + prefix + syntax + text[start..]
                              && r.cursor == start + |prefix| + |syntax|)
    ensures r.cursor <= |r.text|
    ensures r.text[r.cursor - |syntax|..r.cursor] == syntax
    ensures r.cursor - |syntax| == 0 || r.text[r.cursor - |syntax| - 1] == '\n'
  {
    var isLineStart := start == 0 || text[start - 1] == '\n';
    var prefix := if isLineStart then "" else "\n";
    var r := Edit(text[..start] + prefix + syntax + text[start..], start + |prefix| + |syntax|);
    assert r.text[..r.cursor] == text[..start] + prefix + syntax;
    r
  }

  /** Deleting what `insertMarkdown` wrapped around the selection gives back the original text. */
  lemma UnwrapRestores(text: string, syntax: string, start: nat, end: nat)
    requires start <= end <= |text|
    ensures var t := InsertMarkdown(text, syntax, true, start, end).text;
      t[..start] + t[start + |syntax|..end + |syntax|] + t[end + 2 * |syntax|..] == text
  {
    var t := InsertMarkdown(text, syntax, true, start, end).text;
    assert t[..start] == text[..start];
    assert t[start + |syntax|..end + |syntax|] == text[start..end];
    assert t[end + 2 * |syntax|..] == text[end..];
    assert text == text[..start] + text[start..end] + text[end..];
  }

  // ---------------------------------------------------------------------
  // Import (saveUnifiedEditor)
  // ---------------------------------------------------------------------

  /** The length of the whitespace run starting at `i`. */
  function WsRun(s: string, i: nat): (n: nat)
    requires i <= |s|
    ensures i + n <= |s|
    ensures forall k :: i <= k < i + n ==> IsWhitespace(s[k])
    ensures i + n == |s| || !IsWhitespace(s[i + n])
    decreases |s| - i
  {
    if i < |s| && IsWhitespace(s[i]) then 1 + WsRun(s, i + 1) else 0
  }

  /** The first line terminator at or after `i`, or `|s|`: where a run of `.` must stop. */
  function FirstTerminator(s: string, i: nat): (q: nat)
    requires i <= |s|
    ensures i <= q <= |s|
    ensures forall k :: i <= k < q ==> !IsLineTerminator(s[k])
    ensures q < |s| ==> IsLineTerminator(s[q])
    decreases |s| - i
  {
    if i == |s| || IsLineTerminator(s[i]) then i else FirstTerminator(s, i + 1)
  }

  /** A successful heading match: the captured text and the end of the matched region. */
  datatype Heading = Heading(title: string, end: nat)

  /**
   * The heading match when `\s+` takes `j` whitespace characters after the `#`:
   * the lazy `.*?` runs to the first line terminator, and the match succeeds
   * when that is a newline or the end of the text; otherwise the engine gives
   * `\s+` one character less and tries again.
   */
  function TryHeading(t: string, j: nat): (r: Option<Heading>)
    requires 1 <= j && 1 + j <= |t|
    ensures r.Some? ==> 2 <= r.value.end <= |t|
    ensures r.Some? ==> forall k :: 0 <= k < |r.value.title| ==> !IsLineTerminator(r.value.title[k])
    ensures r.Some? ==> r.value.end == |t| || t[r.value.end - 1] == '\n'
    decreases j
  {
    var q := FirstTerminator(t, 1 + j);
    if q == |t| then Some(Heading(t[1 + j..q], q))
    else if t[q] == '\n' then Some(Heading(t[1 + j..q], q + 1))
    else if j == 1 then None
    else TryHeading(t, j - 1)
  }

  /** `/^#\s+(.*?)(\n|$)/` and `/^#\s+.*(\n|$)/`, which match the same region. */
  function MatchHeading(t: string): (r: Option<Heading>)
    ensures r.Some? ==> |t| >= 2 && t[0] == '#' && IsWhitespace(t[1])
    ensures r.Some? ==> 2 <= r.value.end <= |t|
    ensures r.Some? ==> forall k :: 0 <= k < |r.value.title| ==> !IsLineTerminator(r.value.title[k])
  {
    if |t| >= 2 && t[0] == '#' && IsWhitespace(t[1]) then TryHeading(t, WsRun(t, 1)) else None
  }

  /** `h1Match ? h1Match[1].trim() : "New Project"`. */
  function GuideTitle(t: string): string
  {
    match MatchHeading(t)
    case Some(h) => Trim(h.title)
    case None => "New Project"
  }

  /** The text with the heading line removed, trimmed. */
  function BodyText(t: string): string
  {
    match MatchHeading(t)
    case Some(h) => Trim(t[h.end..])
    case None => Trim(t)
  }

  /** A match of `/\n##\s+/` starting at `q`. */
  predicate BreakAt(s: string, q: nat)
  {
    q + 4 <= |s| && s[q] == '\n' && s[q + 1] == '#' && s[q + 2] == '#' && IsWhitespace(s[q + 3])
  }

  /** The first break at or after `i`, or `|s|`. */
  function FirstBreak(s: string, i: nat): (q: nat)
    requires i <= |s|
    ensures i <= q <= |s|
    ensures forall k :: i <= k < q ==> !BreakAt(s, k)
    ensures q < |s| ==> BreakAt(s, q)
    decreases |s| - i
  {
    if i == |s| || BreakAt(s, i) then i else FirstBreak(s, i + 1)
  }

  /** Where a break's greedy `\s+` stops. */
  function BreakEnd(s: string, q: nat): (e: nat)
    requires BreakAt(s, q)
    ensures q + 4 <= e <= |s|
  {
    q + 3 + WsRun(s, q + 3)
  }

  /** `s.split(/\n##\s+/)`. */
  function SplitSections(s: string): (r: seq<string>)
    ensures |r| >= 1
    decreases |s|
  {
    var q := FirstBreak(s, 0);
    if q == |s| then [s] else [s[..q]] + SplitSections(s[BreakEnd(s, q)..])
  }

  /** `s.replace(/^##\s+/, '')`. */
  function StripSectionMarker(s: string): string
  {
    if |s| >= 3 && s[0] == '#' && s[1] == '#' && IsWhitespace(s[2]) then s[2 + WsRun(s, 2)..] else s
  }

  /** `lines[0].trim()`. */
  function SectionTitle(sec: string): string
  {
    Trim(sec[..IndexOf(sec, '\n')])
  }

  /** `lines.slice(1).join('\n').trim()`: everything after the first newline. */
  function SectionContent(sec: string): string
  {
    var i := IndexOf(sec, '\n');
    if i == |sec| then "" else Trim(sec[i + 1..])
  }

  /** `elements[p]`, or nothing past the end. */
  function At(cs: seq<Card>, p: nat): Option<Card>
  {
    if p < |cs| then Some(cs[p]) else None
  }

  /** `elements.find(e => e.type === 'guide')`. */
  function FirstGuide(cs: seq<Card>): (r: Option<Card>)
    ensures r.Some? ==> r.value in cs && r.value.kind == Guide
    ensures r.None? ==> forall i :: 0 <= i < |cs| ==> cs[i].kind != Guide
  {
    if cs == [] then None else if cs[0].kind == Guide then Some(cs[0]) else FirstGuide(cs[1..])
  }

  function ImageOf(e: Option<Card>): string
  {
    if e.Some? then e.value.image else ""
  }

  function WidthOf(e: Option<Card>): int
  {
    if e.Some? then SizeOr(e.value.width, DEFAULT_WIDTH) else DEFAULT_WIDTH
  }

  function HeightOf(e: Option<Card>): int
  {
    if e.Some? then SizeOr(e.value.height, DEFAULT_HEIGHT) else DEFAULT_HEIGHT
  }

  /** The guide card the import rebuilds, keeping the previous guide's id, subtitle, image and size. */
  function ImportedGuide(title: string, prev: seq<Card>): Card
  {
    var g := FirstGuide(prev);
    Card(
      if g.Some? && g.value.id != 0 then g.value.id else 1,
      Guide,
      title,
      if g.Some? && g.value.subtitle != "" then g.value.subtitle else "Flowspace Guide",
      "",
      ImageOf(g), WidthOf(g), HeightOf(g))
  }

  /** The card made from text before the first `##` heading; it takes `elements[1]`'s metadata. */
  function IntroCard(text: string, prev: seq<Card>, now: int): Card
  {
    var e := At(prev, 1);
    Card(
      if e.Some? && e.value.id != 0 then e.value.id else now,
      Input, "Introduction", "INTRO", Trim(text),
      ImageOf(e), WidthOf(e), HeightOf(e))
  }

  /** The card made from section `idx`, landing at output position `pos`; it takes `elements[pos]`'s metadata. */
  function SectionCard(sec: string, idx: nat, pos: nat, prev: seq<Card>, now: int): Card
  {
    var e := At(prev, pos);
    var title := SectionTitle(sec);
    Card(
      if e.Some? && e.value.kind != Add && e.value.id != 0 then e.value.id else now + idx,
      Input,
      if title != "" then title else "Untitled Section",
      if e.Some? && e.value.subtitle != "" then e.value.subtitle else "SECTION " + TwoDigits(idx + 1),
      SectionContent(sec),
      ImageOf(e), WidthOf(e), HeightOf(e))
  }

  /** The card-building step of the section loop, with the canvas and clock it reads. */
  function SectionBuilder(prev: seq<Card>, now: int): (string, nat, nat) -> Card
  {
    (sec: string, idx: nat, pos: nat) => SectionCard(sec, idx, pos, prev, now)
  }

  /** The cards for sections `idx..`, the first of which lands at output position `pos`; blank sections are skipped. */
  function SectionCards(secs: seq<string>, idx: nat, pos: nat, prev: seq<Card>, now: int): seq<Card>
  {
    Seqs.PushEach(secs, idx, pos, IsBlank, SectionBuilder(prev, now))
  }

  /** The sentinel the import always appends. */
  const ImportedAdd: Card := Card(999999, Add, "Add New", "Optional", "", "", DEFAULT_WIDTH, DEFAULT_HEIGHT)

  /** The cards produced before the section loop, and the sections the loop then visits. */
  datatype Prelude = Prelude(head: seq<Card>, sections: seq<string>)

  /**
   * The handling of the first piece of `body`'s split `secs`: a leading `## `
   * marker is stripped from it; otherwise non-blank text before the first
   * heading becomes an "Introduction" card and is dropped from the sections.
   */
  function ArrangeSections(body: string, secs: seq<string>, guide: Card, prev: seq<Card>, now: int): Prelude
    requires |secs| >= 1
  {
    if StartsWith(body, "## ") then Prelude([guide], secs[0 := StripSectionMarker(secs[0])])
    else if secs[0] != "" then
      if !IsBlank(secs[0]) then Prelude([guide, IntroCard(secs[0], prev, now)], secs[1..])
      else Prelude([guide], secs[1..])
    else Prelude([guide], secs)
  }

  /** The canvas built from the guide card, the body and its split. */
  function Assemble(guide: Card, body: string, secs: seq<string>, prev: seq<Card>, now: int): seq<Card>
    requires |secs| >= 1
  {
    var p := ArrangeSections(body, secs, guide, prev, now);
    p.head + SectionCards(p.sections, 0, |p.head|, prev, now) + [ImportedAdd]
  }

  /** The canvas `saveUnifiedEditor` builds from the document `t`, given the current canvas `prev`. */
  function ImportCards(t: string, prev: seq<Card>, now: int): seq<Card>
  {
    var body := BodyText(t);
    Assemble(ImportedGuide(GuideTitle(t), prev), body, SplitSections(body), prev, now)
  }

  /** `saveUnifiedEditor`'s parsing, step by step as the handler does it. */
  method ImportMarkdown(t: string, prev: seq<Card>, now: int) returns (cards: seq<Card>)
    ensures cards == ImportCards(t, prev, now)
  {
    var guide := ImportedGuide(GuideTitle(t), prev);
    var body := BodyText(t);
    var sections := SplitSections(body);
    cards := BuildCards(guide, body, sections, prev, now);
  }

  /** The part of `saveUnifiedEditor` after the heading and the split. */
  method BuildCards(guide: Card, body: string, secs: seq<string>, prev: seq<Card>, now: int) returns (cards: seq<Card>)
    requires |secs| >= 1
    ensures cards == Assemble(guide, body, secs, prev, now)
  {
    var head, sections := ArrangeStep(body, secs, guide, prev, now);
    cards := AppendSections(head, sections, prev, now);
    cards := cards + [ImportedAdd];
  }

  /** The `sections.forEach` loop: one card per non-blank section, appended to `head`. */
  method AppendSections(head: seq<Card>, sections: seq<string>, prev: seq<Card>, now: int) returns (cards: seq<Card>)
    ensures cards == head + SectionCards(sections, 0, |head|, prev, now)
  {
    cards := head;
    var idx := 0;
    ghost var pos := |head|;
    while idx < |sections|
      invariant 0 <= idx <= |sections|
      invariant pos == |cards|
      invariant cards + SectionCards(sections, idx, pos, prev, now)
             == head + SectionCards(sections, 0, |head|, prev, now)
    {
      var sec := sections[idx];
      ghost var before := cards;
      ghost var rest := SectionCards(sections, idx + 1, pos + 1, prev, now);
      SectionCardsUnfold(sections, idx, pos, prev, now);
      if !IsBlank(sec) {
        var card := SectionStep(sec, idx, |cards|, prev, now);
        cards := cards + [card];
        Seqs.ConcatAssoc(before, [card], rest);
        pos := pos + 1;
      }
      idx := idx + 1;
    }
    assert cards + [] == cards;
  }

  lemma SectionCardsUnfold(secs: seq<string>, idx: nat, pos: nat, prev: seq<Card>, now: int)
    requires idx < |secs|
    ensures IsBlank(secs[idx]) ==> SectionCards(secs, idx, pos, prev, now) == SectionCards(secs, idx + 1, pos, prev, now)
    ensures !IsBlank(secs[idx]) ==>
      SectionCards(secs, idx, pos, prev, now)
      == [SectionCard(secs[idx], idx, pos, prev, now)] + SectionCards(secs, idx + 1, pos + 1, prev, now)
  {
  }

  /** The handling of the first split piece, as `saveUnifiedEditor` does it before its loop. */
  method ArrangeStep(body: string, secs: seq<string>, guide: Card, prev: seq<Card>, now: int)
    returns (head: seq<Card>, sections: seq<string>)
    requires |secs| >= 1
    ensures Prelude(head, sections) == ArrangeSections(body, secs, guide, prev, now)
  {
    head := [guide];
    sections := secs;
    if StartsWith(body, "## ") {
      sections := sections[0 := StripSectionMarker(sections[0])];
    } else if sections[0] != "" {
      if !IsBlank(sections[0]) {
        head := head + [IntroCard(sections[0], prev, now)];
        sections := sections[1..];
      } else {
        sections := sections[1..];
      }
    }
  }

  /** The body of the `sections.forEach` callback for a non-blank section. */
  method SectionStep(sec: string, idx: nat, pos: nat, prev: seq<Card>, now: int) returns (card: Card)
    ensures card == SectionCard(sec, idx, pos, prev, now)
  {
    var lines0 := sec[..IndexOf(sec, '\n')];
    var title := Trim(lines0);
    var content := SectionContent(sec);
    var existing := At(prev, pos);
    var id := if existing.Some? && existing.value.kind != Add && existing.value.id != 0
              then existing.value.id else now + idx;
    var subtitle := if existing.Some? && existing.value.subtitle != ""
                    then existing.value.subtitle else "SECTION " + TwoDigits(idx + 1);
    card := Card(id, Input, if title != "" then title else "Untitled Section", subtitle, content,
                 ImageOf(existing), WidthOf(existing), HeightOf(existing));
  }

  // --- properties of the import ---

  /** Titled input cards only. */
  predicate TitledInputs(cs: seq<Card>)
  {
    forall k :: 0 <= k < |cs| ==> cs[k].kind == Input && cs[k].title != ""
  }

  lemma SectionCardsAreInputs(secs: seq<string>, idx: nat, pos: nat, prev: seq<Card>, now: int)
    ensures TitledInputs(SectionCards(secs, idx, pos, prev, now))
  {
    Seqs.PushEachKeeps(secs, idx, pos, IsBlank, SectionBuilder(prev, now),
      (c: Card, p: nat) => c.kind == Input && c.title != "");
  }

  lemma ConsTitledInputs(c: Card, rest: seq<Card>)
    requires c.kind == Input && c.title != "" && TitledInputs(rest)
    ensures TitledInputs([c] + rest)
  {
    assert forall k :: 1 <= k < |rest| + 1 ==> ([c] + rest)[k] == rest[k - 1];
  }

  /**
   * Whatever the document, the import yields a guide card with no content first,
   * then input cards only, then the fixed `add` sentinel (id 999999) last.
   */
  lemma ImportShape(t: string, prev: seq<Card>, now: int)
    ensures |ImportCards(t, prev, now)| >= 2
    ensures ImportCards(t, prev, now)[0] == ImportedGuide(GuideTitle(t), prev)
    ensures ImportCards(t, prev, now)[0].content == ""
    ensures ImportCards(t, prev, now)[|ImportCards(t, prev, now)| - 1] == ImportedAdd
    ensures SentinelLast(ImportCards(t, prev, now))
    ensures GuideThenInputs(ImportCards(t, prev, now))
  {
    var body := BodyText(t);
    var secs := SplitSections(body);
    var guide := ImportedGuide(GuideTitle(t), prev);
    AssembleShape(guide, body, secs, prev, now);
  }

  /** Index 0 is the guide, the last index the sentinel, and everything between is an input card. */
  predicate GuideThenInputs(r: seq<Card>)
  {
    |r| >= 2 && r[0].kind == Guide && r[|r| - 1].kind == Add
    && forall i :: 1 <= i < |r| - 1 ==> r[i].kind == Input
  }

  lemma AssembleShape(guide: Card, body: string, secs: seq<string>, prev: seq<Card>, now: int)
    requires |secs| >= 1 && guide.kind == Guide
    ensures var r := Assemble(guide, body, secs, prev, now);
      && |r| >= 2 && r[0] == guide && r[|r| - 1] == ImportedAdd
      && SentinelLast(r) && GuideThenInputs(r)
  {
    var p := ArrangeSections(body, secs, guide, prev, now);
    ArrangeShape(body, secs, guide, prev, now);
    var cards := SectionCards(p.sections, 0, |p.head|, prev, now);
    SectionCardsAreInputs(p.sections, 0, |p.head|, prev, now);
    AssembledShape(p.head, cards);
  }

  /** The guide-first, inputs-between, sentinel-last shape of `head + sections + [sentinel]`. */
  lemma AssembledShape(head: seq<Card>, secs: seq<Card>)
    requires 1 <= |head| <= 2 && head[0].kind == Guide
    requires |head| == 2 ==> head[1].kind == Input
    requires TitledInputs(secs)
    ensures var r := head + secs + [ImportedAdd];
      && r[0] == head[0] && r[|r| - 1] == ImportedAdd
      && GuideThenInputs(r) && SentinelLast(r)
  {
    var r := head + secs + [ImportedAdd];
    forall i | 1 <= i < |r| - 1 ensures r[i].kind == Input {
      if i < |head| {
        assert r[i] == head[i];
      } else {
        assert r[i] == secs[i - |head|];
      }
    }
  }

  lemma ArrangeShape(body: string, secs: seq<string>, guide: Card, prev: seq<Card>, now: int)
    requires |secs| >= 1
    ensures var p := ArrangeSections(body, secs, guide, prev, now);
      && 1 <= |p.head| <= 2 && p.head[0] == guide
      && (|p.head| == 2 ==> p.head[1].kind == Input && KeepsLayout(p.head[1], At(prev, 1)))
      && (|p.head| == 2 && 1 < |prev| && prev[1].id != 0 ==> p.head[1].id == prev[1].id)
  {
  }

  /** Without a leading `# ` heading line the guide is titled "New Project"; an empty heading gives an empty title. */
  lemma GuideTitleDefault(t: string)
    requires |t| < 2 || t[0] != '#' || !IsWhitespace(t[1])
    ensures GuideTitle(t) == "New Project"
    ensures BodyText(t) == Trim(t)
  {
  }

  /** The guide keeps the previous guide's id, subtitle and image whenever the previous canvas had one with them. */
  lemma ImportKeepsGuide(t: string, prev: seq<Card>, now: int, g: nat)
    requires g < |prev| && prev[g].kind == Guide && forall i :: 0 <= i < g ==> prev[i].kind != Guide
    ensures prev[g].id != 0 ==> ImportCards(t, prev, now)[0].id == prev[g].id
    ensures prev[g].subtitle != "" ==> ImportCards(t, prev, now)[0].subtitle == prev[g].subtitle
    ensures ImportCards(t, prev, now)[0].image == prev[g].image
  {
    FirstGuideIsFirst(prev, g);
    ImportShape(t, prev, now);
  }

  lemma {:induction false} FirstGuideIsFirst(cs: seq<Card>, g: nat)
    requires g < |cs| && cs[g].kind == Guide && forall i :: 0 <= i < g ==> cs[i].kind != Guide
    ensures FirstGuide(cs) == Some(cs[g])
  {
    if g > 0 {
      assert forall i :: 0 <= i < g - 1 ==> cs[1..][i] == cs[i + 1];
      FirstGuideIsFirst(cs[1..], g - 1);
    }
  }

  /**
   * Section metadata is matched by output position, not by content: the `k`-th
   * card the loop produces takes its image and size from `prev[pos + k]`, its
   * subtitle when that card has one, and its id unless that card is the `add`
   * sentinel, whatever section it was parsed from.
   */
  lemma SectionMetadataByPosition(secs: seq<string>, idx: nat, pos: nat, prev: seq<Card>, now: int, k: nat)
    requires k < |SectionCards(secs, idx, pos, prev, now)|
    ensures InheritsPosition(SectionCards(secs, idx, pos, prev, now)[k], At(prev, pos + k))
  {
    SectionsInherit(secs, idx, pos, prev, now);
  }

  /**
   * A card built at an output position from the previous card `e` at that
   * position: image and size come from `e`, and so do its subtitle when `e` has
   * one and its id when `e` has one and is not the sentinel.
   */
  predicate InheritsPosition(c: Card, e: Option<Card>)
  {
    && KeepsLayout(c, e)
    && (e.Some? && e.value.subtitle != "" ==> c.subtitle == e.value.subtitle)
    && (e.Some? && e.value.kind != Add && e.value.id != 0 ==> c.id == e.value.id)
  }

  /** Image and size taken from `e`, with the defaults when `e` is absent or has none. */
  predicate KeepsLayout(c: Card, e: Option<Card>)
  {
    c.image == ImageOf(e) && c.width == WidthOf(e) && c.height == HeightOf(e)
  }

  /**
   * The same over the whole import: every card between the guide and the
   * sentinel takes image and size from the previous card at its own position,
   * and its id too when that card has one and is not the sentinel.
   */
  lemma ImportMetadataByPosition(t: string, prev: seq<Card>, now: int, p: nat)
    requires 1 <= p < |ImportCards(t, prev, now)| - 1
    ensures KeepsLayout(ImportCards(t, prev, now)[p], At(prev, p))
    ensures p < |prev| && prev[p].kind != Add && prev[p].id != 0 ==> ImportCards(t, prev, now)[p].id == prev[p].id
  {
    var body := BodyText(t);
    var secs := SplitSections(body);
    var guide := ImportedGuide(GuideTitle(t), prev);
    AssembleMetadata(guide, body, secs, prev, now, p);
  }

  lemma AssembleMetadata(guide: Card, body: string, secs: seq<string>, prev: seq<Card>, now: int, p: nat)
    requires |secs| >= 1 && 1 <= p < |Assemble(guide, body, secs, prev, now)| - 1
    ensures KeepsLayout(Assemble(guide, body, secs, prev, now)[p], At(prev, p))
    ensures p < |prev| && prev[p].kind != Add && prev[p].id != 0 ==> Assemble(guide, body, secs, prev, now)[p].id == prev[p].id
  {
    var pre := ArrangeSections(body, secs, guide, prev, now);
    var cards := SectionCards(pre.sections, 0, |pre.head|, prev, now);
    ArrangeHead(body, secs, guide, prev, now);
    SectionsInherit(pre.sections, 0, |pre.head|, prev, now);
    assert Assemble(guide, body, secs, prev, now) == pre.head + cards + [ImportedAdd];
    ComposeMetadata(pre.head, cards, guide, prev, p);
  }

  /** The card before the sections loop: the guide, then possibly an introduction at position 1. */
  predicate ValidHead(head: seq<Card>, guide: Card, prev: seq<Card>)
  {
    && 1 <= |head| <= 2 && head[0] == guide
    && (|head| == 2 ==>
          && head[1].kind == Input && KeepsLayout(head[1], At(prev, 1))
          && (1 < |prev| && prev[1].id != 0 ==> head[1].id == prev[1].id))
  }

  lemma ArrangeHead(body: string, secs: seq<string>, guide: Card, prev: seq<Card>, now: int)
    requires |secs| >= 1
    ensures ValidHead(ArrangeSections(body, secs, guide, prev, now).head, guide, prev)
  {
  }

  /** Every section card inherits from the previous card at its own position. */
  predicate AllInherit(cards: seq<Card>, prev: seq<Card>, pos: nat)
  {
    forall k :: 0 <= k < |cards| ==> InheritsPosition(cards[k], At(prev, pos + k))
  }

  lemma SectionsInherit(secs: seq<string>, idx: nat, pos: nat, prev: seq<Card>, now: int)
    ensures AllInherit(SectionCards(secs, idx, pos, prev, now), prev, pos)
  {
    var f, q := SectionBuilder(prev, now), (c: Card, p: nat) => InheritsPosition(c, At(prev, p));
    forall sec, j, p ensures q(f(sec, j, p), p) {
      SectionCardInherits(sec, j, p, prev, now);
    }
    Seqs.PushEachKeeps(secs, idx, pos, IsBlank, f, q);
    var cards := SectionCards(secs, idx, pos, prev, now);
    assert cards == Seqs.PushEach(secs, idx, pos, IsBlank, f);
    forall k | 0 <= k < |cards| ensures InheritsPosition(cards[k], At(prev, pos + k)) {
      assert q(cards[k], pos + k);
    }
  }

  /** One section card takes the metadata of the old card at its landing position. */
  lemma SectionCardInherits(sec: string, idx: nat, pos: nat, prev: seq<Card>, now: int)
    ensures InheritsPosition(SectionCard(sec, idx, pos, prev, now), At(prev, pos))
  {
  }

  lemma ComposeMetadata(head: seq<Card>, cards: seq<Card>, guide: Card, prev: seq<Card>, p: nat)
    requires ValidHead(head, guide, prev) && AllInherit(cards, prev, |head|)
    requires 1 <= p < |head| + |cards|
    ensures KeepsLayout((head + cards + [ImportedAdd])[p], At(prev, p))
    ensures p < |prev| && prev[p].kind != Add && prev[p].id != 0 ==> (head + cards + [ImportedAdd])[p].id == prev[p].id
  {
    var r := head + cards + [ImportedAdd];
    if p < |head| {
      assert r[p] == head[p];
    } else {
      assert r[p] == cards[p - |head|];
      assert InheritsPosition(cards[p - |head|], At(prev, |head| + (p - |head|)));
    }
  }

  /** A title that reads back unchanged from a heading line: non-empty, trimmed, on one line. */
  predicate HeadingSafe(title: string)
  {
    title != [] && IsTrimmed(title) && forall k :: 0 <= k < |title| ==> !IsLineTerminator(title[k])
  }

  /** A document holding only a heading imports as the guide and the sentinel. */
  lemma HeadingOnly(title: string, prev: seq<Card>, now: int)
    requires HeadingSafe(title)
    ensures ImportCards("# " + title, prev, now) == [ImportedGuide(title, prev), ImportedAdd]
  {
    var t := "# " + title;
    HeadingLine(t, title, "");
    assert t + "" == t;
    TrimOfTrimmed(title);
    assert t[|t|..] == [];
    assert BodyText(t) == Trim([]);
    EmptyBodyAssembles(ImportedGuide(title, prev), "", prev, now);
  }

  /**
   * The heading match on `# title` followed by `rest`, where `rest` is empty or
   * starts a new line: the whole title is captured and the match ends after
   * the newline.
   */
  lemma HeadingLine(t: string, title: string, rest: string)
    requires HeadingSafe(title) && t == "# " + title + rest
    requires rest == [] || rest[0] == '\n'
    ensures MatchHeading(t) == Some(Heading(title, if rest == [] then |t| else 3 + |title|))
  {
    assert t[1] == ' ';
    assert t[2] == title[0];
    assert WsRun(t, 2) == 0;
    assert WsRun(t, 1) == 1;
    forall k | 2 <= k < 2 + |title| ensures !IsLineTerminator(t[k]) {
      assert t[k] == title[k - 2];
    }
    if rest != [] {
      assert t[2 + |title|] == rest[0];
    }
    assert FirstTerminator(t, 2) == 2 + |title|;
    assert t[2..2 + |title|] == title;
  }

  /** The document "# Only Title" imports as the guide titled "Only Title" and the sentinel. */
  lemma OnlyTitle(t: string, prev: seq<Card>, now: int)
    requires t == "# Only Title"
    ensures ImportCards(t, prev, now) == [ImportedGuide("Only Title", prev), ImportedAdd]
  {
    var title := t[2..];
    OnlyTitleSplit(t, title);
    HeadingOnly(title, prev, now);
  }

  lemma OnlyTitleSplit(t: string, title: string)
    requires t == "# Only Title" && title == t[2..]
    ensures t == "# " + title && title == "Only Title" && HeadingSafe(title)
  {
    assert !IsWhitespace(title[0]) && !IsWhitespace(title[|title| - 1]);
  }

  /** An empty body yields no section cards at all. */
  lemma EmptyBodyAssembles(guide: Card, body: string, prev: seq<Card>, now: int)
    requires body == ""
    ensures SplitSections(body) == [""]
    ensures Assemble(guide, body, SplitSections(body), prev, now) == [guide, ImportedAdd]
  {
    assert FirstBreak(body, 0) == 0;
    assert ArrangeSections(body, [""], guide, prev, now) == Prelude([guide], [""]);
    assert IsBlank("");
    assert SectionCards([""], 0, 1, prev, now) == [];
  }

  /**
   * A blank section is skipped but still uses up its number: in "## \n## B"
   * the first section is empty once its marker is stripped, so "B" is
   * numbered SECTION 02 on a canvas that had no card at its position.
   */
  lemma BlankSectionKeepsNumber(t: string, now: int)
    requires t == "## \n## B"
    ensures |ImportCards(t, [], now)| == 3
    ensures ImportCards(t, [], now)[1].title == "B"
    ensures ImportCards(t, [], now)[1].subtitle == "SECTION 02"
    ensures ImportCards(t, [], now)[1].id == now + 1
  {
    BlankSectionBody(t);
    BlankSectionSplit(t);
    BlankSectionAssembled(t, SplitSections(t), ImportedGuide(GuideTitle(t), []), now);
  }

  lemma BlankSectionAssembled(t: string, secs: seq<string>, guide: Card, now: int)
    requires t == "## \n## B" && secs == ["## ", "B"]
    ensures var r := Assemble(guide, t, secs, [], now);
      |r| == 3 && r[1].title == "B" && r[1].subtitle == "SECTION 02" && r[1].id == now + 1
  {
    var stripped := ["", "B"];
    BlankSectionArranged(t, secs, stripped, guide, now);
    var c := SectionCard(stripped[1], 1, 1, [], now);
    assert Assemble(guide, t, secs, [], now) == [guide] + [c] + [ImportedAdd];
    BlankSectionCard(stripped[1], now);
  }

  lemma BlankSectionBody(t: string)
    requires t == "## \n## B"
    ensures GuideTitle(t) == "New Project" && BodyText(t) == t
  {
    assert MatchHeading(t) == None;
    TrimOfTrimmed(t);
  }

  lemma BlankSectionArranged(t: string, secs: seq<string>, stripped: seq<string>, guide: Card, now: int)
    requires t == "## \n## B" && secs == ["## ", "B"] && stripped == ["", "B"]
    ensures ArrangeSections(t, secs, guide, [], now) == Prelude([guide], stripped)
    ensures SectionCards(stripped, 0, 1, [], now) == [SectionCard(stripped[1], 1, 1, [], now)]
  {
    assert StartsWith(t, "## ");
    assert WsRun(secs[0], 2) == 1;
    assert StripSectionMarker(secs[0]) == "";
    BlankThenB(stripped, now);
  }

  lemma BlankThenB(stripped: seq<string>, now: int)
    requires stripped == ["", "B"]
    ensures SectionCards(stripped, 0, 1, [], now) == [SectionCard(stripped[1], 1, 1, [], now)]
  {
    assert IsBlank(stripped[0]);
    assert !IsWhitespace(stripped[1][0]);
    SectionCardsUnfold(stripped, 0, 1, [], now);
    SectionCardsUnfold(stripped, 1, 1, [], now);
    assert SectionCards(stripped, 2, 2, [], now) == [];
  }

  lemma BlankSectionCard(b: string, now: int)
    requires b == "B"
    ensures SectionCard(b, 1, 1, [], now).title == "B"
    ensures SectionCard(b, 1, 1, [], now).subtitle == "SECTION 02"
    ensures SectionCard(b, 1, 1, [], now).id == now + 1
  {
    assert IndexOf(b, '\n') == 1;
    TrimOfTrimmed(b);
    assert SectionTitle(b) == "B";
    assert TwoDigits(2) == "02";
  }

  lemma BlankSectionSplit(t: string)
    requires t == "## \n## B"
    ensures SplitSections(t) == ["## ", "B"]
  {
    assert !BreakAt(t, 0) && !BreakAt(t, 1) && !BreakAt(t, 2);
    assert BreakAt(t, 3);
    assert FirstBreak(t, 0) == 3;
    assert WsRun(t, 7) == 0;
    assert WsRun(t, 6) == 1;
    assert BreakEnd(t, 3) == 7;
    assert t[..3] == "## ";
    assert t[7..] == "B";
    assert FirstBreak("B", 0) == 1;
    assert SplitSections("B") == ["B"];
  }
}
