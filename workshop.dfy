/**
 * The creative workshop component as an object: its state fields are replaced
 * by the handlers one step at a time, each step being one of the canvas,
 * tag or transcoder functions applied to the current state.
 */
module Workshop {
  import opened Model
  import opened Strings
  import opened Canvas
  import TagList
  import Transcoder
  import Seqs

  /** Every field of the component's state at one moment. */
  datatype Snapshot = Snapshot(
    elements: seq<Card>,
    tags: seq<string>,
    newTagInput: string,
    selectedId: Option<int>,
    draggedItemIndex: Option<nat>,
    isResizing: bool,
    resizeRef: Option<ResizeGesture>,
    fullDocumentText: string,
    isExpanded: bool,
    selectedPlatforms: seq<string>,
    showPublishModal: bool)

  /** The canvas shown before any draft is loaded. */
  function StarterCards(): (r: seq<Card>)
    ensures SentinelLast(r) && r[0].kind == Guide
  {
    [ Card(1, Guide, "Calculated\nPrecision", "Flowspace Guide", "", "", DEFAULT_WIDTH, DEFAULT_HEIGHT),
      Card(2, Input, "Click to enter content...", "STEP 01", "", "", DEFAULT_WIDTH, DEFAULT_HEIGHT),
      Card(3, Add, "Add New", "Optional", "", "", DEFAULT_WIDTH, DEFAULT_HEIGHT) ]
  }

  // ---------------------------------------------------------------------
  // Hydration
  // ---------------------------------------------------------------------

  function GuideDefault(d: Draft): Card
  {
    Card(1, Guide, TextOr(d.title, "New Project"), "Flowspace Guide", "", "", DEFAULT_WIDTH, DEFAULT_HEIGHT)
  }

  /** The card holding the AI analysis, present when the draft has an outline. */
  function InsightDefault(d: Draft): Card
  {
    Card(2, Input, "AI 智能分析", "AI INSIGHT", d.outline, d.image, DEFAULT_WIDTH, DEFAULT_HEIGHT)
  }

  /** The card holding the original material, present when the draft has content; it carries the image only without an outline. */
  function SourceDefault(d: Draft): Card
  {
    Card(3, Input,
      if d.outline != "" then "原始资料 (Source)" else "创作内容",
      "SOURCE", d.content, if d.outline == "" then d.image else "", DEFAULT_WIDTH, DEFAULT_HEIGHT)
  }

  function AddDefault(): Card
  {
    Card(4, Add, "Add New", "Optional", "", "", DEFAULT_WIDTH, DEFAULT_HEIGHT)
  }

  /** The default canvas built for a draft without saved canvas data. */
  function DefaultCards(d: Draft): seq<Card>
  {
    [GuideDefault(d)]
    + (if d.outline != "" then [InsightDefault(d)] else [])
    + (if d.content != "" then [SourceDefault(d)] else [])
    + [AddDefault()]
  }

  /** The canvas a loaded draft shows: its saved canvas when it has one, else the defaults. */
  function HydratedCards(d: Draft): seq<Card>
  {
    if |d.canvasData| > 0 then d.canvasData else DefaultCards(d)
  }

  /**
   * The default canvas starts with the guide, ends with the sentinel, holds one
   * input card per non-empty outline or content, and no two of its cards share an id.
   */
  lemma DefaultCardsShape(d: Draft)
    ensures var r := DefaultCards(d);
      && SentinelLast(r)
      && r[0] == GuideDefault(d) && r[0].title != ""
      && |r| == 2 + (if d.outline != "" then 1 else 0) + (if d.content != "" then 1 else 0)
      && (forall i :: 0 < i < |r| - 1 ==> r[i].kind == Input)
      && (forall i, j :: 0 <= i < j < |r| ==> r[i].id < r[j].id)
      && (d.outline != "" ==> r[1] == InsightDefault(d))
      && (d.content != "" ==> r[|r| - 2] == SourceDefault(d))
  {
    var r := DefaultCards(d);
    var g, a := GuideDefault(d), AddDefault();
    if d.outline != "" && d.content != "" {
      assert r == [g, InsightDefault(d), SourceDefault(d), a];
    } else if d.outline != "" {
      assert r == [g, InsightDefault(d), a];
    } else if d.content != "" {
      assert r == [g, SourceDefault(d), a];
    } else {
      assert r == [g, a];
    }
  }

  /** The tag list a loaded draft shows (`initialData.tags || []`). */
  function HydratedTags(d: Draft): seq<string>
  {
    d.tags
  }

  // ---------------------------------------------------------------------
  // Payloads
  // ---------------------------------------------------------------------

  /**
   * The record autosave hands to `onSave`: the draft with the current tags and
   * canvas, titled by the guide card's title with its FIRST newline turned into a
   * space (a string pattern, unlike the export's global regex), or by the draft's
   * own title when there is no guide card.
   */
  function AutosaveRecord(d: Draft, cs: seq<Card>, tags: seq<string>): (p: Draft)
    ensures p.id == d.id && p.content == d.content && p.outline == d.outline && p.status == d.status
    ensures p.tags == tags && p.canvasData == cs
    ensures p == d.(title := p.title, tags := tags, canvasData := cs)
    ensures Transcoder.FirstGuide(cs).None? ==> p.title == d.title
    ensures Transcoder.FirstGuide(cs).Some? ==>
      var g := Transcoder.FirstGuide(cs).value.title;
      && |p.title| == |g|
      && (forall i :: 0 <= i < |g| && i != IndexOf(g, '\n') ==> p.title[i] == g[i])
      && ('\n' in g ==> p.title[IndexOf(g, '\n')] == ' ')
  {
    var title := match Transcoder.FirstGuide(cs)
      case Some(g) => ReplaceFirstNewline(g.title)
      case None => d.title;
    d.(title := title, tags := tags, canvasData := cs)
  }

  /**
   * A guide title with two line breaks keeps its second one in the autosaved
   * title, while the exported heading has none.
   */
  lemma AutosaveKeepsSecondNewline(d: Draft, rest: seq<Card>)
    ensures var g := Card(1, Guide, "a\nb\nc", "", "", "", 0, 0);
      && AutosaveRecord(d, [g] + rest, []).title == "a b\nc"
      && ReplaceAllNewlines(g.title) == "a b c"
  {
    var g := Card(1, Guide, "a\nb\nc", "", "", "", 0, 0);
    assert Transcoder.FirstGuide([g] + rest) == Some(g);
    assert IndexOf(g.title, '\n') == 1;
    var p := AutosaveRecord(d, [g] + rest, []);
    assert p.title == ReplaceFirstNewline("a\nb\nc");
    assert ReplaceFirstNewline("a\nb\nc") == "a" + " " + "b\nc";
  }

  /** The record `handlePublishSubmit` hands to `onPublish`: the draft with the current canvas and tags, published. */
  function PublishRecord(d: Draft, cs: seq<Card>, tags: seq<string>): (p: Draft)
    ensures p == d.(canvasData := cs, tags := tags, status := Published)
    ensures p.status == Published && p.id == d.id && p.title == d.title
  {
    d.(canvasData := cs, tags := tags, status := Published)
  }

  // ---------------------------------------------------------------------
  // The component
  // ---------------------------------------------------------------------

  class CreativeWorkshop {
    var elements: seq<Card>
    var tags: seq<string>
    var newTagInput: string
    var selectedId: Option<int>
    var draggedItemIndex: Option<nat>
    var isResizing: bool
    var resizeRef: Option<ResizeGesture>
    var fullDocumentText: string
    var isExpanded: bool
    var selectedPlatforms: seq<string>
    var showPublishModal: bool

    function State(): Snapshot
      reads this
    {
      Snapshot(elements, tags, newTagInput, selectedId, draggedItemIndex, isResizing, resizeRef,
               fullDocumentText, isExpanded, selectedPlatforms, showPublishModal)
    }

    /** A resize is in progress exactly when its start marker is set. */
    predicate Valid()
      reads this
    {
      isResizing <==> resizeRef.Some?
    }

    constructor ()
      ensures Valid()
      ensures State() == Snapshot(StarterCards(), [], "", None, None, false, None, "", false, [], false)
    {
      elements := StarterCards();
      tags := [];
      newTagInput := "";
      selectedId := None;
      draggedItemIndex := None;
      isResizing := false;
      resizeRef := None;
      fullDocumentText := "";
      isExpanded := false;
      selectedPlatforms := [];
      showPublishModal := false;
    }

    /**
     * The load effect: with a draft, its tags, its saved canvas or the default
     * cards pushed one by one, and card 2 selected; without one, nothing.
     */
    method Hydrate(initialData: Option<Draft>)
      requires Valid()
      modifies this
      ensures Valid()
      ensures initialData.None? ==> State() == old(State())
      ensures initialData.Some? ==>
        State() == old(State()).(tags := HydratedTags(initialData.value),
                                 elements := HydratedCards(initialData.value),
                                 selectedId := Some(2))
    {
      if initialData.None? {
        return;
      }
      var d := initialData.value;
      tags := d.tags;
      if |d.canvasData| > 0 {
        elements := d.canvasData;
      } else {
        var defaults: seq<Card> := [];
        defaults := defaults + [GuideDefault(d)];
        if d.outline != "" {
          defaults := defaults + [InsightDefault(d)];
        }
        if d.content != "" {
          defaults := defaults + [SourceDefault(d)];
        }
        defaults := defaults + [AddDefault()];
        elements := defaults;
      }
      selectedId := Some(2);
    }

    /** `handleAddCard`: a new input card before the sentinel (the delayed selection of it is not modelled). */
    method AddCard(newId: int)
      requires Valid()
      modifies this
      ensures Valid()
      ensures State() == old(State()).(elements := WithNewSection(old(elements), newId))
    {
      elements := WithNewSection(elements, newId);
    }

    /** `handleUpdate`: one field of the cards carrying `id`. */
    method Update(id: int, field: Field, value: string)
      requires Valid()
      modifies this
      ensures Valid()
      ensures State() == old(State()).(elements := UpdatedCards(old(elements), id, field, value))
    {
      elements := UpdatedCards(elements, id, field, value);
    }

    /** `handleDeleteCard`: the cards carrying `id` go, and so does the selection if it was that id. */
    method DeleteCard(id: int)
      requires Valid()
      modifies this
      ensures Valid()
      ensures State() == old(State()).(elements := WithoutCard(old(elements), id),
                                       selectedId := if old(selectedId) == Some(id) then None else old(selectedId))
      ensures selectedId != Some(id)
      ensures forall c :: c in elements ==> c.id != id
    {
      elements := WithoutCard(elements, id);
      if selectedId == Some(id) {
        selectedId := None;
      }
    }

    /** `handleDragStart`: refused while a resize is in progress. */
    method DragStart(index: nat)
      requires Valid()
      modifies this
      ensures Valid()
      ensures old(isResizing) ==> State() == old(State())
      ensures !old(isResizing) ==> State() == old(State()).(draggedItemIndex := Some(index))
    {
      if isResizing {
        return;
      }
      draggedItemIndex := Some(index);
    }

    /**
     * `handleDrop`: without a drag in progress, or onto the dragged card's own
     * slot, nothing happens; otherwise the dragged card is taken out and put
     * back at `dropIndex`, and the drag ends.
     */
    method Drop(dropIndex: nat)
      requires Valid()
      requires draggedItemIndex.Some? && draggedItemIndex.value != dropIndex ==>
        draggedItemIndex.value < |elements| && dropIndex < |elements|
      modifies this
      ensures Valid()
      ensures old(draggedItemIndex).None? || old(draggedItemIndex) == Some(dropIndex) ==> State() == old(State())
      ensures old(draggedItemIndex).Some? && old(draggedItemIndex) != Some(dropIndex) ==>
        && State() == old(State()).(elements := Seqs.Move(old(elements), old(draggedItemIndex).value, dropIndex),
                                    draggedItemIndex := None)
        && elements[dropIndex] == old(elements)[old(draggedItemIndex).value]
        && multiset(elements) == multiset(old(elements))
    {
      if draggedItemIndex.None? || draggedItemIndex == Some(dropIndex) {
        return;
      }
      var from := draggedItemIndex.value;
      elements := Seqs.Move(elements, from, dropIndex);
      draggedItemIndex := None;
    }

    /** `handleResizeStart`: the gesture starts from the card's size, or the default for a missing one. */
    method ResizeStart(id: int, currentW: int, currentH: int, x: int, y: int)
      requires Valid()
      modifies this
      ensures Valid()
      ensures State() == old(State()).(isResizing := true, resizeRef := Some(StartGesture(id, currentW, currentH, x, y)))
    {
      isResizing := true;
      resizeRef := Some(StartGesture(id, currentW, currentH, x, y));
    }

    /** The mouse-move handler: the card being resized gets the clamped size the mouse gives. */
    method ResizeMove(x: int, y: int)
      requires Valid()
      modifies this
      ensures Valid()
      ensures old(resizeRef).None? ==> State() == old(State())
      ensures old(resizeRef).Some? ==>
        State() == old(State()).(elements := ResizedCards(old(elements), old(resizeRef).value, x, y))
    {
      if resizeRef.None? {
        return;
      }
      elements := ResizedCards(elements, resizeRef.value, x, y);
    }

    /** The mouse-up handler: ends the gesture in progress. */
    method ResizeEnd()
      requires Valid()
      modifies this
      ensures Valid() && !isResizing && resizeRef.None?
      ensures old(resizeRef).None? ==> State() == old(State())
      ensures old(resizeRef).Some? ==> State() == old(State()).(isResizing := false, resizeRef := None)
    {
      if resizeRef.Some? {
        resizeRef := None;
        isResizing := false;
      }
    }

    /** `handleAddTag` on the tag menu. */
    method AddTag()
      requires Valid()
      modifies this
      ensures Valid()
      ensures var e := TagList.AddTag(old(tags), old(newTagInput));
        State() == old(State()).(tags := e.tags, newTagInput := e.input)
    {
      ghost var before := State();
      var e := TagList.AddTag(tags, newTagInput);
      tags := e.tags;
      newTagInput := e.input;
      assert State() == before.(tags := e.tags, newTagInput := e.input);
    }

    /** `handleRemoveTag`. */
    method RemoveTag(tag: string)
      requires Valid()
      modifies this
      ensures Valid()
      ensures State() == old(State()).(tags := TagList.RemoveTag(old(tags), tag))
    {
      tags := TagList.RemoveTag(tags, tag);
    }

    /** `openUnifiedEditor`: the canvas exported to one document, and the editor opened. */
    method OpenUnifiedEditor()
      requires Valid()
      modifies this
      ensures Valid()
      ensures State() == old(State()).(fullDocumentText := Transcoder.ExportFrom(old(elements), 0), isExpanded := true)
    {
      var md := Transcoder.ExportMarkdown(elements);
      fullDocumentText := md;
      isExpanded := true;
    }

    /** `saveUnifiedEditor`: the document parsed back into the canvas, and the editor closed. */
    method SaveUnifiedEditor(now: int)
      requires Valid()
      modifies this
      ensures Valid()
      ensures State() == old(State()).(elements := Transcoder.ImportCards(old(fullDocumentText), old(elements), now),
                                       isExpanded := false)
    {
      ghost var before := State();
      var cards := Transcoder.ImportMarkdown(fullDocumentText, elements, now);
      elements := cards;
      isExpanded := false;
      assert State() == before.(elements := cards, isExpanded := false);
    }

    /** `insertMarkdown` on the editor's selection; the returned cursor is where the caret is put. */
    method InsertMarkdown(syntax: string, wrap: bool, start: nat, end: nat) returns (cursor: nat)
      requires Valid()
      requires start <= end <= |fullDocumentText|
      modifies this
      ensures Valid()
      ensures var e := Transcoder.InsertMarkdown(old(fullDocumentText), syntax, wrap, start, end);
        State() == old(State()).(fullDocumentText := e.text) && cursor == e.cursor
    {
      var e := Transcoder.InsertMarkdown(fullDocumentText, syntax, wrap, start, end);
      fullDocumentText := e.text;
      cursor := e.cursor;
    }

    /** `togglePlatform`. */
    method TogglePlatform(id: string)
      requires Valid()
      modifies this
      ensures Valid()
      ensures State() == old(State()).(selectedPlatforms := TagList.Toggle(old(selectedPlatforms), id))
    {
      selectedPlatforms := TagList.Toggle(selectedPlatforms, id);
    }

    /** The record autosave would send, or nothing without a draft or an `onSave`. */
    method Autosave(initialData: Option<Draft>, hasOnSave: bool) returns (payload: Option<Draft>)
      ensures initialData.None? || !hasOnSave ==> payload.None?
      ensures initialData.Some? && hasOnSave ==> payload == Some(AutosaveRecord(initialData.value, elements, tags))
    {
      if initialData.None? || !hasOnSave {
        return None;
      }
      payload := Some(AutosaveRecord(initialData.value, elements, tags));
    }

    /**
     * `handlePublishSubmit`: with a draft and an `onPublish`, the published record
     * is handed over, the modal closed and the platform choice cleared; otherwise nothing.
     */
    method PublishSubmit(initialData: Option<Draft>, hasOnPublish: bool) returns (payload: Option<Draft>)
      requires Valid()
      modifies this
      ensures Valid()
      ensures initialData.None? || !hasOnPublish ==> payload.None? && State() == old(State())
      ensures initialData.Some? && hasOnPublish ==>
        && payload == Some(PublishRecord(initialData.value, old(elements), old(tags)))
        && State() == old(State()).(showPublishModal := false, selectedPlatforms := [])
    {
      if initialData.None? || !hasOnPublish {
        return None;
      }
      payload := Some(PublishRecord(initialData.value, elements, tags));
      showPublishModal := false;
      selectedPlatforms := [];
    }
  }

  /**
   * A workshop that loads a draft without a saved canvas and is not touched
   * further autosaves that draft with its title unchanged when the title has
   * no newline, and with the default cards as its canvas.
   */
  lemma HydratedAutosave(d: Draft)
    requires |d.canvasData| == 0 && d.title != "" && '\n' !in d.title
    ensures AutosaveRecord(d, HydratedCards(d), HydratedTags(d)).title == d.title
    ensures AutosaveRecord(d, HydratedCards(d), HydratedTags(d)).canvasData == DefaultCards(d)
  {
    var cs := DefaultCards(d);
    assert cs[0] == GuideDefault(d);
    assert Transcoder.FirstGuide(cs) == Some(GuideDefault(d));
  }
}
