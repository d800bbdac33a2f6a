/**
 * The consultation inbox: captured items, the tags selected for the next
 * capture, the list filter, and the handlers that add, analyse and delete items.
 * The outline and URL analyses are remote calls; their results (or their
 * failure, as `None`) are parameters.
 */
module InfoCollection {
  import opened Model
  import opened Strings
  import Seqs
  import TagList
  import Drafts

  /** The three list filters. */
  datatype Filter = All | Unread | DraftsOnly

  /** What the outline generator returns for a text capture; empty fields stand for absent ones. */
  datatype OutlineResult = OutlineResult(title: string, outline: string, tags: seq<string>)

  /** What the URL analyser returns for a link. */
  datatype UrlResult = UrlResult(title: string, summary: string, tags: seq<string>)

  /** Whether filter `f` lists draft `d`: unread means `read === false`, a missing flag excluded. */
  predicate Keeps(f: Filter, d: Draft)
  {
    match f
    case Unread => d.read == Some(false)
    case DraftsOnly => d.status == Pending
    case All => true
  }

  /** `filteredItems`. */
  function Filtered(items: seq<Draft>, f: Filter): (r: seq<Draft>)
    ensures forall d :: d in r <==> d in items && Keeps(f, d)
    ensures f == All ==> r == items
  {
    Seqs.Filter(items, (d: Draft) => Keeps(f, d))
  }

  /** Every filter keeps the order of the list. */
  lemma FilteredInOrder(items: seq<Draft>, f: Filter)
    ensures Seqs.IsSubsequence(Filtered(items, f), items)
  {
    Seqs.FilterIsSubsequence(items, (d: Draft) => Keeps(f, d));
  }

  /** `unreadCount`: the items whose `read` is `false`. */
  function UnreadCount(items: seq<Draft>): nat
  {
    Seqs.Count(items, (d: Draft) => d.read == Some(false))
  }

  /** The unread badge counts exactly what the unread filter lists. */
  lemma UnreadCountIsUnreadList(items: seq<Draft>)
    ensures UnreadCount(items) == |Filtered(items, Unread)|
  {
    var p := (d: Draft) => Keeps(Unread, d);
    Seqs.FilterLength(items, p);
    CountSame(items, p, (d: Draft) => d.read == Some(false));
  }

  lemma {:induction false} CountSame(s: seq<Draft>, p: Draft -> bool, q: Draft -> bool)
    requires forall d :: p(d) == q(d)
    ensures Seqs.Count(s, p) == Seqs.Count(s, q)
  {
    if s != [] { CountSame(s[..|s| - 1], p, q); }
  }

  /** `inputValue.substring(0, 20)`. */
  function Prefix20(s: string): (r: string)
    ensures |r| == if |s| <= 20 then |s| else 20
    ensures r == s[..|r|]
  {
    if |s| <= 20 then s else s[..20]
  }

  /** The fallback title: a long input is cut to 20 characters and marked with an ellipsis. */
  function FallbackTitle(input: string): (r: string)
    ensures |r| <= 23
    ensures |input| <= 20 ==> r == input
    ensures |input| > 20 ==> |r| == 23 && r[..20] == input[..20] && r[20..] == "..."
  {
    if |input| > 20 then input[..20] + "..." else input
  }

  /** The picture a link capture gets, keyed by its id. */
  function LinkImage(id: nat): string
  {
    "https://picsum.photos/seed/" + DecimalString(id) + "/200/200"
  }

  /**
   * The item `handleAdd` captures from `input`: a link as a placeholder for a
   * later analysis, a text with its generated outline, or, when generation
   * failed, the text with a fallback title. Ids and dates come from the clock.
   */
  function NewItem(input: string, selected: seq<string>, id: nat, date: string, isLink: bool, outline: Option<OutlineResult>): (r: Draft)
    ensures r.id == id && r.content == input && r.date == date
    ensures r.status == Pending && r.read == Some(false) && r.canvasData == []
    ensures isLink ==> r.title == "New Link Resource" && r.outline == "" && r.tags == selected + ["Link"]
    ensures !isLink && outline.None? ==> r.title == FallbackTitle(input) && r.tags == selected
    ensures !isLink && outline.Some? ==> r.tags == selected + outline.value.tags && r.outline == outline.value.outline
    ensures !isLink && outline.Some? && outline.value.title == "" ==> r.title == Prefix20(input)
    ensures !isLink && outline.Some? && outline.value.title != "" ==> r.title == outline.value.title
    ensures !isLink && outline.None? ==> r.outline == ""
    ensures r.image == if isLink then LinkImage(id) else ""
  {
    if isLink then
      Draft(id, "New Link Resource", input, "", LinkImage(id), selected + ["Link"], date, Pending, [], Some(false))
    else if outline.Some? then
      var a := outline.value;
      Draft(id, if a.title != "" then a.title else Prefix20(input), input, a.outline, "", selected + a.tags, date, Pending, [], Some(false))
    else
      Draft(id, FallbackTitle(input), input, "", "", selected, date, Pending, [], Some(false))
  }

  /** The tags an analysed item ends with: its own, then the new ones, each once. */
  function MergeTags(own: seq<string>, added: seq<string>): (r: seq<string>)
    ensures forall t :: t in r <==> t in own || t in added
    ensures Seqs.NoDuplicates(r)
  {
    Seqs.Dedup(own + added)
  }

  /** The item's own tags keep their places in front when they held no repeats. */
  lemma MergeKeepsOldFirst(own: seq<string>, added: seq<string>)
    requires Seqs.NoDuplicates(own)
    ensures |own| <= |MergeTags(own, added)| && MergeTags(own, added)[..|own|] == own
  {
    Seqs.DedupPrefix(own, added);
  }

  /** What a successful URL analysis does to the item it was run on. */
  function Analysed(a: UrlResult): Draft -> Draft
  {
    (i: Draft) => i.(title := a.title, outline := "**AI Summary:**\n" + a.summary, tags := MergeTags(i.tags, a.tags))
  }

  /** An analysis keeps the item's id, so a later delete by id still finds it. */
  lemma AnalysedKeepsId(a: UrlResult, d: Draft)
    ensures Analysed(a)(d).id == d.id && Analysed(a)(d).content == d.content
  {
  }

  datatype Snapshot = Snapshot(items: seq<Draft>, inputValue: string, selectedTags: seq<string>, filter: Filter, analyzingItemId: Option<int>)

  class Collection {
    var items: seq<Draft>
    var inputValue: string
    var selectedTags: seq<string>
    var filter: Filter
    var analyzingItemId: Option<int>

    function State(): Snapshot
      reads this
    {
      Snapshot(items, inputValue, selectedTags, filter, analyzingItemId)
    }

    constructor (initial: seq<Draft>)
      ensures State() == Snapshot(initial, "", [], All, None)
    {
      items, inputValue, selectedTags, filter, analyzingItemId := initial, "", [], All, None;
    }

    /** `toggleTag`: a selected tag is unselected (every copy), another one is selected last. */
    method ToggleTag(tag: string)
      modifies this
      ensures State() == old(State()).(selectedTags := TagList.Toggle(old(selectedTags), tag))
      ensures tag in selectedTags <==> tag !in old(selectedTags)
    {
      selectedTags := TagList.Toggle(selectedTags, tag);
    }

    method SetFilter(f: Filter)
      modifies this
      ensures State() == old(State()).(filter := f)
    {
      filter := f;
    }

    /** What the list shows. */
    function Shown(): (r: seq<Draft>)
      reads this
      ensures forall d :: d in r <==> d in items && Keeps(filter, d)
    {
      Filtered(items, filter)
    }

    /**
     * `handleAdd`: blank input does nothing; otherwise the captured item goes
     * first in the list and the box and tag selection are cleared.
     */
    method Add(id: nat, date: string, isLink: bool, outline: Option<OutlineResult>)
      modifies this
      ensures Trim(old(inputValue)) == "" ==> State() == old(State())
      ensures Trim(old(inputValue)) != "" ==> State() == old(State()).(
        items := [NewItem(old(inputValue), old(selectedTags), id, date, isLink, outline)] + old(items),
        inputValue := "",
        selectedTags := [])
    {
      if Trim(inputValue) == "" {
        return;
      }
      items := [NewItem(inputValue, selectedTags, id, date, isLink, outline)] + items;
      inputValue := "";
      selectedTags := [];
    }

    /**
     * `handleAnalyzeUrl`: nothing for an item without content; otherwise, when
     * the analysis succeeds, every item with that id gets the new title, the
     * summary as outline and the merged tags. The busy marker ends cleared.
     */
    method AnalyzeUrl(item: Draft, result: Option<UrlResult>)
      modifies this
      ensures item.content == "" ==> State() == old(State())
      ensures item.content != "" ==> State() == old(State()).(
        items := if result.Some? then Drafts.ReplaceById(old(items), item.id, Analysed(result.value)) else old(items),
        analyzingItemId := None)
    {
      if item.content == "" {
        return;
      }
      analyzingItemId := Some(item.id);
      if result.Some? {
        items := Drafts.ReplaceById(items, item.id, Analysed(result.value));
      }
      analyzingItemId := None;
    }

    /** The delete button: every item with the id goes. */
    method Delete(id: int)
      modifies this
      ensures State() == old(State()).(items := Drafts.WithoutId(old(items), id))
      ensures forall d :: d in items <==> d in old(items) && d.id != id
    {
      items := Drafts.WithoutId(items, id);
    }
  }

  /** Analysing an item and then deleting it leaves the list as deleting it straight away would. */
  lemma DeleteAfterAnalysis(items: seq<Draft>, id: int, a: UrlResult)
    ensures Drafts.WithoutId(Drafts.ReplaceById(items, id, Analysed(a)), id) == Drafts.WithoutId(items, id)
  {
    Drafts.DeleteAfterReplace(items, id, Analysed(a));
  }

  /** Only the items with the analysed id change, and each of them keeps its tags in front of the new ones. */
  lemma AnalysisTouchesOnlyItsItem(items: seq<Draft>, id: int, a: UrlResult, k: nat)
    requires k < |items| && Seqs.NoDuplicates(items[k].tags)
    ensures var r := Drafts.ReplaceById(items, id, Analysed(a));
      |r| == |items| &&
      (items[k].id != id ==> r[k] == items[k]) &&
      (items[k].id == id ==> |items[k].tags| <= |r[k].tags| && r[k].tags[..|items[k].tags|] == items[k].tags && forall t :: t in a.tags ==> t in r[k].tags)
  {
    MergeKeepsOldFirst(items[k].tags, a.tags);
  }
}
