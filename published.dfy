/**
 * The published view: each card shows a cover image and at most three tags,
 * and a tag editor lets the user change a published draft's tags.
 */
module Publishing {
  import opened Model
  import opened Strings
  import TagList
  import Seqs

  /** The tag editor overlaid on one published card: its tag list and input box. */
  class TagEditor {
    var tags: seq<string>
    var input: string

    /** The editor opens on the item's tags (none when it has none) and an empty box. */
    constructor (item: Draft)
      ensures tags == item.tags && input == ""
    {
      tags := item.tags;
      input := "";
    }

    /**
     * `addTag`: a non-blank trimmed input that is not a tag yet is appended and
     * the box cleared; anything else leaves the editor as it was.
     */
    method AddTag()
      modifies this
      ensures TagList.TagEdit(tags, input) == TagList.AddTag(old(tags), old(input))
      ensures Trim(old(input)) != "" && Trim(old(input)) !in old(tags) ==>
        tags == old(tags) + [Trim(old(input))] && input == ""
      ensures Trim(old(input)) == "" || Trim(old(input)) in old(tags) ==>
        tags == old(tags) && input == old(input)
    {
      var e := TagList.AddTag(tags, input);
      tags, input := e.tags, e.input;
    }

    /** `removeTag`: every copy of `t` goes, the other tags stay in order. */
    method RemoveTag(t: string)
      modifies this
      ensures tags == TagList.RemoveTag(old(tags), t) && input == old(input)
      ensures t !in tags && forall x :: x != t ==> (x in tags <==> x in old(tags))
      ensures Seqs.IsSubsequence(tags, old(tags))
      ensures forall x :: multiset(tags)[x] == if x != t then multiset(old(tags))[x] else 0
    {
      tags := TagList.RemoveTag(tags, t);
    }
  }

  /** The published view's own state: the id of the card whose tag editor is open. */
  class PublishedView {
    var editingTagsId: Option<int>

    constructor ()
      ensures editingTagsId == None
    {
      editingTagsId := None;
    }

    /** The tag button of a card opens that card's editor. */
    method EditTags(id: int)
      modifies this
      ensures editingTagsId == Some(id)
    {
      editingTagsId := Some(id);
    }

    /**
     * `handleSaveTags`: when the view was given an update callback, it receives
     * the item with its tags replaced; the editor closes either way.
     */
    method SaveTags(item: Draft, newTags: seq<string>, hasOnUpdate: bool) returns (update: Option<Draft>)
      modifies this
      ensures update == (if hasOnUpdate then Some(Retagged(item, newTags)) else None)
      ensures editingTagsId == None
    {
      update := if hasOnUpdate then Some(Retagged(item, newTags)) else None;
      editingTagsId := None;
    }
  }

  /** `{ ...item, tags: newTags }`. */
  function Retagged(item: Draft, newTags: seq<string>): (r: Draft)
    ensures r.tags == newTags
    ensures r.(tags := item.tags) == item
  {
    item.(tags := newTags)
  }

  /** Saving the tags an item already has forwards the item unchanged. */
  lemma RetagSame(item: Draft)
    ensures Retagged(item, item.tags) == item
  {
  }

  /** Card `i` is the first canvas card with an image. */
  predicate FirstImage(canvas: seq<Card>, i: int)
  {
    0 <= i < |canvas| && canvas[i].image != "" && forall j :: 0 <= j < i ==> canvas[j].image == ""
  }

  /**
   * The cover of a published card: the image of the first canvas card that has
   * one, or none (the placeholder icon is shown).
   */
  function Cover(canvas: seq<Card>): (r: Option<string>)
    ensures r.None? <==> forall i :: 0 <= i < |canvas| ==> canvas[i].image == ""
    ensures r.Some? ==> exists i :: FirstImage(canvas, i) && r.value == canvas[i].image
  {
    if canvas == [] then None
    else if canvas[0].image != "" then
      assert FirstImage(canvas, 0);
      Some(canvas[0].image)
    else
      var r := Cover(canvas[1..]);
      assert r.Some? ==> exists i :: FirstImage(canvas, i) && r.value == canvas[i].image by {
        if r.Some? {
          var i :| FirstImage(canvas[1..], i) && r.value == canvas[1..][i].image;
          assert forall j :: 0 < j < i + 1 ==> canvas[j] == canvas[1..][j - 1];
          assert FirstImage(canvas, i + 1);
        }
      }
      r
  }

  /** Whichever card is the first with an image provides the cover. */
  lemma CoverOfFirstImage(canvas: seq<Card>, k: nat)
    requires FirstImage(canvas, k)
    ensures Cover(canvas) == Some(canvas[k].image)
  {
    var r := Cover(canvas);
    assert canvas[k] in canvas;
    var i :| FirstImage(canvas, i) && r.value == canvas[i].image;
  }

  /** The tag line of a published card: the first tags shown, and the number of the rest (`+k`). */
  datatype TagLine = TagLine(shown: seq<string>, more: Option<nat>)

  /** `item.tags?.slice(0, 3)` and the `+{length - 3}` badge shown when there are more. */
  function TagOverflow(tags: seq<string>): (r: TagLine)
    ensures |r.shown| <= 3 && |r.shown| <= |tags|
    ensures r.shown == tags[..|r.shown|]
    ensures r.more.Some? <==> |tags| > 3
    ensures r.more.None? ==> r.shown == tags
    ensures r.more.Some? ==> |r.shown| == 3 && |r.shown| + r.more.value == |tags|
  {
    if |tags| > 3 then TagLine(tags[..3], Some(|tags| - 3)) else TagLine(tags, None)
  }

  /** The tags shown followed by the ones the badge counts give back the whole list. */
  lemma TagOverflowSplits(tags: seq<string>)
    ensures var r := TagOverflow(tags);
      r.shown + tags[|r.shown|..] == tags &&
      |tags[|r.shown|..]| == (if r.more.Some? then r.more.value else 0)
  {
    var r := TagOverflow(tags);
    assert r.shown + tags[|r.shown|..] == tags[..|r.shown|] + tags[|r.shown|..];
  }
}
