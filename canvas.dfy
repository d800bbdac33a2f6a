/**
 * The canvas of the creative workshop as values: an ordered sequence of cards
 * ending, by convention, in one `add` sentinel. Each edit the workshop's
 * handlers make is a function from the old card list to the new one; the
 * `Workshop` class applies them to its state.
 */
module Canvas {
  import opened Model
  import opened Strings
  import Seqs

  const DEFAULT_WIDTH: int := 288
  const DEFAULT_HEIGHT: int := 384
  const MIN_WIDTH: int := 200
  const MIN_HEIGHT: int := 200

  /** `v || fallback` for a size: an absent (0) size falls back to the default. */
  function SizeOr(v: int, fallback: int): int
  {
    if v != 0 then v else fallback
  }

  /** `s || fallback` for a string field. */
  function TextOr(s: string, fallback: string): string
  {
    if s != "" then s else fallback
  }

  /** The sentinel convention: the canvas is non-empty, its last card is `add` and no other card is. */
  predicate SentinelLast(cs: seq<Card>)
  {
    |cs| > 0 && cs[|cs| - 1].kind == Add && forall i :: 0 <= i < |cs| - 1 ==> cs[i].kind != Add
  }

  /** The number of cards of a kind. */
  function CountKind(cs: seq<Card>, k: CardKind): nat
  {
    if cs == [] then 0 else CountKind(cs[..|cs| - 1], k) + (if cs[|cs| - 1].kind == k then 1 else 0)
  }

  lemma {:induction false} CountKindConcat(a: seq<Card>, b: seq<Card>, k: CardKind)
    ensures CountKind(a + b, k) == CountKind(a, k) + CountKind(b, k)
    decreases |b|
  {
    if b == [] {
      assert a + b == a;
    } else {
      assert (a + b)[..|a + b| - 1] == a + b[..|b| - 1];
      CountKindConcat(a, b[..|b| - 1], k);
    }
  }

  /** Under the sentinel convention there is exactly one `add` card. */
  lemma {:induction false} SentinelIsUnique(cs: seq<Card>)
    requires SentinelLast(cs)
    ensures CountKind(cs, Add) == 1
  {
    NoAddCounted(cs[..|cs| - 1]);
  }

  lemma {:induction false} NoAddCounted(cs: seq<Card>)
    requires forall i :: 0 <= i < |cs| ==> cs[i].kind != Add
    ensures CountKind(cs, Add) == 0
  {
    if cs != [] { NoAddCounted(cs[..|cs| - 1]); }
  }

  /** `findIndex(el => el.type === 'add')`, with "not found" (-1) written as `|cs|`. */
  function FirstAddIndex(cs: seq<Card>): (i: nat)
    ensures i <= |cs|
    ensures i < |cs| ==> cs[i].kind == Add
    ensures forall j :: 0 <= j < i ==> cs[j].kind != Add
  {
    if cs == [] then 0
    else if cs[0].kind == Add then 0
    else 1 + FirstAddIndex(cs[1..])
  }

  /** The card `handleAddCard` creates when the sentinel sits at `addIndex`. */
  function NewSectionCard(id: int, addIndex: nat): Card
  {
    Card(id, Input, "New Section", "STEP " + TwoDigits(addIndex), "", "", DEFAULT_WIDTH, DEFAULT_HEIGHT)
  }

  /**
   * `handleAddCard`: without an `add` card the canvas is unchanged; otherwise one
   * new input card goes immediately before the first `add` card and every other
   * card keeps its place relative to the others.
   */
  function WithNewSection(cs: seq<Card>, newId: int): (r: seq<Card>)
    ensures FirstAddIndex(cs) == |cs| ==> r == cs
    ensures FirstAddIndex(cs) < |cs| ==>
      var i := FirstAddIndex(cs);
      && |r| == |cs| + 1
      && r[i] == NewSectionCard(newId, i)
      && r[i].subtitle == "STEP " + TwoDigits(i)
      && Seqs.RemoveAt(r, i) == cs
  {
    var i := FirstAddIndex(cs);
    if i == |cs| then cs else Seqs.InsertAt(cs, i, NewSectionCard(newId, i))
  }

  /** Adding a card keeps the sentinel last and unique and adds exactly one input card. */
  lemma AddKeepsSentinel(cs: seq<Card>, newId: int)
    requires SentinelLast(cs)
    ensures var r := WithNewSection(cs, newId);
      && SentinelLast(r)
      && |r| == |cs| + 1
      && r[|cs| - 1] == NewSectionCard(newId, |cs| - 1)
      && r[..|cs| - 1] == cs[..|cs| - 1]
      && CountKind(r, Input) == CountKind(cs, Input) + 1
  {
    var i := |cs| - 1;
    var r := WithNewSection(cs, newId);
    AddSplices(cs, newId);
    assert r[..i] == cs[..i];
    var n := NewSectionCard(newId, i);
    CountKindConcat(cs[..i] + [n], [cs[i]], Input);
    CountKindConcat(cs[..i], [n], Input);
    CountKindConcat(cs[..i], [cs[i]], Input);
    assert cs == cs[..i] + [cs[i]];
  }

  lemma AddSplices(cs: seq<Card>, newId: int)
    requires SentinelLast(cs)
    ensures WithNewSection(cs, newId) == cs[..|cs| - 1] + [NewSectionCard(newId, |cs| - 1)] + [cs[|cs| - 1]]
  {
    var i := |cs| - 1;
    assert FirstAddIndex(cs) == i;
    assert cs[i..] == [cs[i]];
  }

  /** The four card fields the editor writes through `handleUpdate`. */
  datatype Field = Title | Subtitle | Content | Image

  function WithField(c: Card, f: Field, v: string): (r: Card)
    ensures r.id == c.id && r.kind == c.kind && r.width == c.width && r.height == c.height
  {
    match f
    case Title => c.(title := v)
    case Subtitle => c.(subtitle := v)
    case Content => c.(content := v)
    case Image => c.(image := v)
  }

  /** `handleUpdate`: the cards whose id matches get the field set; every other card is left as it is. */
  function UpdatedCards(cs: seq<Card>, id: int, f: Field, v: string): (r: seq<Card>)
    ensures |r| == |cs|
    ensures forall i :: 0 <= i < |cs| ==> r[i] == (if cs[i].id == id then WithField(cs[i], f, v) else cs[i])
  {
    if cs == [] then []
    else UpdatedCards(cs[..|cs| - 1], id, f, v)
         + [if cs[|cs| - 1].id == id then WithField(cs[|cs| - 1], f, v) else cs[|cs| - 1]]
  }

  /** An update for an id no card carries leaves the canvas equal. */
  lemma UpdateUnknownId(cs: seq<Card>, id: int, f: Field, v: string)
    requires forall i :: 0 <= i < |cs| ==> cs[i].id != id
    ensures UpdatedCards(cs, id, f, v) == cs
  {
  }

  /** An update changes no id, kind or size, so it keeps the sentinel convention. */
  lemma UpdateKeepsSentinel(cs: seq<Card>, id: int, f: Field, v: string)
    requires SentinelLast(cs)
    ensures SentinelLast(UpdatedCards(cs, id, f, v))
  {
  }

  /** `handleDeleteCard`'s filter: exactly the cards carrying `id` disappear, the rest keep their order. */
  function WithoutCard(cs: seq<Card>, id: int): (r: seq<Card>)
    ensures forall c :: c in r <==> c in cs && c.id != id
    ensures forall i :: 0 <= i < |r| ==> r[i].id != id
    ensures (forall i :: 0 <= i < |cs| ==> cs[i].id != id) ==> r == cs
    ensures Seqs.IsSubsequence(r, cs)
    ensures forall c :: multiset(r)[c] == if c.id != id then multiset(cs)[c] else 0
  {
    var p := (c: Card) => c.id != id;
    Seqs.FilterIsSubsequence(cs, p);
    Seqs.FilterKeepsCopies(cs, p);
    Seqs.Filter(cs, p)
  }

  /** Deleting any card but the sentinel keeps the sentinel last and unique. */
  lemma DeleteKeepsSentinel(cs: seq<Card>, id: int)
    requires SentinelLast(cs) && cs[|cs| - 1].id != id
    ensures SentinelLast(WithoutCard(cs, id))
  {
    var p := (c: Card) => c.id != id;
    var i := |cs| - 1;
    assert cs == cs[..i] + [cs[i]];
    Seqs.FilterConcat(cs[..i], [cs[i]], p);
    assert Seqs.Filter([cs[i]], p) == [cs[i]] by {
      assert [cs[i]][..0] == [];
    }
    var front := Seqs.Filter(cs[..i], p);
    assert WithoutCard(cs, id) == front + [cs[i]];
    forall j | 0 <= j < |front| ensures front[j].kind != Add {
      assert front[j] in cs[..i];
    }
  }

  /** `Math.max(minimum, start + delta)`: the size a resize drag sets. */
  function ClampedSize(start: int, delta: int, minimum: int): (r: int)
    ensures r >= minimum && r >= start + delta
    ensures r == minimum || r == start + delta
  {
    if start + delta > minimum then start + delta else minimum
  }

  /** The in-progress resize marker (`resizeRef.current`). */
  datatype ResizeGesture = ResizeGesture(id: int, startX: int, startY: int, startW: int, startH: int)

  /** `handleResizeStart`: the start size falls back to the default when the card has none (or 0). */
  function StartGesture(id: int, currentW: int, currentH: int, x: int, y: int): (g: ResizeGesture)
    ensures g.id == id && g.startX == x && g.startY == y
    ensures g.startW == (if currentW != 0 then currentW else DEFAULT_WIDTH)
    ensures g.startH == (if currentH != 0 then currentH else DEFAULT_HEIGHT)
    ensures g.startW != 0 && g.startH != 0
  {
    ResizeGesture(id, x, y, SizeOr(currentW, DEFAULT_WIDTH), SizeOr(currentH, DEFAULT_HEIGHT))
  }

  /** The mouse-move step of a resize: the matching cards get the clamped size, the others are untouched. */
  function ResizedCards(cs: seq<Card>, g: ResizeGesture, x: int, y: int): (r: seq<Card>)
    ensures |r| == |cs|
    ensures forall i :: 0 <= i < |cs| && cs[i].id == g.id ==>
      r[i] == cs[i].(width := ClampedSize(g.startW, x - g.startX, MIN_WIDTH),
                     height := ClampedSize(g.startH, y - g.startY, MIN_HEIGHT))
    ensures forall i :: 0 <= i < |cs| && cs[i].id != g.id ==> r[i] == cs[i]
  {
    if cs == [] then []
    else
      var c := cs[|cs| - 1];
      ResizedCards(cs[..|cs| - 1], g, x, y)
      + [if c.id == g.id
         then c.(width := ClampedSize(g.startW, x - g.startX, MIN_WIDTH),
                 height := ClampedSize(g.startH, y - g.startY, MIN_HEIGHT))
         else c]
  }

  /** Whatever the mouse does, a resized card is never smaller than 200 by 200. */
  lemma ResizeRespectsMinimum(cs: seq<Card>, g: ResizeGesture, x: int, y: int, i: nat)
    requires i < |cs| && cs[i].id == g.id
    ensures ResizedCards(cs, g, x, y)[i].width >= MIN_WIDTH
    ensures ResizedCards(cs, g, x, y)[i].height >= MIN_HEIGHT
  {
  }

  /** Resizing touches no kind, so it keeps the sentinel convention. */
  lemma ResizeKeepsSentinel(cs: seq<Card>, g: ResizeGesture, x: int, y: int)
    requires SentinelLast(cs)
    ensures SentinelLast(ResizedCards(cs, g, x, y))
  {
  }

  /** A drag that ends on the dragged card's own slot changes nothing. */
  lemma DropOnSelf(cs: seq<Card>, i: nat)
    requires i < |cs|
    ensures Seqs.Move(cs, i, i) == cs
  {
    Seqs.MoveToSelf(cs, i);
  }

  /**
   * Nothing in the drop handler keeps the sentinel last: dragging the `add`
   * card onto slot 0 of any canvas with another card puts it first.
   */
  lemma DropCanMoveSentinel(cs: seq<Card>)
    requires SentinelLast(cs) && |cs| >= 2
    ensures !SentinelLast(Seqs.Move(cs, |cs| - 1, 0))
  {
    var r := Seqs.Move(cs, |cs| - 1, 0);
    assert r[0].kind == Add;
  }
}

/**
 * The duplicate-rejecting tag list edited by the workshop's tag menu and by
 * the published view's tag editor (the same two handlers in both places).
 */
module TagList {
  import opened Strings
  import Seqs

  /** The tag list together with the text of the tag input box. */
  datatype TagEdit = TagEdit(tags: seq<string>, input: string)

  /**
   * `addTag`: the trimmed input is appended and the box cleared only when it is
   * non-blank and not already a tag; otherwise list and box are left unchanged.
   */
  function AddTag(tags: seq<string>, input: string): (r: TagEdit)
    ensures Trim(input) != "" && Trim(input) !in tags ==> r == TagEdit(tags + [Trim(input)], "")
    ensures Trim(input) == "" || Trim(input) in tags ==> r == TagEdit(tags, input)
    ensures Seqs.NoDuplicates(tags) ==> Seqs.NoDuplicates(r.tags)
    ensures forall t :: t in r.tags ==> t in tags || t == Trim(input)
  {
    var t := Trim(input);
    if t != "" && t !in tags then TagEdit(tags + [t], "") else TagEdit(tags, input)
  }

  /** `removeTag`: every entry equal to `t` goes, the others stay in order. */
  function RemoveTag(tags: seq<string>, t: string): (r: seq<string>)
    ensures t !in r
    ensures forall x :: x != t ==> (x in r <==> x in tags)
    ensures t !in tags ==> r == tags
    ensures Seqs.IsSubsequence(r, tags)
    ensures forall x :: multiset(r)[x] == if x != t then multiset(tags)[x] else 0
  {
    var p := (x: string) => x != t;
    Seqs.FilterIsSubsequence(tags, p);
    Seqs.FilterKeepsCopies(tags, p);
    Seqs.Filter(tags, p)
  }

  /** Removing a tag that was just added gives back the list it was added to. */
  lemma RemoveUndoesAdd(tags: seq<string>, input: string)
    requires Trim(input) != "" && Trim(input) !in tags
    ensures RemoveTag(AddTag(tags, input).tags, Trim(input)) == tags
  {
    var t := Trim(input);
    var p := (x: string) => x != t;
    Seqs.FilterConcat(tags, [t], p);
    assert Seqs.Filter([t], p) == [] by {
      assert [t][..0] == [];
    }
  }

  /**
   * `toggleTag` / `togglePlatform`: a present entry is removed (every copy of
   * it, the others kept in order with their copies), an absent one is appended.
   */
  function Toggle(xs: seq<string>, x: string): (r: seq<string>)
    ensures x in r <==> x !in xs
    ensures forall y :: y != x ==> (y in r <==> y in xs)
    ensures x !in xs ==> r == xs + [x]
    ensures x in xs ==> Seqs.IsSubsequence(r, xs)
    ensures x in xs ==> forall y :: multiset(r)[y] == if y != x then multiset(xs)[y] else 0
  {
    if x in xs then RemoveTag(xs, x) else xs + [x]
  }

  /** Toggling an absent entry twice gives the original list back. */
  lemma ToggleTwice(xs: seq<string>, x: string)
    requires x !in xs
    ensures Toggle(Toggle(xs, x), x) == xs
  {
    var p := (y: string) => y != x;
    Seqs.FilterConcat(xs, [x], p);
    assert Seqs.Filter([x], p) == [] by {
      assert [x][..0] == [];
    }
  }
}
