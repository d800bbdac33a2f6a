# FlowDebug-Workbench core, modelled in Dafny

FlowDebug-Workbench is a React workbench for collecting inspiration and turning
it into published content. This project models the logic behind its screens
and proves properties of that logic. Rendering is not modelled.

- **Creative workshop** (`canvas.dfy`, `transcoder.dfy`, `roundtrip.dfy`,
  `workshop.dfy`):
  - A canvas of cards: a guide, input cards, and an `add` sentinel.
  - The handlers that add, update, delete, reorder and resize cards.
  - The duplicate-rejecting tag list.
  - The unified Markdown editor: export, import, and the cursor-aware
    `insertMarkdown` edit.
  - The second file-export format.
  - Hydration of a draft into default cards.
  - The autosave and publish records.
  - The import is written against the exact behaviour of the regular
    expressions the code uses, not against CommonMark. The round trip
    export→import is proved for canvases whose titles and contents cannot be
    mistaken for headings.
- **Draft store** (`app.dfy`): the application shell's drafts, the active
  draft, the current view and the notifications. Its handlers update,
  delete, publish and create drafts.
- **Archive** (`archived.dfy`): grouping drafts by tag, with ids deduplicated
  per group. The keys are sorted.
- **Published view** (`published.dfy`): the tag editor, the saved-tags
  callback, the cover image and the "+k" tag overflow.
- **Consultation inbox** (`infocollection.dfy`):
  - tag selection and the list filters;
  - new-item construction for links, for text with an outline, and for the
    fallback when outline generation fails;
  - URL analysis with its tag merge, and delete.
- **Inspiration capsule** (`inspiration.dfy`):
  - the channel list's first-start migration;
  - drag reorder, add and delete;
  - the URL a search term opens, and the labels;
  - the direct-mode card lists.
- **AI settings dialog** (`settings.dfy`): default models and endpoints, and
  the per-provider key vault. The vault keeps keys across provider switches.
- **Dashboard** (`dashboard.dfy`):
  - the activity map and the 12×7 heatmap grid;
  - the intensity buckets;
  - the greeting by hour, the status counts and the pending preview.

Shared pieces:

- `model.dfy` holds the data shapes.
- `strings.dfy` holds JavaScript string behaviour: `\s` and `trim`,
  `String(n)`, `padStart`, `includes`, and the two newline replacements.
- `seqs.dfy` holds generic sequence operations: filter, count, first-occurrence
  dedup (`new Set`), and the splice pair used by drag reorder.

Stateful components are classes whose fields are the component's state.

- Each handler is a method. Its `ensures` gives the whole new state as
  `old(State())` with the changed fields.
- The lists are computed by functions whose properties are proved as lemmas.
- The loops of the source are methods with loop invariants, proved against
  those functions:
  - the export `forEach` loops;
  - the import's section loop;
  - the archive grouping loops;
  - the heatmap's map and grid loops.

Optional fields are modelled by the value the code tests for. An empty string
stands for a missing string field, `0` for a missing size, and `[]` for
missing tags or canvas data. Every use in the source is a truthiness test or
`|| default`, where the two behave alike. The exception is `read`, an
`Option<bool>`, because the unread filter tests `read === false`.

Clock values, random ids, mouse coordinates, `encodeURIComponent`, URL
validity, and the results of the LLM and network services are parameters.

## Model

| member | source | states |
|---|---|---|
| Strings.Trim | components/Published.tsx:17 | `trim()`: no whitespace left at either end, and empty exactly when the input is blank |
| Strings.TrimSlice | components/Published.tsx:17 | what `trim()` keeps is a slice of the input with only whitespace cut off before and after it |
| Strings.TrimStart | components/Published.tsx:17 | the leading whitespace run is dropped: the result is a suffix that does not start with whitespace |
| Strings.TrimEnd | components/Published.tsx:17 | the trailing whitespace run is dropped: the result is a prefix that does not end with whitespace |
| Strings.TrimOfTrimmed | components/Published.tsx:17-18 | trimming an already trimmed tag changes nothing |
| Strings.DecimalString | components/InspirationCapsule.tsx:230 | `String(n)`: decimal digits, no leading zero |
| Strings.DecimalStringValue | components/InspirationCapsule.tsx:230 | the digits of `String(n)` read back as `n`, so different clocks give different ids |
| Strings.TwoDigits | components/CreativeWorkshop.tsx:393 | `padStart(2, '0')`: two digits below 100, a leading zero below 10 |
| Strings.TwoDigitsValue | components/CreativeWorkshop.tsx:393 | the padded counter reads back as its number |
| Strings.ReplaceAllNewlines | components/CreativeWorkshop.tsx:270 | `/\n/g` replaced by spaces: same length, every newline a space, nothing else changed |
| Strings.ReplaceFirstNewline | components/CreativeWorkshop.tsx:158 | a string pattern replaces only the first newline; everything else is unchanged |
| Seqs.InsertAt | components/CreativeWorkshop.tsx:405-406 | `splice(i, 0, x)`: `x` lands at `i`, and removing it gives back the list |
| Seqs.Move | components/CreativeWorkshop.tsx:194-200 | the two splices: the dragged element lands at the target, same length, the same multiset, and the others keep their order |
| Seqs.Dedup | components/InfoCollection.tsx:118 | `[...new Set(xs)]`: the same elements, each once |
| Seqs.Filter | App.tsx:85 | `filter(p)`: exactly the elements satisfying `p`, never longer than the input, and the input itself when every element passes |
| Seqs.DedupPrefix | components/InfoCollection.tsx:118 | the deduplicated old list is a prefix of the deduplicated concatenation |
| Canvas.FirstAddIndex | components/CreativeWorkshop.tsx:390-391 | `findIndex` of the `add` card, with "not found" as the length |
| Canvas.NewSectionCard | components/CreativeWorkshop.tsx:393-404 | definition: the card `handleAddCard` builds. `WithNewSection` and `AddSplices` state where it goes |
| Canvas.WithNewSection | components/CreativeWorkshop.tsx:387-408 | no `add` card: unchanged. Otherwise one "New Section"/"STEP nn" card is inserted before the first `add` card, and removing it gives the old canvas |
| Canvas.AddKeepsSentinel | components/CreativeWorkshop.tsx:387-408 | with the sentinel last, adding keeps it last and unique, leaves the cards before it equal, and adds exactly one input card |
| Canvas.AddSplices | components/CreativeWorkshop.tsx:390-406 | with the sentinel last, the new card goes just before it, numbered by its position |
| Canvas.SentinelIsUnique | components/CreativeWorkshop.tsx:390 | a canvas with the sentinel last has exactly one `add` card |
| Canvas.WithField | components/CreativeWorkshop.tsx:383-385 | setting one field keeps the id, kind and size |
| Canvas.UpdatedCards | components/CreativeWorkshop.tsx:383-385 | the cards with the id get the field; every other card is unchanged; same length |
| Canvas.UpdateUnknownId | components/CreativeWorkshop.tsx:383-385 | an update for an absent id leaves the canvas equal |
| Canvas.UpdateKeepsSentinel | components/CreativeWorkshop.tsx:383-385 | updates keep the sentinel convention |
| Canvas.WithoutCard | components/CreativeWorkshop.tsx:418-421 | exactly the cards with the id go. The result is a subsequence of the canvas (order kept) with every copy of each other card, and an absent id leaves the canvas equal |
| Canvas.DeleteKeepsSentinel | components/CreativeWorkshop.tsx:418-421 | deleting anything but the sentinel keeps it last and unique |
| Canvas.ClampedSize | components/CreativeWorkshop.tsx:215-216 | `Math.max(min, start + delta)`: at least both, and equal to one of them |
| Canvas.StartGesture | components/CreativeWorkshop.tsx:244-255 | the gesture records the mouse position, and the size with 288×384 for a missing size |
| Canvas.ResizedCards | components/CreativeWorkshop.tsx:208-221 | the matching cards get the clamped width and height; every other card is unchanged |
| Canvas.ResizeRespectsMinimum | components/CreativeWorkshop.tsx:215-216 | a resized card is never smaller than 200×200 |
| Canvas.ResizeKeepsSentinel | components/CreativeWorkshop.tsx:218-220 | resizing keeps the sentinel convention |
| Canvas.DropOnSelf | components/CreativeWorkshop.tsx:189-200 | moving a card onto its own slot is the identity |
| Canvas.DropCanMoveSentinel | components/CreativeWorkshop.tsx:190-201 | nothing keeps the `add` card last: dragging it to slot 0 breaks the convention |
| TagList.AddTag | components/CreativeWorkshop.tsx:442-447 | a non-blank trimmed input that is not yet a tag is appended and the box cleared; otherwise nothing changes; no duplicates are introduced |
| TagList.RemoveTag | components/CreativeWorkshop.tsx:449-451 | every copy of the tag goes. The rest is a subsequence of the list (order kept) with every copy of each other tag |
| TagList.RemoveUndoesAdd | components/CreativeWorkshop.tsx:442-451 | removing a tag just added gives back the old list |
| TagList.Toggle | components/CreativeWorkshop.tsx:510-516 | an absent entry is appended. A present entry is removed with every copy, and the rest is a subsequence of the list (order kept) with every copy of each other entry |
| TagList.ToggleTwice | components/InfoCollection.tsx:33-39 | toggling an absent tag twice restores the list |
| Transcoder.ExportMarkdown | components/CreativeWorkshop.tsx:264-285 | the `forEach` loop builds the document `ExportFrom(cards, 0)` |
| Transcoder.ExportCard | components/CreativeWorkshop.tsx:266-281 | definition: one card's piece of the document. `ExportSkipsAdd`, `ExportGuideIsOneLine` and `ExportUntitledSection` state its cases |
| Transcoder.ExportFrom | components/CreativeWorkshop.tsx:264-285 | definition: the pieces of the cards in order, numbered by array index. `ExportMarkdown` is proved to compute it |
| Transcoder.ExportStep | components/CreativeWorkshop.tsx:266-281 | one loop iteration appends that card's piece |
| Transcoder.ExportFromStep | components/CreativeWorkshop.tsx:266 | the document is each card's piece, in order, numbered by array index |
| Transcoder.ExportSkipsAdd | components/CreativeWorkshop.tsx:267 | `add` cards contribute nothing |
| Transcoder.ExportGuideIsOneLine | components/CreativeWorkshop.tsx:270-273 | the guide becomes a one-line `# ` heading with newlines flattened |
| Transcoder.ExportUntitledSection | components/CreativeWorkshop.tsx:277-278 | an untitled card's heading is `Section <array index>` |
| Transcoder.ExportFile | components/CreativeWorkshop.tsx:453-462 | the download loop builds `FileText(cards)` |
| Transcoder.FileCard | components/CreativeWorkshop.tsx:456-461 | definition: one card's block of the downloaded file. `FileCardEndsWithRule` states its shape |
| Transcoder.FileText | components/CreativeWorkshop.tsx:453-462 | definition: the blocks of the cards in order. `ExportFile` is proved to compute it |
| Transcoder.FileStep | components/CreativeWorkshop.tsx:456-461 | one iteration appends that card's block |
| Transcoder.FileTextConcat | components/CreativeWorkshop.tsx:456-462 | the file is the concatenation of the blocks |
| Transcoder.FileCardEndsWithRule | components/CreativeWorkshop.tsx:461 | every block but the sentinel's ends with `---` and a blank line |
| Transcoder.InsertMarkdown | components/CreativeWorkshop.tsx:477-498 | wrap: the syntax on both sides of the selection, and the cursor after the closing one. Otherwise: the syntax on a line of its own, a newline added unless at a line start, and the cursor after the syntax |
| Transcoder.WrapSelection | components/CreativeWorkshop.tsx:489-491 | the wrapping branch, the cursor within the text |
| Transcoder.PrefixLine | components/CreativeWorkshop.tsx:493-497 | the line branch: the syntax ends at the cursor and starts a line |
| Transcoder.UnwrapRestores | components/CreativeWorkshop.tsx:489-490 | cutting the two inserted syntaxes out gives back the original text |
| Transcoder.WsRun | components/CreativeWorkshop.tsx:292 | `\s+` is greedy: a maximal whitespace run |
| Transcoder.FirstTerminator | components/CreativeWorkshop.tsx:292 | where `.` must stop: the first line terminator |
| Transcoder.TryHeading | components/CreativeWorkshop.tsx:292 | one backtracking attempt of the heading regex; a match ends at a newline or at the end of the text |
| Transcoder.MatchHeading | components/CreativeWorkshop.tsx:292-309 | the heading matches only at the very start (`#` then whitespace), and the captured title holds no line terminator |
| Transcoder.GuideTitle | components/CreativeWorkshop.tsx:292-293 | definition: the captured heading trimmed, else "New Project". `GuideTitleDefault` and `DocumentOfSections` state it |
| Transcoder.BodyText | components/CreativeWorkshop.tsx:309 | definition: the text after the matched heading line, trimmed. `GuideTitleDefault` and `DocumentOfSections` state it |
| Transcoder.FirstBreak | components/CreativeWorkshop.tsx:314 | the first `\n##\s+` match at or after a position |
| Transcoder.SplitSections | components/CreativeWorkshop.tsx:314 | `split(/\n##\s+/)` yields at least one piece |
| Transcoder.FirstGuide | components/CreativeWorkshop.tsx:296 | `find` of the guide: a guide of the list, or none when there is none |
| Transcoder.FirstGuideIsFirst | components/CreativeWorkshop.tsx:296 | `find` returns the first guide of the list |
| Transcoder.ImportedGuide | components/CreativeWorkshop.tsx:296-306 | definition: the rebuilt guide. `ImportKeepsGuide` states what it keeps |
| Transcoder.IntroCard | components/CreativeWorkshop.tsx:319-335 | definition: the "Introduction" card, taking the old card 1's metadata. `ArrangeStep` and `ImportMetadataByPosition` state its use |
| Transcoder.SectionCard | components/CreativeWorkshop.tsx:343-363 | definition: one section's card. `SectionMetadataByPosition` states what it inherits |
| Transcoder.ArrangeSections | components/CreativeWorkshop.tsx:316-339 | definition: the head cards and the sections left for the loop. `ArrangeStep` is proved to compute it |
| Transcoder.Assemble | components/CreativeWorkshop.tsx:316-377 | definition: the head cards, the section cards and the sentinel. `BuildCards` is proved to compute it |
| Transcoder.ImportCards | components/CreativeWorkshop.tsx:287-377 | definition: the whole import. `ImportMarkdown` is proved to compute it, and `ImportShape` and `RoundTrip` state its properties |
| Transcoder.ImportMarkdown | components/CreativeWorkshop.tsx:287-380 | the handler's steps compute `ImportCards(text, old canvas, now)` |
| Transcoder.BuildCards | components/CreativeWorkshop.tsx:316-377 | the steps after the split compute `Assemble` |
| Transcoder.AppendSections | components/CreativeWorkshop.tsx:342-364 | the section loop appends one card per non-blank section, by output position |
| Transcoder.ArrangeStep | components/CreativeWorkshop.tsx:316-339 | a leading `## ` is stripped; otherwise non-blank leading text becomes the Introduction card and is shifted off |
| Transcoder.SectionStep | components/CreativeWorkshop.tsx:343-363 | one iteration builds that section's card |
| Transcoder.ImportShape | components/CreativeWorkshop.tsx:287-377 | for any text: a guide with no content first, only input cards between, and the 999999 `add` sentinel last |
| Transcoder.GuideTitleDefault | components/CreativeWorkshop.tsx:292-309 | without a leading `#`+whitespace the guide is "New Project" and the body is the whole text trimmed |
| Transcoder.ImportKeepsGuide | components/CreativeWorkshop.tsx:296-306 | the new guide keeps the old guide's id, subtitle and image |
| Transcoder.SectionMetadataByPosition | components/CreativeWorkshop.tsx:352-363 | the k-th section card inherits from the old card at its output position: the id unless that card is `add`, and the subtitle, image and size |
| Transcoder.ImportMetadataByPosition | components/CreativeWorkshop.tsx:317-364 | over the whole import, each middle card at position p takes its image and size from old card p, and its id when that card is not `add` |
| Transcoder.HeadingOnly | components/CreativeWorkshop.tsx:292-377 | a document holding only a safe heading imports as exactly [guide, add] |
| Transcoder.OnlyTitle | components/CreativeWorkshop.tsx:292-377 | `"# Only Title"` imports as [guide "Only Title", add] |
| Transcoder.EmptyBodyAssembles | components/CreativeWorkshop.tsx:309-377 | an empty body yields no section cards |
| Transcoder.BlankSectionKeepsNumber | components/CreativeWorkshop.tsx:342-359 | a blank section is skipped but uses up its number: `"## \n## B"` gives "B" as SECTION 02 |
| RoundTrip.RoundTrip | components/CreativeWorkshop.tsx:264-377 | import(export(cs)) reads back a round-trippable canvas: the same count, the flattened guide title, every title and content, and each card's id, subtitle, image and size |
| RoundTrip.RoundTripFrom | components/CreativeWorkshop.tsx:264-377 | the same for any starting index of the section numbering |
| RoundTrip.RoundTripBare | components/CreativeWorkshop.tsx:264-377 | a canvas with no input cards comes back as [guide, add] |
| RoundTrip.RoundTripSections | components/CreativeWorkshop.tsx:264-377 | with input cards, the import is the guide, one card per exported section, and the sentinel |
| RoundTrip.DocumentOfSections | components/CreativeWorkshop.tsx:264-314 | the exported heading parses back as the guide title, and the body as the joined sections |
| RoundTrip.ExportInputs | components/CreativeWorkshop.tsx:274-280 | safe input cards export as `## ` plus their section texts joined by blank lines and markers |
| Workshop.StarterCards | components/CreativeWorkshop.tsx:53-57 | the starter canvas starts with the guide and keeps the sentinel last |
| Workshop.DefaultCards | components/CreativeWorkshop.tsx:89-145 | definition: the default canvas of a draft. `DefaultCardsShape` states its shape |
| Workshop.HydratedCards | components/CreativeWorkshop.tsx:84-150 | definition: the saved canvas when non-empty, else the defaults. `CreativeWorkshop.Hydrate` installs it |
| Workshop.DefaultCardsShape | components/CreativeWorkshop.tsx:89-145 | the defaults: the guide first (never untitled), one card per non-empty outline and content, the sentinel last, and strictly increasing ids |
| Workshop.AutosaveRecord | components/CreativeWorkshop.tsx:157-165 | the draft with only its title, tags and canvas changed. The tags and canvas are the current ones. The title is the guide title with only its first newline replaced, or the draft's own title without a guide |
| Workshop.AutosaveKeepsSecondNewline | components/CreativeWorkshop.tsx:158 | a guide title with two newlines keeps the second in the autosave, while the export flattens both |
| Workshop.PublishRecord | components/CreativeWorkshop.tsx:520-525 | the draft with the current canvas and tags, status published |
| Workshop.HydratedAutosave | components/CreativeWorkshop.tsx:89-165 | a freshly hydrated draft autosaves with its own title and the default cards |
| Workshop.CreativeWorkshop.constructor | components/CreativeWorkshop.tsx:53-75 | the initial state: the starter cards, no tags, nothing selected, dragged or resized |
| Workshop.CreativeWorkshop.Hydrate | components/CreativeWorkshop.tsx:81-151 | with a draft: its tags, its saved canvas or the defaults, and card 2 selected; without one, no change |
| Workshop.CreativeWorkshop.AddCard | components/CreativeWorkshop.tsx:387-408 | the canvas becomes `WithNewSection`; nothing else changes |
| Workshop.CreativeWorkshop.Update | components/CreativeWorkshop.tsx:383-385 | the canvas becomes `UpdatedCards`; nothing else changes |
| Workshop.CreativeWorkshop.DeleteCard | components/CreativeWorkshop.tsx:418-421 | the cards with the id go, and the selection is cleared only when it was that id |
| Workshop.CreativeWorkshop.DragStart | components/CreativeWorkshop.tsx:172-180 | refused while resizing; otherwise the dragged index is recorded |
| Workshop.CreativeWorkshop.Drop | components/CreativeWorkshop.tsx:187-204 | no drag or the same slot: no change. Otherwise the card is moved to the drop slot (a permutation) and the drag ends |
| Workshop.CreativeWorkshop.ResizeStart | components/CreativeWorkshop.tsx:244-255 | the resize marker is set from `StartGesture`, and the component is resizing |
| Workshop.CreativeWorkshop.ResizeMove | components/CreativeWorkshop.tsx:208-221 | without a marker, no change; otherwise the canvas becomes `ResizedCards` |
| Workshop.CreativeWorkshop.ResizeEnd | components/CreativeWorkshop.tsx:223-231 | a gesture in progress ends; the marker and the flag are cleared |
| Workshop.CreativeWorkshop.AddTag | components/CreativeWorkshop.tsx:442-447 | tags and box become `TagList.AddTag` of the old ones |
| Workshop.CreativeWorkshop.RemoveTag | components/CreativeWorkshop.tsx:449-451 | tags become `TagList.RemoveTag` |
| Workshop.CreativeWorkshop.OpenUnifiedEditor | components/CreativeWorkshop.tsx:264-285 | the document becomes the export of the canvas and the editor opens |
| Workshop.CreativeWorkshop.SaveUnifiedEditor | components/CreativeWorkshop.tsx:287-380 | the canvas becomes the import of the document and the editor closes |
| Workshop.CreativeWorkshop.InsertMarkdown | components/CreativeWorkshop.tsx:477-498 | the document and caret become `Transcoder.InsertMarkdown` of the selection |
| Workshop.CreativeWorkshop.TogglePlatform | components/CreativeWorkshop.tsx:510-516 | the platforms become `TagList.Toggle` of the old ones: an absent platform is appended; a present one is removed, the others kept in order with their copies |
| Workshop.CreativeWorkshop.Autosave | components/CreativeWorkshop.tsx:153-168 | without a draft or `onSave`, nothing is sent; otherwise the autosave record is |
| Workshop.CreativeWorkshop.PublishSubmit | components/CreativeWorkshop.tsx:518-530 | with a draft and `onPublish`: the published record is sent, and the modal and platform choice are reset; otherwise nothing |
| Drafts.ReplaceById | App.tsx:77 | every draft with the id is rewritten; the others are unchanged; same length and order |
| Drafts.ReplaceUnknownId | App.tsx:77 | an absent id leaves the list equal |
| Drafts.WithoutId | App.tsx:85 | exactly the drafts with the id go. The rest is a subsequence of the list (order kept) with every copy of each other draft |
| Drafts.DeleteAfterReplace | App.tsx:76-89 | deleting after an id-keeping update equals deleting straight away |
| Drafts.PublishedDrafts | App.tsx:169 | exactly the published drafts |
| Drafts.PublishedInOrder | App.tsx:169 | the published view keeps the store's order |
| Drafts.PublishedAfterUpdate | App.tsx:91-94 | a stored draft replaced by its published version is in the published view |
| App.AllRead | App.tsx:72-74 | every notification is marked read; nothing else changes |
| App.UnreadCount | App.tsx:194 | definition: the number of unread notifications. `AllReadLeavesNoneUnread` states it after marking all read |
| App.NewProject | App.tsx:110-119 | definition: the draft `handleCreateNewProject` makes. `Store.CreateNewProject` states where it goes |
| App.AllReadLeavesNoneUnread | App.tsx:72-74 | after marking all read the unread count is 0 |
| App.PublishShows | App.tsx:91-94 | publishing a stored draft makes it appear in the published view |
| App.Store.constructor | App.tsx:31-53 | the store opens on the dashboard with the given drafts and notifications, with no active draft |
| App.Store.MarkAllRead | App.tsx:72-74 | the notifications become `AllRead`, and the unread count is 0 |
| App.Store.UpdateDraft | App.tsx:76-82 | the drafts are replaced by id; the active draft is replaced only when it has that id |
| App.Store.DeleteDraft | App.tsx:84-89 | the drafts with the id go; the active draft is cleared only when it had that id |
| App.Store.PublishDraft | App.tsx:91-96 | an update whose only change is the published status |
| App.Store.CreateFromConsultation | App.tsx:98-105 | the draft is marked read, stored by id and made active, and the view becomes the workshop |
| App.Store.CreateNewProject | App.tsx:107-131 | a blank name changes nothing. Otherwise the new draft (name as typed, pending, tagged "New Project", read) goes first and is opened, and the box and modal are reset |
| App.Store.OpenNewDraft | App.tsx:119-130 | the non-blank branch's state update |
| App.Store.PublishedItems | App.tsx:169 | what the published view receives: exactly the published drafts |
| Archived.LessIrreflexive | components/Archived.tsx:32 | the key order is irreflexive |
| Archived.LessTransitive | components/Archived.tsx:32 | the key order is transitive |
| Archived.LessTotal | components/Archived.tsx:32 | the key order is total on distinct strings |
| Archived.Insert | components/Archived.tsx:32 | inserting into a sorted list keeps it sorted and adds exactly the new key |
| Archived.SortStrings | components/Archived.tsx:32 | `sort()`: sorted, the same keys, the same length |
| Archived.SortedIsUnique | components/Archived.tsx:32 | two sorted lists with the same keys are equal, so the sort result is determined |
| Archived.UntaggedItems | components/Archived.tsx:18-19 | `untagged` holds exactly the drafts without tags |
| Archived.Group | components/Archived.tsx:20-27 | definition: one tag's group as the loop builds it. `GroupMembers`, `GroupDistinctIds`, `GroupCoversIds` and `GroupInOrder` state its properties |
| Archived.GroupMembers | components/Archived.tsx:20-27 | a group holds only input drafts that carry its tag |
| Archived.GroupDistinctIds | components/Archived.tsx:24-26 | no two drafts of a group share an id, even when a draft repeats a tag |
| Archived.GroupCoversIds | components/Archived.tsx:21-26 | every draft carrying the tag has its id in the group |
| Archived.GroupInOrder | components/Archived.tsx:17-27 | each group keeps the input order |
| Archived.UntaggedInOrder | components/Archived.tsx:17-19 | `untagged` keeps the input order |
| Archived.UntaggedOnly | components/Archived.tsx:18-19 | an untagged draft is in `untagged` and in no group |
| Archived.TaggedGrouped | components/Archived.tsx:20-27 | a tagged draft is not in `untagged`; with a unique id it is in the group of each of its tags |
| Archived.UnusedTagEmpty | components/Archived.tsx:22 | a tag no draft carries has an empty group |
| Archived.GroupItems | components/Archived.tsx:13-33 | `untagged` as above; the groups exist for exactly the carried tags, each equal to its group; the keys are sorted, without repeats, and exactly the carried tags |
| Archived.PlaceItem | components/Archived.tsx:17-28 | one outer iteration keeps the grouping invariant for the longer prefix |
| Archived.AddTo | components/Archived.tsx:22-26 | one inner iteration: the group of the tag exists, and the draft is appended unless its id is there |
| Archived.AddToGroups | components/Archived.tsx:21-27 | the inner loop over a draft's tags puts it in each of its tags' groups |
| Publishing.TagEditor.constructor | components/Published.tsx:12-14 | the editor opens on the item's tags and an empty box |
| Publishing.TagEditor.AddTag | components/Published.tsx:16-21 | appends the trimmed new tag and clears the box, or leaves both unchanged |
| Publishing.TagEditor.RemoveTag | components/Published.tsx:23-25 | every copy of the tag goes. The rest keeps its order and every copy of each other tag, and the box is kept |
| Publishing.PublishedView.constructor | components/Published.tsx:67 | no editor open |
| Publishing.PublishedView.EditTags | components/Published.tsx:143 | the card's editor opens |
| Publishing.PublishedView.SaveTags | components/Published.tsx:69-74 | with `onUpdate`, the retagged item is forwarded; the editor closes either way |
| Publishing.Retagged | components/Published.tsx:71 | only `tags` changes |
| Publishing.RetagSame | components/Published.tsx:71 | saving the same tags forwards the item unchanged |
| Publishing.Cover | components/Published.tsx:110-113 | the image of the first card that has one; none exactly when no card has an image |
| Publishing.CoverOfFirstImage | components/Published.tsx:110-112 | the first card with an image gives the cover |
| Publishing.TagOverflow | components/Published.tsx:131-136 | at most three tags shown, as a prefix; the badge shows exactly when there are more, and counts the rest |
| Publishing.TagOverflowSplits | components/Published.tsx:131-136 | the shown tags followed by the counted rest are the whole list |
| InfoCollection.Filtered | components/InfoCollection.tsx:136-140 | the filter keeps exactly the matching items: `read === false`, pending, or all |
| InfoCollection.Keeps | components/InfoCollection.tsx:136-140 | definition: the filter's test for one item. `Filtered` keeps exactly the items passing it |
| InfoCollection.FilteredInOrder | components/InfoCollection.tsx:136-140 | every filter keeps the order |
| InfoCollection.UnreadCountIsUnreadList | components/InfoCollection.tsx:150 | the unread badge equals the length of the unread list |
| InfoCollection.Prefix20 | components/InfoCollection.tsx:63 | `substring(0, 20)` |
| InfoCollection.FallbackTitle | components/InfoCollection.tsx:76 | at most 23 characters: the input itself up to 20, else its first 20 and "..." |
| InfoCollection.NewItem | components/InfoCollection.tsx:53-102 | links: "New Link Resource", no outline, the picsum image of the id, and the selected tags plus "Link". Text with an outline: its non-empty title (else the first 20 characters), its outline, and the selected tags plus its tags. Text without one: the fallback title, no outline and the selected tags. Text items have no image. Always pending, unread, with no canvas |
| InfoCollection.MergeTags | components/InfoCollection.tsx:118 | the old and new tags, each once |
| InfoCollection.MergeKeepsOldFirst | components/InfoCollection.tsx:118 | the item's own tags keep their places in front |
| InfoCollection.Analysed | components/InfoCollection.tsx:114-119 | definition: an analysed item with the new title, the summary outline and the merged tags. `AnalysedKeepsId` and `AnalysisTouchesOnlyItsItem` state its properties |
| InfoCollection.AnalysedKeepsId | components/InfoCollection.tsx:114-119 | an analysis keeps the item's id and content |
| InfoCollection.DeleteAfterAnalysis | components/InfoCollection.tsx:108-126 | deleting an analysed item equals deleting it unanalysed |
| InfoCollection.AnalysisTouchesOnlyItsItem | components/InfoCollection.tsx:114-119 | other items are unchanged; the analysed one keeps its old tags in front and gains the new |
| InfoCollection.Collection.constructor | components/InfoCollection.tsx:23-31 | empty box, no selection, the `all` filter, nothing being analysed |
| InfoCollection.Collection.ToggleTag | components/InfoCollection.tsx:33-39 | the selection becomes `TagList.Toggle` of the old one: an absent tag is appended; a selected one is removed, the others kept in order with their copies |
| InfoCollection.Collection.SetFilter | components/InfoCollection.tsx:28 | the filter changes |
| InfoCollection.Collection.Shown | components/InfoCollection.tsx:136-140 | what the list shows |
| InfoCollection.Collection.Add | components/InfoCollection.tsx:50-106 | blank input: no change. Otherwise the new item goes first, and the box and selection are cleared |
| InfoCollection.Collection.AnalyzeUrl | components/InfoCollection.tsx:108-126 | no content: no change. Otherwise, on success the items with the id are analysed; the busy marker ends cleared |
| InfoCollection.Collection.Delete | components/InfoCollection.tsx:252 | exactly the items with the id go |
| Inspiration.InitialChannels | components/InspirationCapsule.tsx:69-80 | nothing saved: the defaults. A saved list without GitHub and under 8 entries: GitHub inserted at 1 (at 0 when the list is empty). Otherwise the saved list |
| Inspiration.MigrationOnce | components/InspirationCapsule.tsx:69-80 | running the migration on its own result changes nothing |
| Inspiration.PresetTerms | components/InspirationCapsule.tsx:150 | a category's presets, or three terms starting with its label |
| Inspiration.PresetItem | components/InspirationCapsule.tsx:151-158 | definition: one preset term's card. `DirectItems` and `PresetPicturesDistinct` state its properties |
| Inspiration.Fetch | components/InspirationCapsule.tsx:112-161 | the GitHub channel without a query takes the trending fetch, in either mode; otherwise AI mode asks the service with the caption and query, and direct mode shows `DirectItems` |
| Inspiration.DirectItems | components/InspirationCapsule.tsx:138-160 | a query gives exactly one search item; otherwise one item per preset term, titled by the term. Only reached when there is a query or the channel is not GitHub |
| Inspiration.UnknownCategoryCards | components/InspirationCapsule.tsx:150 | categories other than GitHub without presets show "<label> News", "Trends", "Ideas" |
| Inspiration.PresetPicturesDistinct | components/InspirationCapsule.tsx:157 | the cards of one list have different pictures |
| Inspiration.SearchUrl | components/InspirationCapsule.tsx:271-311 | GitHub, Douyin, Weibo and RedBook go to their own sites; other categories use the engine's search |
| Inspiration.GitHubRouting | components/InspirationCapsule.tsx:275-281 | a term with `/`, or without a space, opens `github.com/<term>`; otherwise the repository search |
| Inspiration.HotListRouting | components/InspirationCapsule.tsx:282-295 | a term with 热搜 or 榜 opens the fixed hot list on Douyin and Weibo; otherwise search |
| Inspiration.HotListPresets | components/InspirationCapsule.tsx:46-47 | the hot-list presets route to the hot list, and the other presets do not |
| Inspiration.SearchActionLabel | components/InspirationCapsule.tsx:319-327 | GitHub, Douyin, Weibo and RedBook get their own "View on …" caption; every other category gets "Search on " and the engine's name |
| Inspiration.ActionLabelMatchesRoute | components/InspirationCapsule.tsx:271-327 | the caption says "View on" exactly for the categories `openSearch` sends to their own site. Otherwise the search opens the named engine, and different engines give different captions |
| Inspiration.LabelOf | components/InspirationCapsule.tsx:315 | the caption of the first channel with the id, or empty |
| Inspiration.CurrentLabel | components/InspirationCapsule.tsx:314-316 | the channel caption, else the query, else the id |
| Inspiration.UnknownChannelLabel | components/InspirationCapsule.tsx:314-316 | a deleted channel's label falls back to its id |
| Inspiration.Capsule.constructor | components/InspirationCapsule.tsx:69-89 | migrated channels, no drag, `tech` active, Baidu |
| Inspiration.Capsule.DragStart | components/InspirationCapsule.tsx:205-208 | the dragged index is recorded |
| Inspiration.Capsule.DragOver | components/InspirationCapsule.tsx:210-220 | no drag or the same index: no change. Otherwise the channel moves to the target (a permutation) and the target becomes the dragged index |
| Inspiration.Capsule.Drop | components/InspirationCapsule.tsx:222-225 | the drag ends |
| Inspiration.Capsule.AddChannel | components/InspirationCapsule.tsx:228-236 | blank name: no change. Otherwise `custom-<now>` with the trimmed caption is appended and activated, and the input is cleared and closed |
| Inspiration.Capsule.DeleteChannel | components/InspirationCapsule.tsx:238-243 | channels with the id go; a deleted active channel hands over to the first remaining, if any |
| Inspiration.Capsule.SetEngine | components/InspirationCapsule.tsx:245-251 | the engine changes |
| Inspiration.DeleteKeepsActiveValid | components/InspirationCapsule.tsx:240-242 | the channel that becomes active survives the delete |
| SettingsDialog.DefaultModel | components/SettingsModal.tsx:11-15 | each provider's default model, never empty |
| SettingsDialog.DefaultUrl | components/SettingsModal.tsx:17-21 | the fixed endpoints; empty exactly for Gemini |
| SettingsDialog.SwitchTo | components/SettingsModal.tsx:82-99 | the typed key is filed under the old provider; the new provider gets its filed key and its defaults |
| SettingsDialog.SwitchKeepsOtherKeys | components/SettingsModal.tsx:84-88 | a switch changes no other provider's key |
| SettingsDialog.SwitchBack | components/SettingsModal.tsx:84-98 | switching A→B→A restores A's key with A's defaults |
| SettingsDialog.TypedKeySurvives | components/SettingsModal.tsx:82-99 | a key typed after switching comes back after switching away and back |
| SettingsDialog.Synced | components/SettingsModal.tsx:75 | the active provider's entry becomes the active key; the others are unchanged |
| SettingsDialog.SaveAfterLoad | components/SettingsModal.tsx:58-75 | saving right after loading writes the vault the load made |
| SettingsDialog.SettingsModal.constructor | components/SettingsModal.tsx:25-39 | Gemini, empty keys, not saved |
| SettingsDialog.SettingsModal.Load | components/SettingsModal.tsx:43-68 | stored settings replace the current ones; the stored or the current vault is synced to the active key |
| SettingsDialog.SettingsModal.Save | components/SettingsModal.tsx:70-80 | writes the settings and the synced vault, and shows "saved" |
| SettingsDialog.SettingsModal.ChangeProvider | components/SettingsModal.tsx:82-99 | the settings and vault become `SwitchTo` |
| SettingsDialog.SettingsModal.SetApiKey | components/SettingsModal.tsx:246 | the key box edits only the key |
| SettingsDialog.SettingsModal.SetModel | components/SettingsModal.tsx:259 | the model box edits only the model |
| Overview.ActivityMap | components/Dashboard.tsx:42-48 | a key for exactly the non-empty dates some draft carries, each holding how many drafts carry it |
| Overview.UndatedCountsZero | components/Dashboard.tsx:65 | a date no draft carries counts 0, matching `|| 0` |
| Overview.CountOn | components/Dashboard.tsx:65 | definition: the map entry for the day, or 0. `UndatedCountsZero` and `ActivityMap` tie it to the drafts |
| Overview.Intensity | components/Dashboard.tsx:66-71 | 0 exactly for 0, 4 exactly from 7, and `(count+1)/2` for 1 to 6 |
| Overview.IntensityMonotone | components/Dashboard.tsx:66-71 | more drafts never give a lighter cell |
| Overview.DaysAgo | components/Dashboard.tsx:59 | how many days back a cell is: below 84, and 0 exactly for the last cell |
| Overview.DaysAgoCoversEachDayOnce | components/Dashboard.tsx:53-59 | cell (11,6) is today, and the 84 cells show the days 0 to 83, each exactly once |
| Overview.Grid | components/Dashboard.tsx:52-76 | 12 columns of 7 cells, each shaded by the count on its day |
| Overview.TodayCell | components/Dashboard.tsx:57-65 | the last cell is shaded by the drafts dated today |
| Overview.GreetingAt | components/Dashboard.tsx:109-113 | morning 5–11, afternoon 12–17, evening 18–21, late night otherwise |
| Overview.PendingItems | components/Dashboard.tsx:145 | exactly the pending drafts, as a subsequence of the list (order kept) with every copy of each |
| Overview.StatsOf | components/Dashboard.tsx:143-146 | the published count, the pending count and the total |
| Overview.StatsWithinTotal | components/Dashboard.tsx:143-146 | published plus pending never exceeds the total |
| Overview.PendingPreview | components/Dashboard.tsx:171 | the first five entries of `PendingItems` (all of them when fewer), so the pending drafts in the list's order |

## Left out

- Rendering: JSX, CSS classes, icons, modals, `alert`/`confirm`, toasts, `getColor`, and the loading and `isGenerating` flags.
- Timers are not modelled: the 1-second autosave debounce, the `setSaved(false)` reset, the toast timeout and the delayed scroll.
  - The autosave is modelled as the record it would send.
- `Workshop.CreativeWorkshop.AddCard`: the delayed `setSelectedId(newId)` after 100 ms is not modelled, because it is a timer.
- `Workshop.CreativeWorkshop.InsertMarkdown`: the missing-textarea guard and the delayed caret placement are not modelled. The selection and the caret are a parameter and a result.
- React effect semantics are not modelled, such as rehydrating only when the draft id changes. `Hydrate` is the effect's body, called explicitly.
- DOM and mouse-event plumbing: `window` listeners, `document.body.style` and `dataTransfer`. Mouse coordinates are integer parameters.
- Clipboard image paste (FileReader), Blob downloads, and the settings backup import/export are I/O.
  - The file-export string is modelled; the download is not.
- Persistence: `localStorage` and `JSON.parse` are left out. Stored values are `Option` parameters, and saving returns the values written.
- The LLM, URL-analysis and trend services are remote calls. Their results, or their failure as `None`, are parameters.
- `fetchTrends`: what the LLM service and the GitHub trending fetch return, and the error fallback card, are left out (network results); `Inspiration.Fetch` models only which of them is used. The ids `mapAndSetItems` gives are left out too (clock values).
- `InfoCollection.Collection.Add` and `AnalyzeUrl` are modelled as one atomic step with the outcome as a parameter. State changes made by other handlers while the remote call is pending are not modelled.
- Foreign calls are parameters:
  - `Date.now()` ids and the clock `now`;
  - `toISOString` dates, and the day string n days back;
  - the hour of the day;
  - `encodeURIComponent`;
  - `new URL` validity, as `isLink`.
- `Workshop.CreativeWorkshop.Drop`, `Inspiration.Capsule.DragOver`: require both indices to be in range when they differ. Out of range, JavaScript's `splice` would insert `undefined` or clamp the target. The UI only passes indices of rendered items.
- `Archived.SortStrings`: `sort()` compares UTF-16 code units, while the model compares characters. The two orders differ only when characters outside the Basic Multilingual Plane appear.
- `InfoCollection.Prefix20`, `InfoCollection.FallbackTitle`: `substring` counts UTF-16 code units, while the model counts characters. They differ only for characters outside the Basic Multilingual Plane.
- `Inspiration.PresetTerms`: a category id that is an `Object.prototype` member, such as `constructor`, finds an inherited value in `CATEGORY_PRESETS` in JavaScript. The model treats it as unknown.
- `Archived.GroupItems`, `Overview.ActivityMap`: a plain-object dictionary is modelled as a `map`. Keys that collide with `Object.prototype` members, such as a tag named `constructor`, behave differently in JavaScript and are not modelled.
- The remaining UI flags are not modelled: `isEditingChannels`, `showTagMenu`, `showPreview`, `showNotifications`, the sidebar, and the username.
- `components/Sidebar.tsx` is a navigation shell and is not part of this model. `vite.config.ts` is build configuration.
- `services/geminiService.ts` is not part of this model. Its results enter as parameters.
