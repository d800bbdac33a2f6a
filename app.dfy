/**
 * Operations on the list of drafts that more than one view applies: replacing
 * the drafts that carry an id, removing them, and selecting the published ones.
 */
module Drafts {
  import opened Model
  import Seqs

  /**
   * `items.map(item => item.id === id ? f(item) : item)`: every draft carrying
   * `id` is rewritten by `f`, every other draft is left as it is, in place.
   */
  function ReplaceById(items: seq<Draft>, id: int, f: Draft -> Draft): (r: seq<Draft>)
    ensures |r| == |items|
    ensures forall i :: 0 <= i < |items| ==> r[i] == (if items[i].id == id then f(items[i]) else items[i])
  {
    if items == [] then []
    else
      var last := items[|items| - 1];
      ReplaceById(items[..|items| - 1], id, f) + [if last.id == id then f(last) else last]
  }

  /** The rewrite `handleUpdateDraft` applies: every draft carrying the updated draft's id becomes it. */
  function Becomes(u: Draft): Draft -> Draft
  {
    (item: Draft) => u
  }

  /** A replacement for an id no draft carries leaves the list equal. */
  lemma ReplaceUnknownId(items: seq<Draft>, id: int, f: Draft -> Draft)
    requires forall i :: 0 <= i < |items| ==> items[i].id != id
    ensures ReplaceById(items, id, f) == items
  {
    var r := ReplaceById(items, id, f);
    assert forall i :: 0 <= i < |items| ==> r[i] == items[i];
  }

  /** `items.filter(item => item.id !== id)`. */
  function WithoutId(items: seq<Draft>, id: int): (r: seq<Draft>)
    ensures forall d :: d in r <==> d in items && d.id != id
    ensures (forall i :: 0 <= i < |items| ==> items[i].id != id) ==> r == items
    ensures Seqs.IsSubsequence(r, items)
    ensures forall d :: multiset(r)[d] == if d.id != id then multiset(items)[d] else 0
  {
    var p := (d: Draft) => d.id != id;
    Seqs.FilterIsSubsequence(items, p);
    Seqs.FilterKeepsCopies(items, p);
    Seqs.Filter(items, p)
  }

  /**
   * Deleting an id after rewriting the drafts that carry it, with a rewrite
   * that keeps the id, is the same as deleting it straight away.
   */
  lemma {:induction false} DeleteAfterReplace(items: seq<Draft>, id: int, f: Draft -> Draft)
    requires forall d :: f(d).id == d.id
    ensures WithoutId(ReplaceById(items, id, f), id) == WithoutId(items, id)
  {
    if items != [] {
      var front := items[..|items| - 1];
      var last := items[|items| - 1];
      DeleteAfterReplace(front, id, f);
      var r := ReplaceById(items, id, f);
      assert r[..|r| - 1] == ReplaceById(front, id, f);
      assert r[|r| - 1].id == last.id;
      assert last.id != id ==> r[|r| - 1] == last;
    }
  }

  /** `draftItems.filter(i => i.status === 'published')`: what the published view receives. */
  function PublishedDrafts(items: seq<Draft>): (r: seq<Draft>)
    ensures forall d :: d in r <==> d in items && d.status == Published
  {
    Seqs.Filter(items, (d: Draft) => d.status == Published)
  }

  /** The published view keeps the store's order. */
  lemma PublishedInOrder(items: seq<Draft>)
    ensures Seqs.IsSubsequence(PublishedDrafts(items), items)
  {
    Seqs.FilterIsSubsequence(items, (d: Draft) => d.status == Published);
  }

  /** Once a stored draft has been replaced by its published version, the published view shows it. */
  lemma PublishedAfterUpdate(items: seq<Draft>, u: Draft, k: nat)
    requires k < |items| && items[k].id == u.id && u.status == Published
    ensures u in PublishedDrafts(ReplaceById(items, u.id, Becomes(u)))
  {
    var r := ReplaceById(items, u.id, Becomes(u));
    assert r[k] == u;
  }
}

/**
 * The application shell: the draft store, the draft open in the workshop, the
 * current view, the notifications and the new-project box.
 */
module App {
  import opened Model
  import opened Strings
  import opened Drafts
  import Seqs

  datatype Notification = Notification(id: int, title: string, msg: string, time: string, read: bool)

  /** Every field the handlers change, at one moment. */
  datatype Snapshot = Snapshot(
    draftItems: seq<Draft>,
    activeDraft: Option<Draft>,
    currentView: View,
    notifications: seq<Notification>,
    newProjectName: string,
    showNewProjectModal: bool)

  /** `prev.map(n => ({ ...n, read: true }))`. */
  function AllRead(ns: seq<Notification>): (r: seq<Notification>)
    ensures |r| == |ns|
    ensures forall i :: 0 <= i < |ns| ==> r[i] == ns[i].(read := true)
  {
    if ns == [] then [] else AllRead(ns[..|ns| - 1]) + [ns[|ns| - 1].(read := true)]
  }

  /** `notifications.filter(n => !n.read).length`. */
  function UnreadCount(ns: seq<Notification>): nat
  {
    Seqs.Count(ns, (n: Notification) => !n.read)
  }

  /** After marking all read, nothing is unread, and only the read flags changed. */
  lemma {:induction false} AllReadLeavesNoneUnread(ns: seq<Notification>)
    ensures UnreadCount(AllRead(ns)) == 0
  {
    if ns != [] {
      AllReadLeavesNoneUnread(ns[..|ns| - 1]);
      var r := AllRead(ns);
      assert r[..|r| - 1] == AllRead(ns[..|ns| - 1]);
    }
  }

  /** The draft `handleCreateNewProject` makes from the typed name; the id and date come from the clock. */
  function NewProject(id: int, name: string, date: string): Draft
  {
    Draft(id, name, "", "", "", ["New Project"], date, Pending, [], Some(true))
  }

  class Store {
    var draftItems: seq<Draft>
    var activeDraft: Option<Draft>
    var currentView: View
    var notifications: seq<Notification>
    var newProjectName: string
    var showNewProjectModal: bool

    function State(): Snapshot
      reads this
    {
      Snapshot(draftItems, activeDraft, currentView, notifications, newProjectName, showNewProjectModal)
    }

    /** The store as the shell starts it, from the drafts read at start-up. */
    constructor (initialDrafts: seq<Draft>, initialNotifications: seq<Notification>)
      ensures State() == Snapshot(initialDrafts, None, Dashboard, initialNotifications, "", false)
    {
      draftItems := initialDrafts;
      activeDraft := None;
      currentView := Dashboard;
      notifications := initialNotifications;
      newProjectName := "";
      showNewProjectModal := false;
    }

    /** `handleMarkAllRead`. */
    method MarkAllRead()
      modifies this
      ensures State() == old(State()).(notifications := AllRead(old(notifications)))
      ensures UnreadCount(notifications) == 0
    {
      notifications := AllRead(notifications);
      AllReadLeavesNoneUnread(old(notifications));
    }

    /**
     * `handleUpdateDraft`: every stored draft with the updated draft's id becomes
     * it, and so does the active draft when it has that id.
     */
    method UpdateDraft(u: Draft)
      modifies this
      ensures State() == old(State()).(
        draftItems := ReplaceById(old(draftItems), u.id, Becomes(u)),
        activeDraft := if old(activeDraft).Some? && old(activeDraft).value.id == u.id then Some(u) else old(activeDraft))
    {
      draftItems := ReplaceById(draftItems, u.id, Becomes(u));
      if activeDraft.Some? && activeDraft.value.id == u.id {
        activeDraft := Some(u);
      }
    }

    /** `handleDeleteDraft`: the drafts with the id go, and the active draft is closed when it had that id. */
    method DeleteDraft(id: int)
      modifies this
      ensures State() == old(State()).(
        draftItems := WithoutId(old(draftItems), id),
        activeDraft := if old(activeDraft).Some? && old(activeDraft).value.id == id then None else old(activeDraft))
      ensures forall d :: d in draftItems ==> d.id != id
    {
      draftItems := WithoutId(draftItems, id);
      if activeDraft.Some? && activeDraft.value.id == id {
        activeDraft := None;
      }
    }

    /** `handlePublishDraft`: an update whose only change is the published status. */
    method PublishDraft(item: Draft)
      modifies this
      ensures var u := item.(status := Published);
        State() == old(State()).(
          draftItems := ReplaceById(old(draftItems), item.id, Becomes(u)),
          activeDraft := if old(activeDraft).Some? && old(activeDraft).value.id == item.id then Some(u) else old(activeDraft))
    {
      UpdateDraft(item.(status := Published));
    }

    /** `handleCreateFromConsultation`: the draft marked read, stored, opened, and the workshop shown. */
    method CreateFromConsultation(draft: Draft)
      modifies this
      ensures var u := draft.(read := Some(true));
        State() == old(State()).(
          draftItems := ReplaceById(old(draftItems), draft.id, Becomes(u)),
          activeDraft := Some(u),
          currentView := Workshop)
    {
      var readDraft := draft.(read := Some(true));
      UpdateDraft(readDraft);
      activeDraft := Some(readDraft);
      currentView := Workshop;
    }

    /**
     * `handleCreateNewProject`: a blank name does nothing; otherwise the new draft,
     * titled with the name as typed, goes first in the store and is opened, and
     * the box is cleared and closed.
     */
    method CreateNewProject(id: int, date: string)
      modifies this
      ensures Trim(old(newProjectName)) == "" ==> State() == old(State())
      ensures Trim(old(newProjectName)) != "" ==>
        var d := NewProject(id, old(newProjectName), date);
        State() == old(State()).(
          draftItems := [d] + old(draftItems),
          activeDraft := Some(d),
          currentView := Workshop,
          newProjectName := "",
          showNewProjectModal := false)
    {
      if Trim(newProjectName) == "" {
        return;
      }
      OpenNewDraft(NewProject(id, newProjectName, date));
    }

    /** The non-blank branch of `handleCreateNewProject`: the new draft is stored first and opened, and the box reset. */
    method OpenNewDraft(d: Draft)
      modifies this
      ensures State() == old(State()).(
        draftItems := [d] + old(draftItems),
        activeDraft := Some(d),
        currentView := Workshop,
        newProjectName := "",
        showNewProjectModal := false)
    {
      draftItems := [d] + draftItems;
      activeDraft := Some(d);
      currentView := Workshop;
      newProjectName := "";
      showNewProjectModal := false;
    }

    /** What the published view is given. */
    function PublishedItems(): (r: seq<Draft>)
      reads this
      ensures forall d :: d in r <==> d in draftItems && d.status == Published
    {
      PublishedDrafts(draftItems)
    }
  }

  /**
   * Publishing an open draft that is in the store shows it in the published
   * view and leaves the active draft published too.
   */
  lemma PublishShows(items: seq<Draft>, item: Draft, k: nat)
    requires k < |items| && items[k].id == item.id
    ensures item.(status := Published) in PublishedDrafts(ReplaceById(items, item.id, Becomes(item.(status := Published))))
  {
    PublishedAfterUpdate(items, item.(status := Published), k);
  }
}
