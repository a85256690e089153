/** The Workflows page: the list of workflows it shows, the builder it opens,
    and the handlers that call the repository and then update the list. */
module WorkflowsPage {
  import opened Common
  import opened Lists
  import opened WorkflowBuilder
  import opened WorkflowService

  /** `prev.map(w => w.Id === id ? replacement : w)`. */
  function ReplacedById(ws: seq<Workflow>, id: string, replacement: Workflow): seq<Workflow> {
    MapWhere(ws, (w: Workflow) => w.id == id, (_: Workflow) => replacement)
  }

  /** `prev.filter(w => w.Id !== id)`. */
  function WithoutId(ws: seq<Workflow>, id: string): seq<Workflow> {
    Filter(ws, (w: Workflow) => w.id != id)
  }

  /** The "Active" card's figure. */
  function ActiveCount(ws: seq<Workflow>): nat {
    Count(ws, (w: Workflow) => w.isActive)
  }

  /** The "Paused" card's figure. */
  function PausedCount(ws: seq<Workflow>): nat {
    Count(ws, (w: Workflow) => !w.isActive)
  }

  /** Every workflow is counted on exactly one of the two cards, so together
      they make up the "Total Workflows" figure. */
  lemma ActivePlusPausedIsTotal(ws: seq<Workflow>)
    ensures ActiveCount(ws) + PausedCount(ws) == |ws|
  {
    FilterComplementSizes(ws, (w: Workflow) => w.isActive, (w: Workflow) => !w.isActive);
  }

  /** Removing by id drops exactly the workflows with that id and keeps the rest in order. */
  lemma {:induction false} WithoutIdDropsExactlyThatId(ws: seq<Workflow>, id: string)
    ensures forall w :: w in WithoutId(ws, id) <==> w in ws && w.id != id
    ensures Subsequence(WithoutId(ws, id), ws)
    ensures (forall j :: 0 <= j < |ws| ==> ws[j].id != id) ==> WithoutId(ws, id) == ws
  {
    FilterIsSubsequence(ws, (w: Workflow) => w.id != id);
    if forall j :: 0 <= j < |ws| ==> ws[j].id != id {
      FilterKeepsAll(ws, (w: Workflow) => w.id != id);
    }
  }

  class Page {
    var workflows: seq<Workflow>
    var showBuilder: bool
    var editing: Option<Workflow>

    constructor (loaded: seq<Workflow>)
      ensures workflows == loaded && !showBuilder && editing.None?
    {
      workflows := loaded;
      showBuilder := false;
      editing := None;
    }

    /** `handleCreateWorkflow`. */
    method OpenForCreate()
      modifies this
      ensures workflows == old(workflows) && showBuilder && editing.None?
    {
      editing := None;
      showBuilder := true;
    }

    /** `handleEditWorkflow`. */
    method OpenForEdit(w: Workflow)
      modifies this
      ensures workflows == old(workflows) && showBuilder && editing == Some(w)
    {
      editing := Some(w);
      showBuilder := true;
    }

    /** `handleSaveWorkflow`: when editing, the repository updates the workflow
        and only the entries with its id are replaced by the result; otherwise
        the created workflow is appended. The builder closes only on success;
        on failure the list and the builder stay as they were. */
    method HandleSave(store: WorkflowStore, data: WorkflowData, freshId: string, now: string)
      modifies this, store
      ensures editing == old(editing)
      ensures old(editing).Some? ==>
        var k := IndexOf(old(store.workflows), old(editing).value.id);
        if k == -1 then
          workflows == old(workflows) && showBuilder == old(showBuilder) && store.workflows == old(store.workflows)
        else
          var updated := Merged(old(store.workflows)[k], FromDraft(data), now);
          && store.workflows == old(store.workflows)[k := updated]
          && workflows == ReplacedById(old(workflows), old(editing).value.id, updated)
          && !showBuilder
      ensures old(editing).None? ==>
        && |store.workflows| == |old(store.workflows)| + 1
        && store.workflows[..|old(store.workflows)|] == old(store.workflows)
        && workflows == old(workflows) + [store.workflows[|store.workflows| - 1]]
        && workflows[|workflows| - 1].id == freshId
        && !showBuilder
    {
      if editing.Some? {
        var id := editing.value.id;
        var r := store.Update(id, FromDraft(data), now);
        if r.Ok? {
          workflows := ReplacedById(workflows, id, r.value);
          showBuilder := false;
        }
      } else {
        var created := store.Create(FromDraft(data), freshId, now);
        workflows := workflows + [created];
        showBuilder := false;
      }
    }

    /** `handleDeleteWorkflow`: without confirmation nothing happens; after a
        successful delete the entries with that id leave the list; on failure
        the list is unchanged. */
    method HandleDelete(store: WorkflowStore, id: string, confirmed: bool)
      modifies this, store
      ensures showBuilder == old(showBuilder) && editing == old(editing)
      ensures !confirmed ==> workflows == old(workflows) && store.workflows == old(store.workflows)
      ensures confirmed ==>
        var k := IndexOf(old(store.workflows), id);
        if k == -1 then workflows == old(workflows) && store.workflows == old(store.workflows)
        else workflows == WithoutId(old(workflows), id) && store.workflows == RemoveAt(old(store.workflows), k)
    {
      if confirmed {
        var r := store.Delete(id);
        if r.Ok? {
          workflows := WithoutId(workflows, id);
        }
      }
    }

    /** `handleToggleWorkflow`: on success the entries with that id are replaced
        by the repository's result; on failure nothing changes. */
    method HandleToggle(store: WorkflowStore, id: string, isActive: bool, now: string)
      modifies this, store
      ensures showBuilder == old(showBuilder) && editing == old(editing)
      ensures var k := IndexOf(old(store.workflows), id);
        if k == -1 then workflows == old(workflows) && store.workflows == old(store.workflows)
        else
          var toggled := old(store.workflows)[k].(isActive := isActive, updatedAt := now);
          workflows == ReplacedById(old(workflows), id, toggled) && store.workflows == old(store.workflows)[k := toggled]
    {
      var r := store.Toggle(id, isActive, now);
      if r.Ok? {
        workflows := ReplacedById(workflows, id, r.value);
      }
    }
  }
}
