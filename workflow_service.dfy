/** The in-memory workflow repository: a module-level list of workflows that
    `create` appends to, `update` and `toggle` overwrite in place, and `delete`
    splices from. Ids are string forms of the clock reading at creation. */
module WorkflowService {
  import opened Common
  import opened Lists
  import opened WorkflowBuilder

  datatype Stats = Stats(triggered: int, completed: int, successRate: int)

  /** A stored workflow. The seeded ones carry a `trigger` and no `packageName`;
      the ones created through the builder carry a `packageName` and no `trigger`. */
  datatype Workflow = Workflow(
    id: string,
    name: Option<string>,
    description: Option<string>,
    packageName: Option<string>,
    trigger: Option<string>,
    steps: Option<seq<Step>>,
    isActive: bool,
    stats: Stats,
    createdAt: string,
    updatedAt: string)

  /** The object handed to `create` and `update`; a field left out is `None`. */
  datatype WorkflowInput = WorkflowInput(
    name: Option<string>,
    description: Option<string>,
    packageName: Option<string>,
    steps: Option<seq<Step>>,
    isActive: Option<bool>)

  /** What the builder hands over: every field present. */
  function FromDraft(d: WorkflowData): WorkflowInput {
    WorkflowInput(Some(d.name), Some(d.description), Some(d.packageName), Some(d.steps), Some(d.isActive))
  }

  function Pick<T>(given: Option<T>, kept: T): T {
    if given.Some? then given.value else kept
  }

  function PickOpt<T>(given: Option<T>, kept: Option<T>): Option<T> {
    if given.Some? then given else kept
  }

  /** `{ ...w, ...input, updatedAt: now }`. */
  function Merged(w: Workflow, input: WorkflowInput, now: string): Workflow {
    w.(name := PickOpt(input.name, w.name),
       description := PickOpt(input.description, w.description),
       packageName := PickOpt(input.packageName, w.packageName),
       steps := PickOpt(input.steps, w.steps),
       isActive := Pick(input.isActive, w.isActive),
       updatedAt := now)
  }

  /** A merge overwrites exactly the supplied fields: the id, trigger, statistics
      and creation time survive, and so does every field the input leaves out. */
  lemma MergedOverwritesOnlySupplied(w: Workflow, input: WorkflowInput, now: string)
    ensures var m := Merged(w, input, now);
      && m.id == w.id && m.trigger == w.trigger && m.stats == w.stats && m.createdAt == w.createdAt
      && m.updatedAt == now
      && (input.name.Some? ==> m.name == input.name) && (input.name.None? ==> m.name == w.name)
      && (input.description.Some? ==> m.description == input.description)
      && (input.description.None? ==> m.description == w.description)
      && (input.packageName.Some? ==> m.packageName == input.packageName)
      && (input.packageName.None? ==> m.packageName == w.packageName)
      && (input.steps.Some? ==> m.steps == input.steps) && (input.steps.None? ==> m.steps == w.steps)
      && (input.isActive.Some? ==> m.isActive == input.isActive.value)
      && (input.isActive.None? ==> m.isActive == w.isActive)
  {
  }

  /** `findIndex(w => w.Id === id)`. */
  function IndexOf(ws: seq<Workflow>, id: string): (k: int)
    ensures -1 <= k < |ws|
    ensures 0 <= k ==> ws[k].id == id && forall j :: 0 <= j < k ==> ws[j].id != id
    ensures k == -1 <==> forall j :: 0 <= j < |ws| ==> ws[j].id != id
  {
    FindIndex(ws, (w: Workflow) => w.id == id)
  }

  class WorkflowStore {
    var workflows: seq<Workflow>

    constructor (initial: seq<Workflow>)
      ensures workflows == initial
    {
      workflows := initial;
    }

    /** `getAll`: a copy of the list, same elements in store order. */
    method GetAll() returns (r: seq<Workflow>)
      ensures |r| == |workflows|
      ensures forall i :: 0 <= i < |r| ==> r[i] == workflows[i]
    {
      r := workflows;
    }

    /** `getById`: the first workflow with that id, or a failure. */
    method GetById(id: string) returns (r: Result<Workflow>)
      ensures r.Ok? <==> exists i :: 0 <= i < |workflows| && workflows[i].id == id
      ensures r.Ok? ==> exists k :: 0 <= k < |workflows| && workflows[k] == r.value && r.value.id == id &&
                                    forall j :: 0 <= j < k ==> workflows[j].id != id
      ensures r.Err? ==> r.message == "Failed to load workflow"
    {
      var k := IndexOf(workflows, id);
      if k == -1 {
        r := Err("Failed to load workflow");
      } else {
        r := Ok(workflows[k]);
      }
    }

    /** `create`: one new workflow at the end, under the supplied fresh id, with
        zeroed statistics, both timestamps `now`, and `isActive` true unless
        the input says otherwise. */
    method Create(input: WorkflowInput, freshId: string, now: string) returns (w: Workflow)
      modifies this
      ensures workflows == old(workflows) + [w]
      ensures w.id == freshId && w.stats == Stats(0, 0, 0) && w.createdAt == now && w.updatedAt == now
      ensures w.isActive == (input.isActive != Some(false))
      ensures w.name == input.name && w.description == input.description
      ensures w.packageName == input.packageName && w.steps == input.steps && w.trigger.None?
    {
      w := Workflow(freshId, input.name, input.description, input.packageName, None, input.steps,
                    if input.isActive.Some? then input.isActive.value else true,
                    Stats(0, 0, 0), now, now);
      workflows := workflows + [w];
    }

    /** `update`: an unknown id fails and changes nothing; otherwise the first
        workflow with that id is merged with the input in its place. */
    method Update(id: string, input: WorkflowInput, now: string) returns (r: Result<Workflow>)
      modifies this
      ensures var k := IndexOf(old(workflows), id);
        && (k == -1 ==> r == Err("Failed to update workflow") && workflows == old(workflows))
        && (k != -1 ==> r == Ok(Merged(old(workflows)[k], input, now))
                        && workflows == old(workflows)[k := r.value])
    {
      var k := IndexOf(workflows, id);
      if k == -1 {
        r := Err("Failed to update workflow");
        return;
      }
      var updated := Merged(workflows[k], input, now);
      workflows := workflows[k := updated];
      r := Ok(updated);
    }

    /** `delete`: removes the first workflow with that id; an unknown id fails
        and changes nothing. */
    method Delete(id: string) returns (r: Result<bool>)
      modifies this
      ensures var k := IndexOf(old(workflows), id);
        && (k == -1 ==> r == Err("Failed to delete workflow") && workflows == old(workflows))
        && (k != -1 ==> r == Ok(true) && workflows == RemoveAt(old(workflows), k))
    {
      var k := IndexOf(workflows, id);
      if k == -1 {
        r := Err("Failed to delete workflow");
        return;
      }
      workflows := RemoveAt(workflows, k);
      r := Ok(true);
    }

    /** `toggle`: sets `isActive` and `updatedAt` of the first workflow with that
        id and nothing else; an unknown id fails and changes nothing. */
    method Toggle(id: string, isActive: bool, now: string) returns (r: Result<Workflow>)
      modifies this
      ensures var k := IndexOf(old(workflows), id);
        && (k == -1 ==> r == Err("Failed to update workflow status") && workflows == old(workflows))
        && (k != -1 ==> r == Ok(old(workflows)[k].(isActive := isActive, updatedAt := now))
                        && workflows == old(workflows)[k := r.value])
    {
      var k := IndexOf(workflows, id);
      if k == -1 {
        r := Err("Failed to update workflow status");
        return;
      }
      workflows := workflows[k := workflows[k].(isActive := isActive, updatedAt := now)];
      r := Ok(workflows[k]);
    }
  }

  /** An update whose id is stored keeps the length and every other position,
      and the workflow at its position can be found again under the same id. */
  lemma {:induction false} UpdateKeepsPositions(ws: seq<Workflow>, id: string, input: WorkflowInput, now: string)
    requires IndexOf(ws, id) != -1
    ensures var k := IndexOf(ws, id); var ws' := ws[k := Merged(ws[k], input, now)];
      && |ws'| == |ws|
      && (forall j :: 0 <= j < |ws| && j != k ==> ws'[j] == ws[j])
      && IndexOf(ws', id) == k
  {
    var k := IndexOf(ws, id);
    var ws' := ws[k := Merged(ws[k], input, now)];
    assert ws'[k].id == id;
    assert forall j :: 0 <= j < k ==> ws'[j].id != id;
  }
}
