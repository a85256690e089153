/** The branches screen of the settings page: the new list it hands to
    `onUpdate` when a branch is saved (added or edited) or deleted after
    confirmation, and the active count in its header. The list goes back to
    the settings record as the `branches` section. */
module BranchSettings {
  import opened Common
  import opened Lists
  import opened EntryLists

  /** A branch as the screen handles it. The seeded branches carry a
      lowercase `id` instead, so their `Id` is `Missing`. */
  datatype Branch = Branch(
    id: IdField,
    name: string,
    address: string,
    phone: string,
    email: string,
    manager: string,
    isActive: bool,
    createdAt: string)

  /** The form behind the add and edit dialog. */
  datatype BranchForm = BranchForm(
    name: string,
    address: string,
    phone: string,
    email: string,
    manager: string,
    isActive: bool)

  function IdOf(): Branch -> IdField {
    (b: Branch) => b.id
  }

  /** `handleAddBranch`: an empty form for a new active branch. */
  const BlankForm := BranchForm("", "", "", "", "", true)

  /** `handleEditBranch`: the form filled in from the branch. */
  function EditForm(b: Branch): BranchForm {
    BranchForm(b.name, b.address, b.phone, b.email, b.manager, b.isActive)
  }

  /** `!name || !address`: phone, email and manager may stay empty. */
  predicate MissingRequired(f: BranchForm) {
    f.name == "" || f.address == ""
  }

  /** The `newBranch` record: the form's fields, with the edited branch's
      `Id` and creation time, or a fresh `Id` and `now` for a new branch. */
  function SavedBranch(branches: seq<Branch>, editing: Option<Branch>, f: BranchForm, now: string): (b: Branch)
    ensures editing.Some? ==> b.id == editing.value.id && b.createdAt == editing.value.createdAt
    ensures editing.None? ==> b.id == NextId(Project(branches, IdOf())) && b.createdAt == now
    ensures EditForm(b) == f
  {
    var id := if editing.Some? then editing.value.id else NextId(Project(branches, IdOf()));
    var createdAt := if editing.Some? then editing.value.createdAt else now;
    Branch(id, f.name, f.address, f.phone, f.email, f.manager, f.isActive, createdAt)
  }

  /** `handleSaveBranch`: nothing (an error toast) when the name or address
      is empty; otherwise the list with the edited branch's entries
      replaced, or with the new branch appended. */
  function SaveBranch(branches: seq<Branch>, editing: Option<Branch>, f: BranchForm, now: string): (r: Option<seq<Branch>>)
    ensures r.None? <==> MissingRequired(f)
    ensures r.Some? && editing.Some? ==>
      r.value == Replaced(branches, IdOf(), editing.value.id, SavedBranch(branches, editing, f, now))
    ensures r.Some? && editing.None? ==>
      && |r.value| == |branches| + 1 && r.value[..|branches|] == branches
      && r.value[|branches|] == SavedBranch(branches, editing, f, now)
  {
    if MissingRequired(f) then None
    else
      var b := SavedBranch(branches, editing, f, now);
      if editing.Some? then Some(Replaced(branches, IdOf(), editing.value.id, b))
      else Some(branches + [b])
  }

  /** `handleDeleteBranch`: nothing unless confirmed; then the list without
      the branches whose `Id` is that one. */
  function DeleteBranch(branches: seq<Branch>, branchId: IdField, confirmed: bool): (r: Option<seq<Branch>>)
    ensures r.None? <==> !confirmed
    ensures r.Some? ==> Selects(r.value, branches, (b: Branch) => !StrictEq(b.id, branchId))
  {
    if confirmed then Some(Without(branches, IdOf(), branchId)) else None
  }

  /** The header's active count, never above the total. */
  function ActiveCount(branches: seq<Branch>): (n: nat)
    ensures n <= |branches|
  {
    Count(branches, (b: Branch) => b.isActive)
  }

  /** The optional fields really are optional: a form with a name and an
      address is saved whatever the others hold. */
  lemma OptionalFieldsMayBeEmpty(branches: seq<Branch>, editing: Option<Branch>, name: string, address: string, now: string)
    requires name != "" && address != ""
    ensures SaveBranch(branches, editing, BranchForm(name, address, "", "", "", false), now).Some?
  {
  }

  /** A new branch's `Id` is 1 on an empty list and otherwise above every
      existing `Id`, as long as every branch has one. */
  lemma NewBranchIdIsFresh(branches: seq<Branch>, f: BranchForm, now: string)
    requires forall i :: 0 <= i < |branches| ==> branches[i].id.Known?
    ensures var b := SavedBranch(branches, None, f, now);
      && b.id.Known? && b.id.n >= 1
      && (branches == [] ==> b.id == Known(1))
      && forall i :: 0 <= i < |branches| ==> branches[i].id.n < b.id.n
  {
    var ids := Project(branches, IdOf());
    assert AllKnown(ids);
    assert forall i :: 0 <= i < |branches| ==> ids[i] == branches[i].id;
  }

  /** With distinct numeric `Id`s, an edit of branch `j` replaces that
      branch and no other, keeping its `Id` and creation time. */
  lemma EditReplacesOnlyThatBranch(branches: seq<Branch>, j: nat, f: BranchForm, now: string)
    requires Numbered(branches, IdOf()) && j < |branches|
    requires !MissingRequired(f)
    ensures var b := SavedBranch(branches, Some(branches[j]), f, now);
      && SaveBranch(branches, Some(branches[j]), f, now) == Some(branches[j := b])
      && b.id == branches[j].id && b.createdAt == branches[j].createdAt
  {
    EditReplacesOnlyThatEntry(branches, IdOf(), j, SavedBranch(branches, Some(branches[j]), f, now));
  }

  /** With distinct numeric `Id`s, deleting branch `j` drops that branch only. */
  lemma DeleteRemovesOnlyThatBranch(branches: seq<Branch>, j: nat)
    requires Numbered(branches, IdOf()) && j < |branches|
    ensures DeleteBranch(branches, branches[j].id, true) == Some(branches[..j] + branches[j + 1..])
  {
    DeleteRemovesOnlyThatEntry(branches, IdOf(), j);
  }

  /** The seeded branches have no `Id`: editing one of them overwrites all
      of them, deleting one deletes all of them, and a branch added next to
      them gets `Id` `NaN`. */
  lemma UnnumberedBranchesMoveTogether(branches: seq<Branch>, f: BranchForm, now: string)
    requires branches != [] && forall i :: 0 <= i < |branches| ==> branches[i].id == Missing
    requires !MissingRequired(f)
    ensures var r := SaveBranch(branches, Some(branches[0]), f, now);
      r.Some? && forall i :: 0 <= i < |branches| ==> r.value[i] == SavedBranch(branches, Some(branches[0]), f, now)
    ensures DeleteBranch(branches, branches[0].id, true) == Some([])
    ensures SavedBranch(branches, None, f, now).id == NotANumber
  {
    EditOfUnnumberedReplacesAll(branches, IdOf(), SavedBranch(branches, Some(branches[0]), f, now));
    DeleteOfUnnumberedRemovesAll(branches, IdOf());
    var ids := Project(branches, IdOf());
    assert ids[0] == Missing;
  }
}
