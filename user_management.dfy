/** The users screen of the settings page: the new list it hands to
    `onUpdate` when a user is saved (added or edited), deleted after
    confirmation, or switched on or off, and the active count in its header.
    The list goes back to the settings record as the `users` section. */
module UserManagement {
  import opened Common
  import opened Lists
  import opened EntryLists

  /** A user as the screen handles it. The seeded users carry a lowercase
      `id` instead, so their `Id` is `Missing`, and no `isActive`, which
      reads as false. */
  datatype User = User(
    id: IdField,
    name: string,
    email: string,
    role: string,
    branch: string,
    whatsappNumber: string,
    isActive: bool,
    createdAt: string)

  /** The form behind the add and edit dialog. */
  datatype UserForm = UserForm(
    name: string,
    email: string,
    role: string,
    branch: string,
    whatsappNumber: string,
    isActive: bool)

  function IdOf(): User -> IdField {
    (u: User) => u.id
  }

  /** `handleAddUser`: an empty form for a new active staff member. */
  const BlankForm := UserForm("", "", "staff", "", "", true)

  /** `handleEditUser`: the form filled in from the user. */
  function EditForm(u: User): UserForm {
    UserForm(u.name, u.email, u.role, u.branch, u.whatsappNumber, u.isActive)
  }

  /** `!name || !email || !branch`. */
  predicate MissingRequired(f: UserForm) {
    f.name == "" || f.email == "" || f.branch == ""
  }

  /** The `newUser` record: the form's fields, with the edited user's `Id`
      and creation time, or a fresh `Id` and `now` for a new user. */
  function SavedUser(users: seq<User>, editing: Option<User>, f: UserForm, now: string): (u: User)
    ensures editing.Some? ==> u.id == editing.value.id && u.createdAt == editing.value.createdAt
    ensures editing.None? ==> u.id == NextId(Project(users, IdOf())) && u.createdAt == now
    ensures EditForm(u) == f
  {
    var id := if editing.Some? then editing.value.id else NextId(Project(users, IdOf()));
    var createdAt := if editing.Some? then editing.value.createdAt else now;
    User(id, f.name, f.email, f.role, f.branch, f.whatsappNumber, f.isActive, createdAt)
  }

  /** `handleSaveUser`: nothing (an error toast) when a required field is
      empty; otherwise the list with the edited user's entries replaced, or
      with the new user appended. */
  function SaveUser(users: seq<User>, editing: Option<User>, f: UserForm, now: string): (r: Option<seq<User>>)
    ensures r.None? <==> MissingRequired(f)
    ensures r.Some? && editing.Some? ==> r.value == Replaced(users, IdOf(), editing.value.id, SavedUser(users, editing, f, now))
    ensures r.Some? && editing.None? ==>
      |r.value| == |users| + 1 && r.value[..|users|] == users && r.value[|users|] == SavedUser(users, editing, f, now)
  {
    if MissingRequired(f) then None
    else
      var u := SavedUser(users, editing, f, now);
      if editing.Some? then Some(Replaced(users, IdOf(), editing.value.id, u))
      else Some(users + [u])
  }

  /** `handleDeleteUser`: nothing unless confirmed; then the list without
      the users whose `Id` is that one. */
  function DeleteUser(users: seq<User>, userId: IdField, confirmed: bool): (r: Option<seq<User>>)
    ensures r.None? <==> !confirmed
    ensures r.Some? ==> Selects(r.value, users, (u: User) => !StrictEq(u.id, userId))
  {
    if confirmed then Some(Without(users, IdOf(), userId)) else None
  }

  /** `handleToggleUser`: the users with that `Id` get the new `isActive`;
      nothing else changes. */
  function ToggleUser(users: seq<User>, userId: IdField, isActive: bool): (r: seq<User>)
    ensures |r| == |users|
    ensures forall i :: 0 <= i < |users| ==> r[i].(isActive := users[i].isActive) == users[i]
    ensures forall i :: 0 <= i < |users| ==> r[i].isActive == if StrictEq(users[i].id, userId) then isActive else users[i].isActive
  {
    MapWhere(users, (u: User) => StrictEq(u.id, userId), (u: User) => u.(isActive := isActive))
  }

  /** The header's active count, never above the total. */
  function ActiveCount(users: seq<User>): (n: nat)
    ensures n <= |users|
  {
    Count(users, (u: User) => u.isActive)
  }

  /** A new user's `Id` is 1 on an empty list and otherwise above every
      existing `Id`, as long as every user has one. */
  lemma NewUserIdIsFresh(users: seq<User>, f: UserForm, now: string)
    requires forall i :: 0 <= i < |users| ==> users[i].id.Known?
    ensures var u := SavedUser(users, None, f, now);
      && u.id.Known? && u.id.n >= 1
      && (users == [] ==> u.id == Known(1))
      && forall i :: 0 <= i < |users| ==> users[i].id.n < u.id.n
  {
    var ids := Project(users, IdOf());
    assert AllKnown(ids);
    assert forall i :: 0 <= i < |users| ==> ids[i] == users[i].id;
  }

  /** An edit keeps the length, and the saved user keeps the edited user's
      `Id` and creation time. */
  lemma EditKeepsIdentity(users: seq<User>, e: User, f: UserForm, now: string)
    requires !MissingRequired(f)
    ensures var r := SaveUser(users, Some(e), f, now);
      && r.Some? && |r.value| == |users|
      && forall i :: 0 <= i < |users| && StrictEq(users[i].id, e.id) ==>
           r.value[i].id == e.id && r.value[i].createdAt == e.createdAt && EditForm(r.value[i]) == f
  {
  }

  /** With distinct numeric `Id`s, an edit of user `j` replaces that user
      and no other. */
  lemma EditReplacesOnlyThatUser(users: seq<User>, j: nat, f: UserForm, now: string)
    requires Numbered(users, IdOf()) && j < |users|
    requires !MissingRequired(f)
    ensures SaveUser(users, Some(users[j]), f, now) == Some(users[j := SavedUser(users, Some(users[j]), f, now)])
  {
    EditReplacesOnlyThatEntry(users, IdOf(), j, SavedUser(users, Some(users[j]), f, now));
  }

  /** Opening a user for editing and saving the form unchanged leaves the
      list as it was, when every user has its own `Id`. */
  lemma SavingUnchangedFormKeepsList(users: seq<User>, j: nat, now: string)
    requires Numbered(users, IdOf()) && j < |users|
    requires !MissingRequired(EditForm(users[j]))
    ensures SaveUser(users, Some(users[j]), EditForm(users[j]), now) == Some(users)
  {
    var u := SavedUser(users, Some(users[j]), EditForm(users[j]), now);
    assert u == users[j];
    EditReplacesOnlyThatUser(users, j, EditForm(users[j]), now);
    assert users[j := u] == users;
  }

  /** With distinct numeric `Id`s, deleting user `j` drops that user only. */
  lemma DeleteRemovesOnlyThatUser(users: seq<User>, j: nat)
    requires Numbered(users, IdOf()) && j < |users|
    ensures DeleteUser(users, users[j].id, true) == Some(users[..j] + users[j + 1..])
  {
    DeleteRemovesOnlyThatEntry(users, IdOf(), j);
  }

  /** The seeded users have no `Id`: editing one of them overwrites all of
      them, deleting one deletes all of them, switching one switches all of
      them, and a user added next to them gets `Id` `NaN`. */
  lemma UnnumberedUsersMoveTogether(users: seq<User>, f: UserForm, now: string, on: bool)
    requires users != [] && forall i :: 0 <= i < |users| ==> users[i].id == Missing
    requires !MissingRequired(f)
    ensures var r := SaveUser(users, Some(users[0]), f, now);
      r.Some? && forall i :: 0 <= i < |users| ==> r.value[i] == SavedUser(users, Some(users[0]), f, now)
    ensures DeleteUser(users, users[0].id, true) == Some([])
    ensures forall i :: 0 <= i < |users| ==> ToggleUser(users, users[0].id, on)[i].isActive == on
    ensures SavedUser(users, None, f, now).id == NotANumber
  {
    EditOfUnnumberedReplacesAll(users, IdOf(), SavedUser(users, Some(users[0]), f, now));
    DeleteOfUnnumberedRemovesAll(users, IdOf());
    var ids := Project(users, IdOf());
    assert ids[0] == Missing;
  }
}
