# CRM front end: a Dafny model of its services and screens

The CRM manages customers, the follow-up tasks that staff owe them, automated
workflows of steps (delays, emails, WhatsApp messages and tasks), the
notifications that staff receive, and the settings of the business (users,
branches, integrations). Its data lives in mock services that keep in-memory
arrays. The screens read those arrays, filter and sort them, and hand edited
lists back to the services.

This project models that core in Dafny, one module per source file:

- The services (`TaskService`, `CustomerService`, `NotificationService`,
  `WorkflowService`, `SettingsService`) are classes. Each holds its array as a
  `seq` field, and each operation is a method with `modifies this`. Every
  method's `ensures` relates the new state or the result to a specification
  function of the old state. The properties the services promise are proved
  about those functions: ids are fresh, lookups and deletions match by id,
  filters select exactly the matching records, and counts add up.
- The pure lookups (`DashboardService`, the step palette and default
  configurations of `WorkflowBuilder`, the `Sidebar` navigation) are
  functions and constants, with lemmas about their results.
- The screens (`WorkflowsPage`, `TasksPage`, `CustomersPage`,
  `CustomerModal`, `UserManagement`, `BranchSettings`) model the handlers that
  compute a new list or a validation result. The task list's status sort is
  an in-place insertion sort over an `array`. It is proved to be a
  permutation, sorted by status rank, and stable.
- `Common` and `Lists` hold the JavaScript behaviour the modules share:
  values and truthiness, `toLowerCase`, `includes`, `trim`, `String(n)` and
  `parseInt`, and `filter` and `map` over sequences. `EntryLists` holds the
  list edits shared by the users and branches screens.

Delays, `Date.now()`, `new Date()` and `window.confirm` become parameters.
Ids are integers. Dates are integers (milliseconds) or the caller's strings.

## Model

| member | source | states |
|---|---|---|
| WorkflowBuilder.DefaultConfigTable | src/components/organisms/WorkflowBuilder.jsx:82-95 | a new delay step waits one day; email starts with empty subject and template and no variables; WhatsApp with an empty template and no variables; a task with empty title and description assigned "auto"; any other type gets an empty object |
| WorkflowBuilder.DefaultConfigMatchesShape | src/components/organisms/WorkflowBuilder.jsx:82-95 | every default configuration has the shape its step type calls for |
| WorkflowBuilder.FindStepType | src/components/organisms/WorkflowBuilder.jsx:150 | a palette entry is found only with the asked type; nothing is found only when no palette entry has that type |
| WorkflowBuilder.StepIconAndColorLookup | src/components/organisms/WorkflowBuilder.jsx:149-157 | a palette type shows its own icon and colour; a type outside the palette (the seeded `sms` steps) shows `Circle` on the slate gradient |
| WorkflowBuilder.DropIndexRemovesOnlyThatPosition | src/components/organisms/WorkflowBuilder.jsx:112-117 | filtering out an in-range index drops exactly that step and keeps the others in order; an out-of-range index leaves the list as it was |
| WorkflowBuilder.Reconfigured | src/components/organisms/WorkflowBuilder.jsx:102-108 | the length and every other step are kept; the step at the index keeps its id, type and name and takes the new configuration |
| WorkflowBuilder.MovedIsPermutation | src/components/organisms/WorkflowBuilder.jsx:119-122 | a move keeps the length and the multiset of steps, puts the moved step at the target index, and leaves the other steps in their relative order |
| WorkflowBuilder.MoveBackRestores | src/components/organisms/WorkflowBuilder.jsx:119-128 | moving a step back to where it came from restores the list |
| WorkflowBuilder.MoveDownThenUpRestores | src/components/organisms/WorkflowBuilder.jsx:339-354 | "move down" followed by "move up" of the same step restores the original order |
| WorkflowBuilder.MoveDownSwapsNeighbours | src/components/organisms/WorkflowBuilder.jsx:119-122 | moving a step one place down exchanges it with its successor and touches nothing else |
| WorkflowBuilder.MoveUpSwapsNeighbours | src/components/organisms/WorkflowBuilder.jsx:119-122 | moving a step one place up exchanges it with its predecessor and touches nothing else |
| WorkflowBuilder.OfferedMovesStayInRange | src/components/organisms/WorkflowBuilder.jsx:339-354 | the up button appears only below the first step and the down button only above the last, so every offered move has both indices in range (the up move's target is at least 0) and swaps the step with its neighbour above or below |
| WorkflowBuilder.SaveGateDecides | src/components/organisms/WorkflowBuilder.jsx:130-147 | the draft passes iff the trimmed name is non-empty, a package is chosen and there is a step; otherwise the first failing check, in that order, decides the error |
| WorkflowBuilder.Builder.constructor | src/components/organisms/WorkflowBuilder.jsx:7-16 | a new draft is empty and active, with no step selected and the step dialog closed |
| WorkflowBuilder.Builder.Load | src/components/organisms/WorkflowBuilder.jsx:18-28 | a missing name, description or package becomes empty text and missing steps an empty list; `isActive` becomes true only when absent, so a stored false is kept |
| WorkflowBuilder.Builder.SetName | src/components/organisms/WorkflowBuilder.jsx:209 | only the name changes |
| WorkflowBuilder.Builder.SetDescription | src/components/organisms/WorkflowBuilder.jsx:221 | only the description changes |
| WorkflowBuilder.Builder.SetPackage | src/components/organisms/WorkflowBuilder.jsx:234 | only the package changes |
| WorkflowBuilder.Builder.ToggleActive | src/components/organisms/WorkflowBuilder.jsx:247 | only `isActive` changes, to its negation |
| WorkflowBuilder.Builder.AddStep | src/components/organisms/WorkflowBuilder.jsx:68-80 | exactly one step is appended, with the clock reading as id, the chosen type and name and that type's default configuration; earlier steps and the other fields are unchanged |
| WorkflowBuilder.Builder.EditStep | src/components/organisms/WorkflowBuilder.jsx:97-100 | the index is remembered and the step dialog opens |
| WorkflowBuilder.Builder.UpdateStep | src/components/organisms/WorkflowBuilder.jsx:102-110 | only the configuration of the step at the index changes, and the dialog closes |
| WorkflowBuilder.Builder.RemoveStep | src/components/organisms/WorkflowBuilder.jsx:112-117 | an in-range index removes exactly that step, keeping the others in order; any other index changes nothing |
| WorkflowBuilder.Builder.MoveStep | src/components/organisms/WorkflowBuilder.jsx:119-128 | the steps are permuted, with the moved step at the target index; nothing else in the draft changes |
| WorkflowBuilder.Builder.HandleSave | src/components/organisms/WorkflowBuilder.jsx:130-147 | the draft is handed on iff the three checks pass; otherwise the error is that of the first failing check: "Workflow name is required", then "Package selection is required", then "At least one step is required" |
| WorkflowService.MergedOverwritesOnlySupplied | src/services/api/workflowService.js:127-131 | a merge overwrites exactly the supplied fields and stamps `updatedAt`; the id, trigger, statistics, creation time and every omitted field survive |
| WorkflowService.IndexOf | src/services/api/workflowService.js:122 | the index of the first workflow with that id, or -1 exactly when none has it |
| WorkflowService.WorkflowStore.constructor | src/services/api/workflowService.js:7-64 | the store starts with the given workflows |
| WorkflowService.WorkflowStore.GetAll | src/services/api/workflowService.js:68-76 | the same workflows in store order |
| WorkflowService.WorkflowStore.GetById | src/services/api/workflowService.js:79-91 | succeeds iff some workflow has that id, with the first such workflow; otherwise fails with "Failed to load workflow" |
| WorkflowService.WorkflowStore.Create | src/services/api/workflowService.js:94-116 | exactly one workflow is appended, under the fresh id, with zeroed statistics, both timestamps set to now, and `isActive` true unless the input says false |
| WorkflowService.WorkflowStore.Update | src/services/api/workflowService.js:119-139 | an unknown id fails and changes nothing; otherwise the first workflow with that id is replaced, in its place, by its merge with the input |
| WorkflowService.WorkflowStore.Delete | src/services/api/workflowService.js:142-156 | an unknown id fails and changes nothing; otherwise exactly the first workflow with that id is removed |
| WorkflowService.WorkflowStore.Toggle | src/services/api/workflowService.js:159-178 | an unknown id fails and changes nothing; otherwise only `isActive` and `updatedAt` of that workflow change |
| WorkflowService.UpdateKeepsPositions | src/services/api/workflowService.js:122-133 | an update keeps the length and every other position, and the updated workflow is still found first under its id |
| WorkflowsPage.ActivePlusPausedIsTotal | src/components/pages/Workflows.jsx:127-154 | every workflow is counted on exactly one of the Active and Paused cards, so together they make the total |
| WorkflowsPage.WithoutIdDropsExactlyThatId | src/components/pages/Workflows.jsx:69 | removing by id keeps exactly the workflows with another id, in order; with no such id the list is unchanged |
| WorkflowsPage.Page.constructor | src/components/pages/Workflows.jsx:13-28 | the page starts with the loaded list and the builder closed |
| WorkflowsPage.Page.OpenForCreate | src/components/pages/Workflows.jsx:37-40 | the builder opens with nothing being edited |
| WorkflowsPage.Page.OpenForEdit | src/components/pages/Workflows.jsx:42-45 | the builder opens on that workflow |
| WorkflowsPage.Page.HandleSave | src/components/pages/Workflows.jsx:47-63 | an edit replaces only the entries with the edited id by the repository's result, a create appends the created workflow; the builder closes only on success, and on failure the list and builder are unchanged |
| WorkflowsPage.Page.HandleDelete | src/components/pages/Workflows.jsx:65-76 | the entry leaves the list only when confirmed and the repository succeeds; otherwise the list is unchanged |
| WorkflowsPage.Page.HandleToggle | src/components/pages/Workflows.jsx:78-87 | on success only the entries with that id are replaced by the repository's result; on failure nothing changes |
| TaskService.PatchedByNothing | src/services/api/taskService.js:124 | spreading an empty update over a task leaves it as it was |
| TaskService.Completed | src/services/api/taskService.js:136-141 | the task becomes completed at the given time; its notes are replaced only by non-empty notes; every other field is kept |
| TaskService.MaxId | src/services/api/taskService.js:105 | the largest `Id` of a non-empty store: no task's `Id` is above it and some task has it |
| TaskService.IndexStrict | src/services/api/taskService.js:119 | the first task whose numeric `Id` is strictly equal to the argument, or -1 exactly when there is none; a textual argument never matches |
| TaskService.IndexParsed | src/services/api/taskService.js:87 | the first task whose `Id` equals `parseInt` of the argument, or -1 exactly when there is none |
| TaskService.NumericLookupsAgree | src/services/api/taskService.js:84-119 | for a numeric argument, `getById`'s lookup and the other operations' lookup find the same task |
| TaskService.TextualIdFoundOnlyByGetById | src/services/api/taskService.js:84-119 | the textual form of a stored `Id` finds the task through `getById` but through none of `update`, `complete` or `delete` |
| TaskService.TaskStore.constructor | src/services/api/taskService.js:3-69 | the store starts with the given tasks |
| TaskService.TaskStore.GetAll | src/services/api/taskService.js:72-82 | the same tasks in store order |
| TaskService.TaskStore.GetById | src/services/api/taskService.js:84-93 | succeeds iff the argument parses to some task's `Id`, with the first such task in store order, as `find` returns it; otherwise "Task not found" |
| TaskService.TaskStore.GetByCustomerId | src/services/api/taskService.js:95-99 | exactly the tasks whose customer is `parseInt` of the argument, in store order; none when the argument does not parse |
| TaskService.TaskStore.Create | src/services/api/taskService.js:101-114 | one task is appended; its `Id` is one above the largest (so above every existing `Id`) unless the input brings one; its status is pending whatever the input says; the other fields come from the input |
| TaskService.TaskStore.Update | src/services/api/taskService.js:116-126 | an unknown id fails with "Task not found" and changes nothing; otherwise the first matching task is replaced, in its place, by the task with the supplied fields overwritten |
| TaskService.TaskStore.Complete | src/services/api/taskService.js:128-144 | an unknown id fails and changes nothing; otherwise the first matching task is completed in its place |
| TaskService.TaskStore.Delete | src/services/api/taskService.js:146-156 | an unknown id fails and changes nothing; otherwise exactly the first matching task is removed |
| TaskService.TaskStore.GetTasksByStatus | src/services/api/taskService.js:158-162 | exactly the tasks with that status, in store order |
| TaskService.TaskStore.GetOverdueTasks | src/services/api/taskService.js:164-169 | exactly the pending tasks due before now, in store order; a completed task is never among them |
| TaskService.DeleteKeepsOthersInOrder | src/services/api/taskService.js:149-155 | a delete removes exactly one task, the matching one, and keeps the others in order |
| TasksPage.GroupIsFilter | src/components/pages/Tasks.jsx:57 | the recursive group of one status is the status filter |
| TasksPage.ByRankIsSorted | src/components/pages/Tasks.jsx:64-68 | in the shown order every overdue task precedes every pending one, which precedes every completed one |
| TasksPage.ByRankIsPermutation | src/components/pages/Tasks.jsx:64-68 | with every status known, the shown order holds exactly the filtered tasks (a permutation) |
| TasksPage.ByRankIsStable | src/components/pages/Tasks.jsx:64-68 | the tasks of each status keep their relative order, as the stable sort keeps them |
| TasksPage.GroupTwice | src/components/pages/Tasks.jsx:57 | filtering a status group by a status keeps it when the statuses agree and empties it otherwise |
| TasksPage.ByRankIsIdempotent | src/components/pages/Tasks.jsx:64-68 | sorting the shown order again changes nothing |
| TasksPage.SortedIsByRank | src/components/pages/Tasks.jsx:64-68 | a list already in rank order is its own grouping |
| TasksPage.SwapKeepsGroups | src/components/pages/Tasks.jsx:64-68 | exchanging two neighbours of different status keeps every status group, which is why the insertion steps keep the sort stable |
| TasksPage.SortByStatusRank | src/components/pages/Tasks.jsx:64-68 | the array is sorted in place into the overdue, pending, completed grouping of its old contents |
| TasksPage.SinkInto | src/components/pages/Tasks.jsx:64-68 | one insertion step extends the sorted prefix by one and keeps every status group |
| TasksPage.VisibleSelectsShown | src/components/pages/Tasks.jsx:46-62 | a task is shown iff the empty-or-matching query (case-insensitive, on customer name or description), the status filter and the type filter all accept it, and the shown tasks keep their order |
| TasksPage.VisibleKeepsKnown | src/components/pages/Tasks.jsx:46-62 | filtering only drops tasks, so the shown statuses stay among the three known ones |
| TasksPage.VisibleWithoutFilters | src/components/pages/Tasks.jsx:46-62 | with an empty query and both filters on "all", every task is shown |
| TasksPage.CountsAddUp | src/components/pages/Tasks.jsx:104-111 | with every status known, the pending, overdue and completed figures add up to the total |
| TasksPage.CountsOfByRank | src/components/pages/Tasks.jsx:104-111 | sorting the tasks changes none of the figures |
| TasksPage.Page.constructor | src/components/pages/Tasks.jsx:14-22 | the page starts with the loaded tasks, nothing shown, an empty query and both filters on "all" |
| TasksPage.Page.FilterTasks | src/components/pages/Tasks.jsx:46-71 | with a filter set, a fresh array of the shown tasks is sorted and `tasks` is untouched; with none set, `tasks` itself is sorted in place and becomes the shown array |
| TasksPage.Page.HandleCompleteTask | src/components/pages/Tasks.jsx:78-88 | on success only the tasks with that `Id` are replaced by the completed one and the modal closes; on failure nothing changes |
| CustomerService.PatchedKeepsIdentity | src/services/api/customerService.js:123 | spreading an update over a customer never touches its `Id`, dates or agent |
| CustomerService.MaxId | src/services/api/customerService.js:103 | the largest `Id` of a non-empty store: no customer's `Id` is above it and some customer has it |
| CustomerService.IndexStrict | src/services/api/customerService.js:118 | the first customer whose numeric `Id` is strictly equal to the argument, or -1 exactly when there is none |
| CustomerService.EmptySearchMatchesAll | src/services/api/customerService.js:139-148 | the empty query matches every customer |
| CustomerService.SearchIgnoresQueryCase | src/services/api/customerService.js:142 | the repository's search gives the same answer for a query and its lower-cased form |
| CustomerService.CustomerStore.constructor | src/services/api/customerService.js:2-68 | the store starts with the given customers |
| CustomerService.CustomerStore.GetAll | src/services/api/customerService.js:71-81 | the same customers in store order |
| CustomerService.CustomerStore.GetById | src/services/api/customerService.js:83-92 | succeeds iff the argument parses to some customer's `Id`, with the first such customer in store order, as `find` returns it; otherwise "Customer not found" |
| CustomerService.CustomerStore.Create | src/services/api/customerService.js:94-113 | input without name, email or WhatsApp number fails with the required-fields message and changes nothing; otherwise one customer is appended, under an `Id` above every existing one, always active, created and last contacted now, with tags defaulting to none |
| CustomerService.CustomerStore.Update | src/services/api/customerService.js:115-125 | an unknown id fails with "Customer not found" and changes nothing; otherwise the matching customer is replaced, in its place, by its merge with the supplied fields |
| CustomerService.CustomerStore.Delete | src/services/api/customerService.js:127-137 | an unknown id fails and changes nothing; otherwise exactly the first matching customer is removed |
| CustomerService.CustomerStore.Search | src/services/api/customerService.js:139-149 | exactly the customers whose lower-cased name, email or branch, or whose raw WhatsApp number, contains the lower-cased query, in store order; every customer for the empty query |
| CustomerService.CustomerStore.GetByStatus | src/services/api/customerService.js:151-155 | exactly the customers with that status, in store order |
| CustomerService.CustomerStore.GetByBranch | src/services/api/customerService.js:157-161 | exactly the customers of that branch, in store order |
| CustomerService.CustomerStore.UpdateLastContacted | src/services/api/customerService.js:163-173 | an unknown id fails and changes nothing; otherwise only `lastContacted` of the matching customer changes |
| CustomersPage.VisibleSelectsShown | src/components/pages/Customers.jsx:46-62 | a customer is shown iff the empty-or-matching query (lower-cased name or email, or the raw WhatsApp number) and the status filter both accept it, and the shown customers keep their order |
| CustomersPage.VisibleWithoutFilters | src/components/pages/Customers.jsx:46-62 | with an empty query and the "all" filter, every customer is shown |
| CustomersPage.WhatsappCaseDiffers | src/components/pages/Customers.jsx:53 | the page matches the WhatsApp number against the query as typed while the repository lower-cases the query first, so a number holding a capital letter is found by one and missed by the other |
| CustomersPage.AfterSave | src/components/pages/Customers.jsx:74-90 | on failure the list and the modal stay as they were; on success an edit replaces exactly the entries with the edited `Id` by the saved customer, an addition appends it, and the modal closes |
| CustomersPage.AfterDelete | src/components/pages/Customers.jsx:92-103 | the list changes only after a confirmed, successful delete, which keeps exactly the customers with another `Id`, in order |
| CustomerModal.InitialForm | src/components/molecules/CustomerModal.jsx:6-30 | a new customer starts from empty fields and status "active"; each of an edited customer's seven fields is copied, a missing staff member or package reading as empty and a missing status as "active" |
| CustomerModal.ErrorsAreFieldErrors | src/components/molecules/CustomerModal.jsx:53-79 | the errors object has an entry for exactly the failing fields, each holding that field's message, so every failing field is reported together |
| CustomerModal.NameRequiredIffBlank | src/components/molecules/CustomerModal.jsx:56-58 | the name is refused, with "Name is required", exactly when trimming leaves nothing of it |
| CustomerModal.WhatsappRequiredIffBlank | src/components/molecules/CustomerModal.jsx:66-68 | the WhatsApp number is refused, with "WhatsApp number is required", exactly when trimming leaves nothing of it |
| CustomerModal.EmailErrors | src/components/molecules/CustomerModal.jsx:60-64 | a blank email gives "Email is required"; a non-blank one not shaped like `\S+@\S+\.\S+` gives "Invalid email format"; a shaped one gives no error, so the two messages never meet |
| CustomerModal.OtherFieldErrors | src/components/molecules/CustomerModal.jsx:70-76 | branch and package are refused exactly when empty, without trimming; staff and status never produce an error |
| CustomerModal.SampleAddresses | src/components/molecules/CustomerModal.jsx:62 | `a@b.c` has the email shape and `a@b` does not |
| CustomerModal.SampleFormPasses | src/components/molecules/CustomerModal.jsx:53-79 | a filled-in form with a well-shaped email and no staff member passes with no errors |
| CustomerModal.CustomerForm.constructor | src/components/molecules/CustomerModal.jsx:6-30 | the form starts from the initial values with no errors |
| CustomerModal.CustomerForm.ValidateForm | src/components/molecules/CustomerModal.jsx:53-80 | the recorded errors are exactly those of the failing fields, and the answer is true iff there are none |
| CustomerModal.CustomerForm.HandleSubmit | src/components/molecules/CustomerModal.jsx:82-87 | the form data is handed on exactly when validation passes |
| CustomerModal.CustomerForm.HandleChange | src/components/molecules/CustomerModal.jsx:89-94 | only the given field's value changes, and only that field's error, if shown, is cleared |
| NotificationService.InsertKeepsNotifications | src/services/api/notificationService.js:66 | one insertion step of the sort adds exactly the inserted notification |
| NotificationService.InsertKeepsOrder | src/services/api/notificationService.js:66 | inserting into a newest-first list keeps it newest first |
| NotificationService.NewestFirstIsSortedPermutation | src/services/api/notificationService.js:66 | the sorted copy is newest first and holds exactly the stored notifications |
| NotificationService.InsertIsStable | src/services/api/notificationService.js:66 | an insertion puts the notification ahead of every other one with its timestamp and keeps their order |
| NotificationService.NewestFirstIsStable | src/services/api/notificationService.js:66 | the sort is stable: notifications with the same timestamp keep their list order |
| NotificationService.Page | src/services/api/notificationService.js:69 | the slice has at most `limit` entries, exactly as many as lie between `offset` and the end, each the entry at its offset position |
| NotificationService.PageOfNewestFirst | src/services/api/notificationService.js:64-71 | a page is newest first and holds only stored notifications; from offset 0 with a limit no smaller than the store it holds all of them |
| NotificationService.IndexParsed | src/services/api/notificationService.js:83-116 | the first notification whose `Id` equals `parseInt` of the argument, or -1 exactly when there is none |
| NotificationService.MaxId | src/services/api/notificationService.js:129 | the largest `Id` of a non-empty store: no notification's `Id` is above it and some notification has it |
| NotificationService.AllRead | src/services/api/notificationService.js:106-108 | every notification is flagged read and nothing else about it changes |
| NotificationService.AllReadLeavesNoneUnread | src/services/api/notificationService.js:103-111 | after marking all, no notification is unread, and each keeps its `Id` and timestamp |
| NotificationService.BumpCounts | src/services/api/notificationService.js:152 | one increment adds one to the counted type only, lists that type, and adds one to the sum |
| NotificationService.TallyCounts | src/services/api/notificationService.js:151-154 | the tally counts every type exactly as often as it occurs, lists exactly the types that occur, and its counts sum to the number of notifications |
| NotificationService.ReadPlusUnread | src/services/api/notificationService.js:149-159 | read and unread notifications make up the whole list |
| NotificationService.ClearOldKeepsRecent | src/services/api/notificationService.js:164-179 | clearing keeps exactly the notifications not older than the cutoff, in order, and removes as many as are older |
| NotificationService.ClearStep | src/services/api/notificationService.js:171-175 | one step of the backward walk: keeping or splicing out entry `i` leaves the prefix before it and the already-walked tail in place |
| NotificationService.NotificationStore.constructor | src/services/api/notificationService.js:2-53 | the store starts with the given notifications |
| NotificationService.NotificationStore.GetAll | src/services/api/notificationService.js:56-72 | the page at `offset` (default 0) of at most `limit` (default 50) entries of the newest-first copy, which is sorted and holds only stored notifications; a call without arguments sees at most 50; the store itself is not reordered |
| NotificationService.NotificationStore.GetUnread | src/services/api/notificationService.js:74-78 | exactly the unread notifications, in store order |
| NotificationService.NotificationStore.GetById | src/services/api/notificationService.js:80-89 | succeeds iff the argument parses to some notification's `Id`, with the first such notification in list order, as `find` returns it; otherwise "Notification not found" |
| NotificationService.NotificationStore.MarkAsRead | src/services/api/notificationService.js:91-101 | an unknown id fails and changes nothing; otherwise only the matching notification's read flag is set |
| NotificationService.NotificationStore.MarkAllAsRead | src/services/api/notificationService.js:103-111 | every notification is flagged read, nothing else changes, and the count reported is the store's length |
| NotificationService.NotificationStore.Delete | src/services/api/notificationService.js:113-123 | an unknown id fails and changes nothing; otherwise exactly the first matching notification is removed |
| NotificationService.NotificationStore.Create | src/services/api/notificationService.js:125-138 | the new notification goes to the front, unread, created now, with an `Id` above every existing one unless the input brings one, and priority "medium" when none is given; it is then the first found under its `Id` |
| NotificationService.NotificationStore.GetByType | src/services/api/notificationService.js:140-144 | exactly the notifications of that type, in store order |
| NotificationService.NotificationStore.GetStats | src/services/api/notificationService.js:146-162 | the total is the store's length, unread and read count those notifications and add up to the total, and the per-type counts list exactly the occurring types, count each exactly and sum to the total |
| NotificationService.NotificationStore.ClearOld | src/services/api/notificationService.js:164-179 | the store keeps exactly the notifications not older than the cutoff (`daysOld` days before now, 30 by default), in their order, and the removed count is the number that were older |
| NotificationService.CreatedIsFoundFirst | src/services/api/notificationService.js:125-136 | a notification put at the front is found first under its `Id`, given as a number or as its text |
| NotificationService.StatsAgreeWithGetByType | src/services/api/notificationService.js:140-154 | each per-type count of the statistics is the size of the answer for that type |
| SettingsService.IndexEntriesAt | src/services/api/settingsService.js:169 | spreading an array copies element `i` under the key `String(i)` |
| SettingsService.IndexEntriesKeys | src/services/api/settingsService.js:169 | spreading an array produces no key but those of its indices |
| SettingsService.Spread | src/services/api/settingsService.js:169 | the spread of two values is always a plain object, never an array |
| SettingsService.SpreadMergesFields | src/services/api/settingsService.js:169 | merging objects keeps every field the update leaves out, takes every field it brings, and adds no other |
| SettingsService.SpreadKeepsRemovedEntries | src/services/api/settingsService.js:169 | as written, spreading a shorter list over a list section leaves an object, not the new list, that still holds the old entries past the new list's end |
| SettingsService.DeletedUserSurvivesUpdate | src/services/api/settingsService.js:169 | three users, the third deleted on the users screen: after the update the section still holds the third under key "2" |
| SettingsService.Merged | src/services/api/settingsService.js:169 | the corrected merge, used by no store method: a list sent for a section replaces it; any other value is spread over it as written |
| SettingsService.MergedListHasNoRemovedEntries | src/services/api/settingsService.js:169 | with the corrected merge, a list section afterwards has an entry for exactly the indices of the list sent |
| SettingsService.DefaultsExistFor | src/services/api/settingsService.js:177-196 | exactly `general`, `notifications` and `security` have defaults, and each is a non-empty object |
| SettingsService.DefaultsDropSeededKeys | src/services/api/settingsService.js:177-197 | a reset replaces a section rather than merging into it: the seeded `sms` channel and `dateFormat` are gone afterwards |
| SettingsService.TestIntegration | src/services/api/settingsService.js:204-216 | the test succeeds iff the provider is email or calendar; an unknown provider gets "Unknown provider" |
| SettingsService.Imported | src/services/api/settingsService.js:237-241 | an import as written keeps exactly the existing sections, adding none; each named truthy section gets its entry spread over it |
| SettingsService.IntendedImported | src/services/api/settingsService.js:237-241 | the corrected import, used by no store method, keeps exactly the existing sections |
| SettingsService.ImportOfExportFlattensLists | src/services/api/settingsService.js:218-241 | the export carries the sections under `settings`; importing it back as written leaves every object section as it was but turns every list section into an object keyed by index |
| SettingsService.IntendedImportOfExportChangesNothing | src/services/api/settingsService.js:218-241 | with the corrected merge, importing an export back leaves every object or list section as it was |
| SettingsService.ImportTouchesOnlyNamedSections | src/services/api/settingsService.js:237-241 | a section the import does not name, or one that is falsy, keeps its value |
| SettingsService.SettingsStore.constructor | src/services/api/settingsService.js:2-138 | the record starts with the given sections |
| SettingsService.SettingsStore.GetSettingsSection | src/services/api/settingsService.js:152-160 | a missing or falsy section fails with "Settings section not found"; otherwise a copy of its entries |
| SettingsService.SettingsStore.UpdateSettings | src/services/api/settingsService.js:162-171 | a missing or falsy section fails and changes nothing; otherwise only that section changes, to the new settings spread over it (a list sent for `users` or `branches` merged index by index into an object), and a copy of it is returned |
| SettingsService.SettingsStore.ResetSettings | src/services/api/settingsService.js:173-202 | `general`, `notifications` and `security` are replaced wholesale by their defaults; any other section fails with "Cannot reset this section" and nothing changes |
| SettingsService.SettingsStore.ImportSettings | src/services/api/settingsService.js:228-244 | without a truthy `settings` field the import fails with "Invalid settings format" and nothing changes; otherwise each named, existing, truthy section gets its entry spread over it and nothing else changes |
| EntryLists.NextId | src/components/organisms/UserManagement.jsx:53 | with every `Id` numeric, the next `Id` is 1 for an empty list and otherwise one above the largest, so above every existing one; one missing `Id` makes it `NaN` |
| EntryLists.Replaced | src/components/organisms/UserManagement.jsx:57-58 | the list keeps its length; exactly the entries whose `Id` is strictly equal to the given one become the new entry |
| EntryLists.Without | src/components/organisms/UserManagement.jsx:68 | keeps exactly the entries whose `Id` is not strictly equal to the given one, in order |
| EntryLists.EditReplacesOnlyThatEntry | src/components/organisms/UserManagement.jsx:53-58 | with distinct numeric `Id`s, saving an edit of entry `j` replaces entry `j` and no other |
| EntryLists.DeleteRemovesOnlyThatEntry | src/components/organisms/UserManagement.jsx:66-72 | with distinct numeric `Id`s, removing by entry `j`'s `Id` drops entry `j` and keeps the others in order |
| EntryLists.EditOfUnnumberedReplacesAll | src/components/organisms/UserManagement.jsx:57-58 | entries without an `Id` all compare equal, so an edit of one overwrites all of them |
| EntryLists.DeleteOfUnnumberedRemovesAll | src/components/organisms/UserManagement.jsx:66-72 | entries without an `Id` all compare equal, so deleting one deletes all of them |
| UserManagement.SavedUser | src/components/organisms/UserManagement.jsx:51-55 | the saved user holds exactly the form's fields, with the edited user's `Id` and creation time, or a new `Id` and now for a new user |
| UserManagement.SaveUser | src/components/organisms/UserManagement.jsx:45-64 | refused, leaving the list unchanged, iff name, email or branch is empty; an edit replaces the entries with the edited `Id`; an addition appends the new user at the end |
| UserManagement.DeleteUser | src/components/organisms/UserManagement.jsx:66-72 | nothing happens without confirmation; with it, exactly the users with another `Id` stay, in order |
| UserManagement.ToggleUser | src/components/organisms/UserManagement.jsx:74-80 | the users with that `Id` get the new active flag; nothing else about any user changes |
| UserManagement.ActiveCount | src/components/organisms/UserManagement.jsx:91 | the active count never exceeds the number of users |
| UserManagement.NewUserIdIsFresh | src/components/organisms/UserManagement.jsx:53 | with every `Id` numeric, a new user's `Id` is 1 on an empty list and otherwise above every existing `Id` |
| UserManagement.EditKeepsIdentity | src/components/organisms/UserManagement.jsx:51-59 | an edit keeps the length, and every replaced entry carries the edited user's `Id` and creation time and the form's fields |
| UserManagement.EditReplacesOnlyThatUser | src/components/organisms/UserManagement.jsx:53-59 | with distinct numeric `Id`s, an edit of user `j` replaces that user and no other |
| UserManagement.SavingUnchangedFormKeepsList | src/components/organisms/UserManagement.jsx:32-59 | opening a user for editing and saving the form unchanged leaves the list as it was |
| UserManagement.DeleteRemovesOnlyThatUser | src/components/organisms/UserManagement.jsx:66-72 | with distinct numeric `Id`s, deleting user `j` drops that user only |
| UserManagement.UnnumberedUsersMoveTogether | src/components/organisms/UserManagement.jsx:53-80 | as written, for users without an `Id` (the seeded ones): an edit overwrites all, a delete removes all, a toggle switches all, and a user added beside them gets `NaN` |
| BranchSettings.SavedBranch | src/components/organisms/BranchSettings.jsx:51-55 | the saved branch holds exactly the form's fields, with the edited branch's `Id` and creation time, or a new `Id` and now for a new branch |
| BranchSettings.SaveBranch | src/components/organisms/BranchSettings.jsx:45-64 | refused, leaving the list unchanged, iff name or address is empty; an edit replaces the entries with the edited `Id`; an addition appends the new branch at the end |
| BranchSettings.DeleteBranch | src/components/organisms/BranchSettings.jsx:66-72 | nothing happens without confirmation; with it, exactly the branches with another `Id` stay, in order |
| BranchSettings.ActiveCount | src/components/organisms/BranchSettings.jsx:83 | the active count never exceeds the number of branches |
| BranchSettings.OptionalFieldsMayBeEmpty | src/components/organisms/BranchSettings.jsx:46-49 | phone, email and manager are optional: a form with a name and an address is saved |
| BranchSettings.NewBranchIdIsFresh | src/components/organisms/BranchSettings.jsx:53 | with every `Id` numeric, a new branch's `Id` is 1 on an empty list and otherwise above every existing `Id` |
| BranchSettings.EditReplacesOnlyThatBranch | src/components/organisms/BranchSettings.jsx:53-59 | with distinct numeric `Id`s, an edit of branch `j` replaces that branch only, keeping its `Id` and creation time |
| BranchSettings.DeleteRemovesOnlyThatBranch | src/components/organisms/BranchSettings.jsx:66-72 | with distinct numeric `Id`s, deleting branch `j` drops that branch only |
| BranchSettings.UnnumberedBranchesMoveTogether | src/components/organisms/BranchSettings.jsx:53-72 | as written, for branches without an `Id` (the seeded ones): an edit overwrites all, a delete removes all, and a branch added beside them gets `NaN` |
| DashboardService.GetDashboardData | src/services/api/dashboardService.js:75-106 | a falsy or non-string role gets the staff data; "admin" gets the admin data; any other name gets the staff data, except a name every object inherits, which lands in the catch and gets the all-zero data |
| DashboardService.OnlyAdminSeesPerformance | src/services/api/dashboardService.js:75-105 | the dashboard has a non-empty performance chart iff the role is "admin" |
| DashboardService.DashboardDataIsOneOfThree | src/services/api/dashboardService.js:75-106 | whatever the role, the answer is the admin, staff or fallback data |
| DashboardService.GetPerformanceMetrics | src/services/api/dashboardService.js:121-139 | "7days" gets the seven-day table; every other period, including an omitted one, gets the six-month table |
| DashboardService.UnknownPeriodFallsBackToThirtyDays | src/services/api/dashboardService.js:121-138 | an unknown period and the omitted one answer as "30days" does, and that is the admin dashboard's chart |
| Sidebar.FilteredNavigation | src/components/organisms/Sidebar.jsx:20-22 | a link is kept iff it is not admin-only or the user is a super admin, and the kept links stay in order |
| Sidebar.StaffSeesThreeLinks | src/components/organisms/Sidebar.jsx:11-22 | a staff member sees exactly Dashboard, Customers and Tasks, in that order |
| Sidebar.AdminSeesAllLinks | src/components/organisms/Sidebar.jsx:11-22 | a super admin sees all six links |
| Sidebar.DashboardActiveOnlyOnExactMatch | src/components/organisms/Sidebar.jsx:97-98 | the Dashboard link is highlighted only on `/dashboard` itself |
| Sidebar.OtherLinksActiveOnPrefix | src/components/organisms/Sidebar.jsx:97-98 | any other link is highlighted iff its target is a raw prefix of the location, so `/customers-archive` highlights Customers |
| Sidebar.AtMostOneActive | src/components/organisms/Sidebar.jsx:11-98 | no link's target begins with another's, so at most one link is highlighted for any location |

## Left out

- The services' artificial delays (`setTimeout`) are not modelled, and neither are their random failures, such as the 5% failure of `getAll`. Each method models the path that does not fail at random.
- `notificationService.subscribe` is not modelled. It pushes on a timer to callbacks, which is outside this model.
- `settingsService.getSettings` is not modelled, because it only copies the record after a delay. `exportSettings` is modelled only by the value it wraps (`SettingsService.Exported`).
- `workflowService.getStats`, `dashboardService.getKPIData` and the reports service are outside the modelled core.
- The dashboard page's retry loop is not modelled. Neither are the authentication hook and role switcher: whether the user is a super admin is a parameter.
- The task card and task modal components are presentational and not modelled. The same goes for loading spinners, toasts and routing.
- JavaScript lets a key name a method every object inherits (`toString`, `constructor`, `__proto__`, ...). A settings section, an integration provider, a reporting period or a notification type counted by `getStats` can be named that way. For `getStats`, `acc['toString'] || 0` is a function and `+ 1` turns the count for that type into a string. Only the dashboard role lookup models inherited names, because there they decide which branch runs.
- DashboardService.GetDashboardData: a role of `__proto__` reads `Object.prototype`, which the source returns as the data set. The model gives that role the staff data set.
- TaskService.TaskStore.Create: requires a non-empty store when the input brings no `Id`. On an empty store `Math.max()` is `-Infinity` and the new `Id` is `-Infinity`, which an integer model cannot hold.
- CustomerService.CustomerStore.Create: requires a non-empty store for input that passes validation, for the same reason. Invalid input is rejected on any store.
- NotificationService.NotificationStore.Create: requires a non-empty store when the input brings no `Id`, for the same reason. An input `Id` overrides the computed one, so then any store will do.
- NotificationService.NotificationStore.GetAll: `limit` and `offset` are optional non-negative integers, defaulting to 50 and 0. A negative or fractional argument to `slice` is not modelled.
- NotificationService.NotificationStore.ClearOld: `daysOld` is an optional integer, defaulting to 30. Dates are integer milliseconds. The floating-point rounding of `daysOld * 86400000` for huge or fractional `daysOld` is not modelled.
- NotificationService.NotificationStore.GetStats: `byType` is an association list in first-seen order. JavaScript would list integer-like type names first; the counts are the same.
- TasksPage.Page.FilterTasks: requires every task's status to be `overdue`, `pending` or `completed`. For any other status the source comparator returns `NaN`, and the engine's sort order is then unspecified.
- WorkflowBuilder.Builder.MoveStep: requires both indices in range. The step cards offer only in-range moves (`WorkflowBuilder.OfferedMovesStayInRange`), and `splice` with an out-of-range index is not modelled.
- SettingsService.SettingsStore.ImportSettings: requires a non-null argument. The source throws a `TypeError` on `null` or `undefined` before its own check.
- Records are values. The source's `markAsRead`, `markAllAsRead` and `updateLastContacted` set a field on a stored record object. Arrays that earlier `getAll`, `getUnread` or `getByType` calls returned share those objects, so they see the change too. In the model those earlier results keep their old values.
- A text field that is missing from a record reads as the empty string. `toLowerCase` folds only the ASCII letters. There is no Unicode case folding.
- `new Date(...)` objects are integers (milliseconds) or the caller's strings. Date parsing and formatting are not modelled.

## Findings

| source | as written | input that shows it | evidently intended | confidence | as-written member | corrected member |
|---|---|---|---|---|---|---|
| src/services/api/settingsService.js:169 | `updateSettings` (and `importSettings`, line 239) spreads the new section over the old one. For the users and branches lists, which are arrays, that merges index by index into an object. Entries the screen removed survive under their old index, and the section stops being an array. | the users section holds three users; the screen deletes the third and sends the two that remain | the list the screen sends replaces the section; the store methods keep the spread as written, and the corrected merge stands beside them | not executed | SettingsService.DeletedUserSurvivesUpdate | SettingsService.MergedListHasNoRemovedEntries |
| src/components/organisms/UserManagement.jsx:53-58 | the screens key users and branches by `Id`, but the seeded records (settingsService.js lines 37-97) carry a lowercase `id`. Every seeded `Id` is `undefined`, and `undefined === undefined`. | editing, deleting or switching off the first seeded user | the action affects only that user; a new user gets `Id` 4 | not executed | UserManagement.UnnumberedUsersMoveTogether | UserManagement.EditReplacesOnlyThatUser |
