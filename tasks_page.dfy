/** The Tasks page: search, status and type filters over the loaded tasks, the
    status-rank sort (overdue, then pending, then completed), the summary
    counts, and completing a task through the repository. The page's `tasks`
    and `filteredTasks` are arrays because the sort works in place: with no
    filter active the page sorts its own `tasks` array and shows that very array. */
module TasksPage {
  import opened Common
  import opened Lists
  import opened TaskService

  // ------------------------------------------------------------ status rank

  predicate KnownStatus(t: Task) {
    t.status == "overdue" || t.status == "pending" || t.status == "completed"
  }

  predicate AllKnown(s: seq<Task>) {
    forall i :: 0 <= i < |s| ==> KnownStatus(s[i])
  }

  /** `statusOrder[t.status]` for a known status. */
  function Rank(t: Task): nat {
    if t.status == "overdue" then 0 else if t.status == "pending" then 1 else 2
  }

  predicate RankSorted(s: seq<Task>) {
    forall i, j :: 0 <= i < j < |s| ==> Rank(s[i]) <= Rank(s[j])
  }

  /** The tasks of one status, in list order: `s.filter(t => t.status === st)`. */
  function Group(s: seq<Task>, st: string): seq<Task> {
    if s == [] then [] else (if s[0].status == st then [s[0]] else []) + Group(s[1..], st)
  }

  lemma {:induction false} GroupIsFilter(s: seq<Task>, st: string)
    ensures Group(s, st) == Filter(s, StatusIs(st))
  {
    if s != [] {
      GroupIsFilter(s[1..], st);
    }
  }

  /** The order the page shows: the overdue tasks, then the pending ones, then
      the completed ones, each group in list order. */
  function ByRank(s: seq<Task>): seq<Task> {
    Group(s, "overdue") + Group(s, "pending") + Group(s, "completed")
  }

  /** Two lists hold the same tasks of each status in the same order. */
  predicate SameGroups(a: seq<Task>, b: seq<Task>) {
    && Group(a, "overdue") == Group(b, "overdue")
    && Group(a, "pending") == Group(b, "pending")
    && Group(a, "completed") == Group(b, "completed")
  }

  lemma GroupsAreFilters(s: seq<Task>)
    ensures Group(s, "overdue") == Filter(s, StatusIs("overdue"))
    ensures Group(s, "pending") == Filter(s, StatusIs("pending"))
    ensures Group(s, "completed") == Filter(s, StatusIs("completed"))
  {
    GroupIsFilter(s, "overdue");
    GroupIsFilter(s, "pending");
    GroupIsFilter(s, "completed");
  }

  /** Every overdue task precedes every pending one, which precedes every completed one. */
  lemma ByRankIsSorted(s: seq<Task>)
    ensures RankSorted(ByRank(s))
  {
    GroupsAreFilters(s);
    var o, p, c := Filter(s, StatusIs("overdue")), Filter(s, StatusIs("pending")), Filter(s, StatusIs("completed"));
    var b := ByRank(s);
    assert forall i :: 0 <= i < |b| ==>
      Rank(b[i]) == (if i < |o| then 0 else if i < |o| + |p| then 1 else 2) by {
      forall i | 0 <= i < |b|
        ensures Rank(b[i]) == (if i < |o| then 0 else if i < |o| + |p| then 1 else 2)
      {
        if i < |o| { assert b[i] == o[i]; }
        else if i < |o| + |p| { assert b[i] == p[i - |o|]; }
        else { assert b[i] == c[i - |o| - |p|]; }
      }
    }
  }

  /** With every status known, the groups together hold exactly the list's tasks. */
  lemma {:induction false} ByRankIsPermutation(s: seq<Task>)
    requires AllKnown(s)
    ensures multiset(ByRank(s)) == multiset(s)
  {
    if s != [] {
      ByRankIsPermutation(s[1..]);
      assert s == [s[0]] + s[1..];
    }
  }

  /** Grouping keeps the tasks of each status in their original relative order. */
  lemma ByRankIsStable(s: seq<Task>, st: string)
    requires st == "overdue" || st == "pending" || st == "completed"
    ensures Group(ByRank(s), st) == Group(s, st)
  {
    var o, p, c := Group(s, "overdue"), Group(s, "pending"), Group(s, "completed");
    GroupConcat(o + p, c, st);
    GroupConcat(o, p, st);
    GroupTwice(s, st, "overdue");
    GroupTwice(s, st, "pending");
    GroupTwice(s, st, "completed");
  }

  /** Grouping a group again keeps it when the statuses agree and empties it
      otherwise. */
  lemma {:induction false} GroupTwice(s: seq<Task>, st: string, st': string)
    ensures Group(Group(s, st'), st) == if st == st' then Group(s, st) else []
  {
    if s != [] {
      GroupTwice(s[1..], st, st');
      var head := if s[0].status == st' then [s[0]] else [];
      GroupConcat(head, Group(s[1..], st'), st);
      if s[0].status == st' {
        GroupFront(s[0], [], st);
        assert [s[0]] + [] == [s[0]];
      }
    }
  }

  /** Sorting an already sorted list changes nothing. */
  lemma ByRankIsIdempotent(s: seq<Task>)
    ensures ByRank(ByRank(s)) == ByRank(s)
  {
    ByRankIsStable(s, "overdue");
    ByRankIsStable(s, "pending");
    ByRankIsStable(s, "completed");
  }

  /** Grouping a list with a known first element. */
  lemma GroupFront(x: Task, r: seq<Task>, st: string)
    ensures Group([x] + r, st) == (if x.status == st then [x] else []) + Group(r, st)
  {
    assert ([x] + r)[1..] == r;
  }

  /** No task of that status, no group. */
  lemma {:induction false} GroupEmpty(r: seq<Task>, st: string)
    requires forall i :: 0 <= i < |r| ==> r[i].status != st
    ensures Group(r, st) == []
  {
    if r != [] {
      GroupEmpty(r[1..], st);
    }
  }

  /** A rank-sorted list with known statuses is already grouped. */
  lemma {:induction false} SortedIsByRank(s: seq<Task>)
    requires AllKnown(s) && RankSorted(s)
    ensures ByRank(s) == s
  {
    if s != [] {
      var x, r := s[0], s[1..];
      assert s == [x] + r;
      assert AllKnown(r) && RankSorted(r) by {
        forall i, j | 0 <= i < j < |r| ensures Rank(r[i]) <= Rank(r[j]) {
          assert r[i] == s[i + 1] && r[j] == s[j + 1];
        }
      }
      assert forall i :: 0 <= i < |r| ==> Rank(x) <= Rank(r[i]) by {
        forall i | 0 <= i < |r| ensures Rank(x) <= Rank(r[i]) {
          assert r[i] == s[i + 1];
        }
      }
      SortedIsByRank(r);
      GroupCons(x, r);
    }
  }

  /** A task in front of a list whose ranks are no smaller than its own joins
      the head of the grouped list. */
  lemma GroupCons(x: Task, r: seq<Task>)
    requires KnownStatus(x)
    requires forall i :: 0 <= i < |r| ==> Rank(x) <= Rank(r[i])
    ensures ByRank([x] + r) == [x] + ByRank(r)
  {
    if x.status == "overdue" {
      GroupConsOverdue(x, r);
    } else if x.status == "pending" {
      GroupConsPending(x, r);
    } else {
      GroupConsCompleted(x, r);
    }
  }

  lemma GroupConsOverdue(x: Task, r: seq<Task>)
    requires x.status == "overdue"
    ensures ByRank([x] + r) == [x] + ByRank(r)
  {
    GroupFront(x, r, "overdue");
    GroupFront(x, r, "pending");
    GroupFront(x, r, "completed");
    Reassociate([x], Group(r, "overdue"), Group(r, "pending"), Group(r, "completed"));
  }

  lemma GroupConsPending(x: Task, r: seq<Task>)
    requires x.status == "pending"
    requires forall i :: 0 <= i < |r| ==> r[i].status != "overdue"
    ensures ByRank([x] + r) == [x] + ByRank(r)
  {
    GroupFront(x, r, "overdue");
    GroupFront(x, r, "pending");
    GroupFront(x, r, "completed");
    GroupEmpty(r, "overdue");
    Reassociate([x], Group(r, "overdue"), Group(r, "pending"), Group(r, "completed"));
  }

  lemma GroupConsCompleted(x: Task, r: seq<Task>)
    requires x.status == "completed"
    requires forall i :: 0 <= i < |r| ==> r[i].status != "overdue" && r[i].status != "pending"
    ensures ByRank([x] + r) == [x] + ByRank(r)
  {
    GroupFront(x, r, "overdue");
    GroupFront(x, r, "pending");
    GroupFront(x, r, "completed");
    GroupEmpty(r, "overdue");
    GroupEmpty(r, "pending");
    Reassociate([x], Group(r, "overdue"), Group(r, "pending"), Group(r, "completed"));
  }

  lemma Reassociate(h: seq<Task>, fo: seq<Task>, fp: seq<Task>, fc: seq<Task>)
    ensures (h + fo) + fp + fc == h + (fo + fp + fc)
    ensures fo == [] ==> fo + (h + fp) + fc == h + (fo + fp + fc)
    ensures fo == [] && fp == [] ==> fo + fp + (h + fc) == h + (fo + fp + fc)
  {
  }

  lemma {:induction false} GroupConcat(a: seq<Task>, b: seq<Task>, st: string)
    ensures Group(a + b, st) == Group(a, st) + Group(b, st)
  {
    if a == [] {
      assert a + b == b;
    } else {
      GroupConcat(a[1..], b, st);
      GroupFront(a[0], a[1..] + b, st);
      assert a + b == [a[0]] + (a[1..] + b);
    }
  }

  /** The group of a two-task list. */
  lemma GroupPair(x: Task, y: Task, st: string)
    ensures Group([x, y], st) == (if x.status == st then [x] else []) + (if y.status == st then [y] else [])
  {
    GroupFront(x, [y], st);
    GroupFront(y, [], st);
    assert [x, y] == [x] + [y] && [y] == [y] + [];
  }

  /** Two neighbours that are not both of status `st` can change places
      without changing the group of `st`. */
  lemma SwapKeepsGroup(a: seq<Task>, x: Task, y: Task, b: seq<Task>, st: string)
    requires !(x.status == st && y.status == st)
    ensures Group(a + [x, y] + b, st) == Group(a + [y, x] + b, st)
  {
    GroupPair(x, y, st);
    GroupPair(y, x, st);
    assert Group([x, y], st) == Group([y, x], st);
    GroupConcat(a + [x, y], b, st);
    GroupConcat(a, [x, y], st);
    GroupConcat(a + [y, x], b, st);
    GroupConcat(a, [y, x], st);
  }

  /** Exchanging two neighbours of different status keeps every status group. */
  lemma SwapKeepsGroups(s: seq<Task>, j: nat)
    requires j + 1 < |s| && s[j].status != s[j + 1].status
    ensures SameGroups(s[j := s[j + 1]][j + 1 := s[j]], s)
  {
    var a, x, y, b := s[..j], s[j], s[j + 1], s[j + 2..];
    assert s == a + [x, y] + b;
    assert s[j := y][j + 1 := x] == a + [y, x] + b;
    SwapKeepsGroup(a, x, y, b, "overdue");
    SwapKeepsGroup(a, x, y, b, "pending");
    SwapKeepsGroup(a, x, y, b, "completed");
  }

  /** `filtered.sort((a, b) => statusOrder[a.status] - statusOrder[b.status])`:
      a stable sort in place, by insertion with neighbour exchanges. */
  method SortByStatusRank(a: array<Task>)
    requires AllKnown(a[..])
    modifies a
    ensures a[..] == ByRank(old(a[..]))
  {
    var i := 0;
    while i < a.Length
      invariant 0 <= i <= a.Length
      invariant AllKnown(a[..])
      invariant SameGroups(a[..], old(a[..]))
      invariant forall k, l :: 0 <= k < l < i ==> Rank(a[k]) <= Rank(a[l])
    {
      SinkInto(a, i);
      i := i + 1;
    }
    SortedIsByRank(a[..]);
  }

  /** One insertion step: `a[i]` moves down past every earlier task of
      strictly greater rank, so `a[..i + 1]` ends up rank-sorted. */
  method SinkInto(a: array<Task>, i: nat)
    requires i < a.Length && AllKnown(a[..])
    requires forall k, l :: 0 <= k < l < i ==> Rank(a[k]) <= Rank(a[l])
    modifies a
    ensures AllKnown(a[..]) && SameGroups(a[..], old(a[..]))
    ensures forall k, l :: 0 <= k < l <= i ==> Rank(a[k]) <= Rank(a[l])
  {
    var j := i;
    while j > 0 && Rank(a[j - 1]) > Rank(a[j])
      invariant 0 <= j <= i
      invariant AllKnown(a[..])
      invariant SameGroups(a[..], old(a[..]))
      invariant SortedExcept(a[..], i, j) && BelowRest(a[..], i, j)
    {
      ghost var before := a[..];
      a[j - 1], a[j] := a[j], a[j - 1];
      assert a[..] == before[j - 1 := before[j]][j := before[j - 1]];
      SinkStep(before, i, j);
      j := j - 1;
    }
    SinkDone(a[..], i, j);
  }

  /** Apart from position `j`, the prefix `s[..i + 1]` is rank-sorted. */
  predicate SortedExcept(s: seq<Task>, i: nat, j: nat)
    requires i < |s|
  {
    forall k, l :: 0 <= k < l <= i && k != j && l != j ==> Rank(s[k]) <= Rank(s[l])
  }

  /** The task at `j` ranks strictly below every task after it up to `i`. */
  predicate BelowRest(s: seq<Task>, i: nat, j: nat)
    requires j <= i < |s|
  {
    forall l :: j < l <= i ==> Rank(s[j]) < Rank(s[l])
  }

  lemma SinkStep(s: seq<Task>, i: nat, j: nat)
    requires 0 < j <= i < |s| && AllKnown(s)
    requires SortedExcept(s, i, j) && BelowRest(s, i, j) && Rank(s[j - 1]) > Rank(s[j])
    ensures var t := s[j - 1 := s[j]][j := s[j - 1]];
      AllKnown(t) && SameGroups(t, s) && SortedExcept(t, i, j - 1) && BelowRest(t, i, j - 1)
  {
    SwapKeepsGroups(s, j - 1);
    SinkStepOrder(s, i, j);
  }

  lemma SinkStepOrder(s: seq<Task>, i: nat, j: nat)
    requires 0 < j <= i < |s|
    requires SortedExcept(s, i, j) && BelowRest(s, i, j) && Rank(s[j - 1]) > Rank(s[j])
    ensures var t := s[j - 1 := s[j]][j := s[j - 1]];
      SortedExcept(t, i, j - 1) && BelowRest(t, i, j - 1)
  {
  }

  lemma SinkDone(s: seq<Task>, i: nat, j: nat)
    requires j <= i < |s|
    requires SortedExcept(s, i, j) && BelowRest(s, i, j)
    requires j == 0 || Rank(s[j - 1]) <= Rank(s[j])
    ensures forall k, l :: 0 <= k < l <= i ==> Rank(s[k]) <= Rank(s[l])
  {
  }

  // ---------------------------------------------------------------- filters

  /** The search box: the lower-cased query occurs in the lower-cased customer
      name or description. */
  function QueryMatches(query: string): Task -> bool {
    (t: Task) => Contains(Lower(t.customerName), Lower(query)) || Contains(Lower(t.description), Lower(query))
  }

  function KindIs(kind: string): Task -> bool {
    (t: Task) => t.kind == kind
  }

  /** The filters as `filterTasks` applies them, one after the other, each only
      when it is set. */
  function Visible(ts: seq<Task>, query: string, statusFilter: string, typeFilter: string): seq<Task> {
    var s1 := if query != "" then Filter(ts, QueryMatches(query)) else ts;
    var s2 := if statusFilter != "all" then Filter(s1, StatusIs(statusFilter)) else s1;
    if typeFilter != "all" then Filter(s2, KindIs(typeFilter)) else s2
  }

  /** The three conditions a shown task meets together. */
  function Shown(query: string, statusFilter: string, typeFilter: string): Task -> bool {
    (t: Task) =>
      && (query == "" || QueryMatches(query)(t))
      && (statusFilter == "all" || t.status == statusFilter)
      && (typeFilter == "all" || t.kind == typeFilter)
  }

  /** A task is shown iff it meets all three conditions, and the shown tasks
      keep their list order. */
  lemma VisibleSelectsShown(ts: seq<Task>, query: string, statusFilter: string, typeFilter: string)
    ensures Visible(ts, query, statusFilter, typeFilter) == Filter(ts, Shown(query, statusFilter, typeFilter))
    ensures Selects(Visible(ts, query, statusFilter, typeFilter), ts, Shown(query, statusFilter, typeFilter))
  {
    var q := (t: Task) => query == "" || QueryMatches(query)(t);
    var qs := (t: Task) => q(t) && (statusFilter == "all" || t.status == statusFilter);
    var s1 := if query != "" then Filter(ts, QueryMatches(query)) else ts;
    if query != "" {
      FilterFilter(ts, (t: Task) => true, QueryMatches(query), q);
      FilterKeepsAll(ts, (t: Task) => true);
    } else {
      FilterKeepsAll(ts, q);
    }
    assert s1 == Filter(ts, q);
    var s2 := if statusFilter != "all" then Filter(s1, StatusIs(statusFilter)) else s1;
    if statusFilter != "all" {
      FilterFilter(ts, q, StatusIs(statusFilter), qs);
    } else {
      FilterFilter(ts, q, (t: Task) => true, qs);
      FilterKeepsAll(s1, (t: Task) => true);
    }
    assert s2 == Filter(ts, qs);
    if typeFilter != "all" {
      FilterFilter(ts, qs, KindIs(typeFilter), Shown(query, statusFilter, typeFilter));
    } else {
      FilterFilter(ts, qs, (t: Task) => true, Shown(query, statusFilter, typeFilter));
      FilterKeepsAll(s2, (t: Task) => true);
    }
    FilterSelects(ts, Shown(query, statusFilter, typeFilter));
  }

  lemma FilterKeepsKnown(s: seq<Task>, p: Task -> bool)
    requires AllKnown(s)
    ensures AllKnown(Filter(s, p))
  {
    var r := Filter(s, p);
    forall i | 0 <= i < |r| ensures KnownStatus(r[i]) {
      assert r[i] in s;
    }
  }

  /** Filtering only drops tasks, so every shown status is still known. */
  lemma VisibleKeepsKnown(ts: seq<Task>, query: string, statusFilter: string, typeFilter: string)
    requires AllKnown(ts)
    ensures AllKnown(Visible(ts, query, statusFilter, typeFilter))
  {
    FilterKeepsKnown(ts, QueryMatches(query));
    var s1 := if query != "" then Filter(ts, QueryMatches(query)) else ts;
    FilterKeepsKnown(s1, StatusIs(statusFilter));
    var s2 := if statusFilter != "all" then Filter(s1, StatusIs(statusFilter)) else s1;
    FilterKeepsKnown(s2, KindIs(typeFilter));
  }

  /** With an empty query and both filters on "all", every task is shown. */
  lemma VisibleWithoutFilters(ts: seq<Task>)
    ensures Visible(ts, "", "all", "all") == ts
  {
  }

  // ----------------------------------------------------------------- counts

  datatype TaskCounts = TaskCounts(total: nat, pending: nat, overdue: nat, completed: nat)

  /** `getTaskCounts`. */
  function Counts(ts: seq<Task>): TaskCounts {
    TaskCounts(|ts|, Count(ts, StatusIs("pending")), Count(ts, StatusIs("overdue")), Count(ts, StatusIs("completed")))
  }

  /** With every status known, the three figures add up to the total. */
  lemma {:induction false} CountsAddUp(ts: seq<Task>)
    requires AllKnown(ts)
    ensures var c := Counts(ts); c.pending + c.overdue + c.completed == c.total
  {
    if ts != [] {
      CountsAddUp(ts[1..]);
    }
  }

  /** The shown order does not change any figure. */
  lemma CountsOfByRank(ts: seq<Task>)
    requires AllKnown(ts)
    ensures Counts(ByRank(ts)) == Counts(ts)
  {
    ByRankIsPermutation(ts);
    assert |ByRank(ts)| == |multiset(ByRank(ts))| == |multiset(ts)| == |ts|;
    ByRankIsStable(ts, "overdue");
    ByRankIsStable(ts, "pending");
    ByRankIsStable(ts, "completed");
    GroupsAreFilters(ts);
    GroupsAreFilters(ByRank(ts));
  }

  /** `prev.map(t => t.Id === taskId ? completed : t)`. */
  function ReplacedById(ts: seq<Task>, taskId: int, replacement: Task): seq<Task> {
    MapWhere(ts, (t: Task) => t.id == taskId, (_: Task) => replacement)
  }

  function AnyFilter(query: string, statusFilter: string, typeFilter: string): bool {
    query != "" || statusFilter != "all" || typeFilter != "all"
  }

  class Page {
    var tasks: array<Task>
    var filteredTasks: array<Task>
    var searchQuery: string
    var statusFilter: string
    var typeFilter: string
    var showModal: bool

    constructor (loaded: seq<Task>)
      ensures fresh(tasks) && tasks[..] == loaded && filteredTasks[..] == []
      ensures searchQuery == "" && statusFilter == "all" && typeFilter == "all" && !showModal
    {
      tasks := new Task[|loaded|](i requires 0 <= i < |loaded| => loaded[i]);
      filteredTasks := new Task[0];
      searchQuery, statusFilter, typeFilter := "", "all", "all";
      showModal := false;
    }

    /** `filterTasks`: with a filter set, a fresh array of the shown tasks is
        sorted and shown, and `tasks` is untouched; with none set, `tasks`
        itself is sorted in place and becomes the shown array. */
    method FilterTasks()
      requires AllKnown(tasks[..])
      modifies this`filteredTasks, tasks
      ensures AnyFilter(searchQuery, statusFilter, typeFilter) ==>
        && fresh(filteredTasks)
        && tasks[..] == old(tasks[..])
        && filteredTasks[..] == ByRank(Visible(old(tasks[..]), searchQuery, statusFilter, typeFilter))
      ensures !AnyFilter(searchQuery, statusFilter, typeFilter) ==>
        filteredTasks == tasks && tasks[..] == ByRank(old(tasks[..]))
    {
      if AnyFilter(searchQuery, statusFilter, typeFilter) {
        var s := Visible(tasks[..], searchQuery, statusFilter, typeFilter);
        VisibleKeepsKnown(tasks[..], searchQuery, statusFilter, typeFilter);
        var filtered := new Task[|s|](i requires 0 <= i < |s| => s[i]);
        assert filtered[..] == s;
        SortByStatusRank(filtered);
        filteredTasks := filtered;
      } else {
        SortByStatusRank(tasks);
        filteredTasks := tasks;
      }
    }

    /** `handleCompleteTask`: on success the tasks with that `Id` are replaced by
        the completed one (in a new array) and the modal closes; on failure
        nothing changes. */
    method HandleCompleteTask(store: TaskStore, taskId: int, notes: string, now: int)
      modifies this, store
      ensures filteredTasks == old(filteredTasks)
      ensures var k := IndexStrict(old(store.tasks), Number(taskId));
        if k == -1 then
          tasks == old(tasks) && showModal == old(showModal) && store.tasks == old(store.tasks)
        else
          var done := Completed(old(store.tasks)[k], notes, now);
          && fresh(tasks)
          && tasks[..] == ReplacedById(old(tasks[..]), taskId, done)
          && store.tasks == old(store.tasks)[k := done]
          && !showModal
    {
      var r := store.Complete(Number(taskId), notes, now);
      if r.Ok? {
        var s := ReplacedById(tasks[..], taskId, r.value);
        tasks := new Task[|s|](i requires 0 <= i < |s| => s[i]);
        showModal := false;
      }
    }
  }
}
