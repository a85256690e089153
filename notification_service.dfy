/** The in-memory notification repository: a module-level list that
    `create` prepends to, `markAsRead` and `markAllAsRead` flag in place,
    `delete` and `clearOld` splice from, and that `getAll` reads newest first,
    one page at a time. */
module NotificationService {
  import opened Common
  import opened Lists

  /** A notification. `kind` is the source's `type`; `createdAt` is a
      timestamp in milliseconds. */
  datatype Notification = Notification(
    id: int,
    title: string,
    message: string,
    kind: string,
    isRead: bool,
    createdAt: int,
    priority: string,
    actionUrl: Option<string>)

  /** What a caller hands to `create`; an `Id` it brings overrides the
      generated one, a missing or empty priority becomes "medium". */
  datatype NotificationInput = NotificationInput(
    id: Option<int>,
    title: string,
    message: string,
    kind: string,
    priority: Option<string>,
    actionUrl: Option<string>)

  // ------------------------------------------------------ newest-first order

  /** No notification is newer than one before it. */
  predicate NewestFirstOrder(s: seq<Notification>) {
    forall i, j :: 0 <= i < j < |s| ==> s[i].createdAt >= s[j].createdAt
  }

  /** Puts `x` in front of the first notification that is not newer than it,
      so that `x` stays ahead of the ones with its own timestamp. */
  function Insert(x: Notification, r: seq<Notification>): seq<Notification> {
    if r == [] || r[0].createdAt <= x.createdAt then [x] + r
    else [r[0]] + Insert(x, r[1..])
  }

  /** `[...s].sort((a, b) => b.createdAt - a.createdAt)` with JavaScript's
      stable sort: newest first, ties in their list order. */
  function NewestFirst(s: seq<Notification>): seq<Notification> {
    if s == [] then [] else Insert(s[0], NewestFirst(s[1..]))
  }

  lemma {:induction false} InsertKeepsNotifications(x: Notification, r: seq<Notification>)
    ensures multiset(Insert(x, r)) == multiset(r) + multiset{x}
  {
    if r != [] && r[0].createdAt > x.createdAt {
      InsertKeepsNotifications(x, r[1..]);
      assert r == [r[0]] + r[1..];
    }
  }

  /** A bound on every timestamp survives an insertion under it. */
  lemma {:induction false} InsertBounded(x: Notification, r: seq<Notification>, v: int)
    requires x.createdAt <= v && forall k :: 0 <= k < |r| ==> r[k].createdAt <= v
    ensures forall k :: 0 <= k < |Insert(x, r)| ==> Insert(x, r)[k].createdAt <= v
  {
    if r != [] && r[0].createdAt > x.createdAt {
      InsertBounded(x, r[1..], v);
    }
  }

  lemma {:induction false} InsertKeepsOrder(x: Notification, r: seq<Notification>)
    requires NewestFirstOrder(r)
    ensures NewestFirstOrder(Insert(x, r))
  {
    if r != [] && r[0].createdAt > x.createdAt {
      var tail := Insert(x, r[1..]);
      assert NewestFirstOrder(r[1..]);
      InsertKeepsOrder(x, r[1..]);
      InsertBounded(x, r[1..], r[0].createdAt);
      var res := [r[0]] + tail;
      assert res == Insert(x, r);
      forall i, j | 0 <= i < j < |res| ensures res[i].createdAt >= res[j].createdAt {
        assert res[j] == tail[j - 1];
        if i > 0 {
          assert res[i] == tail[i - 1];
        }
      }
    }
  }

  /** `getAll`'s order is newest first and holds the same notifications. */
  lemma {:induction false} NewestFirstIsSortedPermutation(s: seq<Notification>)
    ensures NewestFirstOrder(NewestFirst(s))
    ensures multiset(NewestFirst(s)) == multiset(s)
  {
    if s != [] {
      NewestFirstIsSortedPermutation(s[1..]);
      InsertKeepsOrder(s[0], NewestFirst(s[1..]));
      InsertKeepsNotifications(s[0], NewestFirst(s[1..]));
      assert s == [s[0]] + s[1..];
    }
  }

  /** The notifications created at `t`, in their order. */
  function CreatedAt(s: seq<Notification>, t: int): seq<Notification> {
    if s == [] then [] else (if s[0].createdAt == t then [s[0]] else []) + CreatedAt(s[1..], t)
  }

  /** Inserting `x` puts it ahead of every notification of its own timestamp. */
  lemma {:induction false} InsertIsStable(x: Notification, r: seq<Notification>, t: int)
    ensures CreatedAt(Insert(x, r), t) ==
      if x.createdAt == t then [x] + CreatedAt(r, t) else CreatedAt(r, t)
  {
    if r == [] || r[0].createdAt <= x.createdAt {
      assert ([x] + r)[1..] == r;
    } else {
      InsertIsStable(x, r[1..], t);
      assert ([r[0]] + Insert(x, r[1..]))[1..] == Insert(x, r[1..]);
    }
  }

  /** The sort is stable: the notifications of any one timestamp come out in
      their list order. */
  lemma {:induction false} NewestFirstIsStable(s: seq<Notification>, t: int)
    ensures CreatedAt(NewestFirst(s), t) == CreatedAt(s, t)
  {
    if s != [] {
      NewestFirstIsStable(s[1..], t);
      InsertIsStable(s[0], NewestFirst(s[1..]), t);
    }
  }

  /** `getAll`'s default page: the first 50 notifications. */
  const DefaultLimit: nat := 50
  const DefaultOffset: nat := 0

  /** `s.slice(offset, offset + limit)` for non-negative arguments. */
  function Page<T>(s: seq<T>, offset: nat, limit: nat): (r: seq<T>)
    ensures |r| <= limit
    ensures |r| == if offset >= |s| then 0 else if offset + limit <= |s| then limit else |s| - offset
    ensures forall i :: 0 <= i < |r| ==> r[i] == s[offset + i]
  {
    if offset >= |s| then []
    else if offset + limit <= |s| then s[offset..offset + limit]
    else s[offset..]
  }

  /** A page of `getAll` is in newest-first order, holds only stored
      notifications, and with the default offset and a limit no smaller
      than the list it holds all of them. */
  lemma PageOfNewestFirst(s: seq<Notification>, offset: nat, limit: nat)
    ensures var r := Page(NewestFirst(s), offset, limit);
      && NewestFirstOrder(r)
      && (forall i :: 0 <= i < |r| ==> r[i] in s)
      && (offset == 0 && |s| <= limit ==> multiset(r) == multiset(s))
  {
    var sorted := NewestFirst(s);
    NewestFirstIsSortedPermutation(s);
    var r := Page(sorted, offset, limit);
    forall i | 0 <= i < |r| ensures r[i] in s {
      assert r[i] == sorted[offset + i];
      assert sorted[offset + i] in multiset(sorted);
    }
    forall i, j | 0 <= i < j < |r| ensures r[i].createdAt >= r[j].createdAt {
      assert r[i] == sorted[offset + i] && r[j] == sorted[offset + j];
    }
    if offset == 0 && |s| <= limit {
      assert |sorted| == |s| by {
        assert |multiset(sorted)| == |multiset(s)|;
      }
      assert r == sorted;
    }
  }

  // ------------------------------------------------------------- lookups

  /** `findIndex(n => n.Id === parseInt(id))`. */
  function IndexParsed(ns: seq<Notification>, id: JsId): (k: int)
    ensures -1 <= k < |ns|
    ensures 0 <= k ==> ParseIntArg(id) == Some(ns[k].id)
    ensures k == -1 <==> forall j :: 0 <= j < |ns| ==> ParseIntArg(id) != Some(ns[j].id)
    ensures 0 <= k ==> forall j :: 0 <= j < k ==> ParseIntArg(id) != Some(ns[j].id)
  {
    match ParseIntArg(id)
    case None => -1
    case Some(n) => FindIndex(ns, (x: Notification) => x.id == n)
  }

  /** `Math.max(...notifications.map(n => n.Id))` on a non-empty list. */
  function MaxId(ns: seq<Notification>): (m: int)
    requires |ns| > 0
    ensures forall i :: 0 <= i < |ns| ==> ns[i].id <= m
    ensures exists i :: 0 <= i < |ns| && ns[i].id == m
  {
    var rest := Project(ns[1..], (n: Notification) => n.id);
    var m := MaxFrom(ns[0].id, rest);
    assert forall j :: 0 <= j < |rest| ==> rest[j] == ns[j + 1].id;
    m
  }

  function Unread(): Notification -> bool {
    (n: Notification) => !n.isRead
  }

  function Read(): Notification -> bool {
    (n: Notification) => n.isRead
  }

  function KindIs(kind: string): Notification -> bool {
    (n: Notification) => n.kind == kind
  }

  /** `n.isRead = true` on every notification. */
  function AllRead(s: seq<Notification>): (r: seq<Notification>)
    ensures |r| == |s|
    ensures forall i :: 0 <= i < |s| ==> r[i] == s[i].(isRead := true)
  {
    Project(s, (n: Notification) => n.(isRead := true))
  }

  /** After `markAllAsRead` nothing is unread, and no notification was
      added, dropped or otherwise changed. */
  lemma AllReadLeavesNoneUnread(s: seq<Notification>)
    ensures Count(AllRead(s), Unread()) == 0
    ensures forall i :: 0 <= i < |s| ==> AllRead(s)[i].id == s[i].id && AllRead(s)[i].createdAt == s[i].createdAt
  {
    FilterKeepsNone(AllRead(s), Unread());
  }

  // ---------------------------------------------------------- statistics

  /** The `byType` object of `getStats`, as its entries in insertion order:
      a type enters when it is first met. */
  type Tally = seq<(string, nat)>

  function KindsOf(t: Tally): seq<string> {
    if t == [] then [] else [t[0].0] + KindsOf(t[1..])
  }

  /** `byType[kind] || 0`. */
  function Lookup(t: Tally, kind: string): nat {
    if t == [] then 0 else if t[0].0 == kind then t[0].1 else Lookup(t[1..], kind)
  }

  /** The sum of all counts. */
  function Total(t: Tally): nat {
    if t == [] then 0 else t[0].1 + Total(t[1..])
  }

  /** `acc[kind] = (acc[kind] || 0) + 1`. */
  function Bump(t: Tally, kind: string): Tally {
    if t == [] then [(kind, 1)]
    else if t[0].0 == kind then [(kind, t[0].1 + 1)] + t[1..]
    else [t[0]] + Bump(t[1..], kind)
  }

  /** The `reduce` of `getStats`, one notification at a time. */
  function TallyFrom(acc: Tally, s: seq<Notification>): Tally
    decreases |s|
  {
    if s == [] then acc else TallyFrom(Bump(acc, s[0].kind), s[1..])
  }

  /** One increment adds one to the counted kind, to nothing else, and to the sum. */
  lemma {:induction false} BumpCounts(t: Tally, kind: string, k: string)
    ensures Lookup(Bump(t, kind), k) == Lookup(t, k) + (if k == kind then 1 else 0)
    ensures k in KindsOf(Bump(t, kind)) <==> k in KindsOf(t) || k == kind
    ensures Total(Bump(t, kind)) == Total(t) + 1
  {
    if t != [] && t[0].0 != kind {
      BumpCounts(t[1..], kind, k);
    }
  }

  /** The tally counts every type exactly as often as it occurs, lists
      exactly the types that occur, and its counts add up to the number of
      notifications. */
  lemma {:induction false} TallyCounts(acc: Tally, s: seq<Notification>, k: string)
    ensures Lookup(TallyFrom(acc, s), k) == Lookup(acc, k) + Count(s, KindIs(k))
    ensures k in KindsOf(TallyFrom(acc, s)) <==> k in KindsOf(acc) || Count(s, KindIs(k)) > 0
    ensures Total(TallyFrom(acc, s)) == Total(acc) + |s|
    decreases |s|
  {
    if s != [] {
      BumpCounts(acc, s[0].kind, k);
      TallyCounts(Bump(acc, s[0].kind), s[1..], k);
    }
  }

  /** `getStats`' answer. */
  datatype Stats = Stats(total: nat, unread: nat, read: int, byType: Tally)

  /** Read and unread notifications make up the whole list. */
  lemma ReadPlusUnread(s: seq<Notification>)
    ensures Count(s, Read()) + Count(s, Unread()) == |s|
  {
    FilterComplementSizes(s, Read(), Unread());
  }

  // ------------------------------------------------------------ clearOld

  /** `!(new Date(n.createdAt) < cutoff)`: what `clearOld` keeps. */
  function NotOlderThan(cutoff: int): Notification -> bool {
    (n: Notification) => n.createdAt >= cutoff
  }

  function OlderThan(cutoff: int): Notification -> bool {
    (n: Notification) => n.createdAt < cutoff
  }

  /** `clearOld`'s default age: 30 days. */
  const DefaultDaysOld: int := 30

  /** `Date.now() - daysOld * 24 * 60 * 60 * 1000`. */
  function Cutoff(now: int, daysOld: int): int {
    now - daysOld * 86400000
  }

  /** `clearOld` keeps exactly the notifications not older than the cutoff,
      in their order, and the removed count is the number of older ones. */
  lemma ClearOldKeepsRecent(s: seq<Notification>, cutoff: int)
    ensures Selects(Filter(s, NotOlderThan(cutoff)), s, NotOlderThan(cutoff))
    ensures |s| - |Filter(s, NotOlderThan(cutoff))| == Count(s, OlderThan(cutoff))
  {
    FilterSelects(s, NotOlderThan(cutoff));
    FilterComplementSizes(s, NotOlderThan(cutoff), OlderThan(cutoff));
  }

  /** Filtering a suffix examines its first element, then the rest. */
  lemma FilterFrom(s: seq<Notification>, i: nat, p: Notification -> bool)
    requires i < |s|
    ensures Filter(s[i..], p) == (if p(s[i]) then [s[i]] else []) + Filter(s[i + 1..], p)
  {
    assert s[i..] == [s[i]] + s[i + 1..];
    FilterConcat([s[i]], s[i + 1..], p);
    FilterOne(s[i], p);
  }

  /** One step of `clearOld`'s backward walk, whatever follows position `i`:
      the list holds `s[i]` there, and keeping or splicing it out leaves the
      list with `s[i]` or nothing between the prefix and that tail. */
  lemma ClearStep(s: seq<Notification>, i: nat, rest: seq<Notification>)
    requires i < |s|
    ensures var w := s[..i + 1] + rest;
      && |w| > i && w[i] == s[i]
      && w == s[..i] + ([s[i]] + rest)
      && w[..i] + w[i + 1..] == s[..i] + rest
  {
    var w := s[..i + 1] + rest;
    assert s[..i + 1] == s[..i] + [s[i]];
    assert w[..i] == s[..i];
    assert w[i + 1..] == rest;
  }

  class NotificationStore {
    var notifications: seq<Notification>

    constructor (initial: seq<Notification>)
      ensures notifications == initial
    {
      notifications := initial;
    }

    /** `getAll(limit = 50, offset = 0)`: the page starting at `offset` of at
        most `limit` notifications, newest first; the list itself is
        untouched. `None` is an omitted argument, so a call without
        arguments sees at most the 50 newest. */
    method GetAll(limit: Option<nat>, offset: Option<nat>) returns (r: seq<Notification>)
      ensures r == Page(NewestFirst(notifications), OrDefault(offset, DefaultOffset), OrDefault(limit, DefaultLimit))
      ensures |r| <= OrDefault(limit, DefaultLimit) && NewestFirstOrder(r)
      ensures forall i :: 0 <= i < |r| ==> r[i] in notifications
      ensures limit.None? ==> |r| <= 50
      ensures OrDefault(offset, DefaultOffset) == 0 && |notifications| <= OrDefault(limit, DefaultLimit) ==>
        multiset(r) == multiset(notifications)
    {
      var l := if limit.Some? then limit.value else DefaultLimit;
      var o := if offset.Some? then offset.value else DefaultOffset;
      r := Page(NewestFirst(notifications), o, l);
      PageOfNewestFirst(notifications, o, l);
    }

    /** `getUnread`: exactly the unread notifications, in list order. */
    method GetUnread() returns (r: seq<Notification>)
      ensures Selects(r, notifications, Unread())
    {
      r := Filter(notifications, Unread());
      FilterSelects(notifications, Unread());
    }

    /** `getById`: the first notification whose `Id` equals `parseInt(id)`, or
        "Notification not found". */
    method GetById(id: JsId) returns (r: Result<Notification>)
      ensures r.Ok? <==> exists i :: 0 <= i < |notifications| && ParseIntArg(id) == Some(notifications[i].id)
      ensures r.Ok? ==> r.value in notifications && ParseIntArg(id) == Some(r.value.id)
      ensures r.Ok? ==> exists k :: 0 <= k < |notifications| && notifications[k] == r.value &&
                                    forall j :: 0 <= j < k ==> Some(notifications[j].id) != ParseIntArg(id)
      ensures r.Err? ==> r.message == "Notification not found"
    {
      var k := IndexParsed(notifications, id);
      if k == -1 {
        r := Err("Notification not found");
      } else {
        r := Ok(notifications[k]);
      }
    }

    /** `markAsRead`: flags the first notification with that `Id` as read and
        changes nothing else; an unknown id fails and changes nothing. */
    method MarkAsRead(id: JsId) returns (r: Result<Notification>)
      modifies this
      ensures var k := IndexParsed(old(notifications), id);
        && (k == -1 ==> r == Err("Notification not found") && notifications == old(notifications))
        && (k != -1 ==> r == Ok(old(notifications)[k].(isRead := true)) && notifications == old(notifications)[k := r.value])
    {
      var k := IndexParsed(notifications, id);
      if k == -1 {
        r := Err("Notification not found");
        return;
      }
      notifications := notifications[k := notifications[k].(isRead := true)];
      r := Ok(notifications[k]);
    }

    /** `markAllAsRead`: flags every notification as read, one at a time, and
        reports how many there are. */
    method MarkAllAsRead() returns (markedCount: nat)
      modifies this
      ensures notifications == AllRead(old(notifications))
      ensures markedCount == |notifications|
    {
      var i := 0;
      while i < |notifications|
        invariant 0 <= i <= |notifications| == |old(notifications)|
        invariant forall j :: 0 <= j < i ==> notifications[j] == old(notifications)[j].(isRead := true)
        invariant forall j :: i <= j < |notifications| ==> notifications[j] == old(notifications)[j]
      {
        notifications := notifications[i := notifications[i].(isRead := true)];
        i := i + 1;
      }
      markedCount := |notifications|;
    }

    /** `delete`: removes the first notification with that `Id`; an unknown
        id fails and changes nothing. */
    method Delete(id: JsId) returns (r: Result<bool>)
      modifies this
      ensures var k := IndexParsed(old(notifications), id);
        && (k == -1 ==> r == Err("Notification not found") && notifications == old(notifications))
        && (k != -1 ==> r == Ok(true) && notifications == RemoveAt(old(notifications), k))
    {
      var k := IndexParsed(notifications, id);
      if k == -1 {
        r := Err("Notification not found");
        return;
      }
      notifications := RemoveAt(notifications, k);
      r := Ok(true);
    }

    /** `create`: puts an unread notification created `now` at the front,
        under `Id = max + 1` unless the input brings its own `Id`, with
        "medium" for a missing or empty priority. */
    method Create(input: NotificationInput, now: int) returns (n: Notification)
      requires input.id.None? ==> |notifications| > 0
      modifies this
      ensures notifications == [n] + old(notifications)
      ensures input.id.None? ==> n.id == MaxId(old(notifications)) + 1
      ensures input.id.None? ==> forall i :: 0 <= i < |old(notifications)| ==> old(notifications)[i].id < n.id
      ensures input.id.Some? ==> n.id == input.id.value
      ensures !n.isRead && n.createdAt == now
      ensures n.priority == if input.priority.Some? && input.priority.value != "" then input.priority.value else "medium"
      ensures n.title == input.title && n.message == input.message && n.kind == input.kind && n.actionUrl == input.actionUrl
      ensures IndexParsed(notifications, Number(n.id)) == 0
    {
      var newId := if input.id.Some? then input.id.value else MaxId(notifications) + 1;
      var priority := if input.priority.Some? && input.priority.value != "" then input.priority.value else "medium";
      n := Notification(newId, input.title, input.message, input.kind, false, now, priority, input.actionUrl);
      notifications := [n] + notifications;
      ParseIntArgOfNumber(n.id);
    }

    /** `getByType`: exactly the notifications of that type, in list order. */
    method GetByType(kind: string) returns (r: seq<Notification>)
      ensures Selects(r, notifications, KindIs(kind))
    {
      r := Filter(notifications, KindIs(kind));
      FilterSelects(notifications, KindIs(kind));
    }

    /** `getStats`: the total, the unread and read counts, which add up to
        the total, and how many notifications there are of each type, which
        add up to the total as well. */
    method GetStats() returns (s: Stats)
      ensures s.total == |notifications|
      ensures s.unread == Count(notifications, Unread())
      ensures s.read == Count(notifications, Read()) && s.read + s.unread == s.total
      ensures Total(s.byType) == s.total
      ensures forall k :: k in KindsOf(s.byType) <==> Count(notifications, KindIs(k)) > 0
      ensures forall k :: Lookup(s.byType, k) == Count(notifications, KindIs(k))
    {
      var total := |notifications|;
      var unread := Count(notifications, Unread());
      var byType := TallyFrom([], notifications);
      forall k ensures Lookup(byType, k) == Count(notifications, KindIs(k))
        && (k in KindsOf(byType) <==> Count(notifications, KindIs(k)) > 0)
      {
        TallyCounts([], notifications, k);
      }
      TallyCounts([], notifications, "");
      ReadPlusUnread(notifications);
      s := Stats(total, unread, total - unread, byType);
    }

    /** `clearOld(daysOld = 30)`: walks the list from the back, splicing out
        every notification created before `now - daysOld` days, and reports
        how many went. `None` is an omitted argument: 30 days. */
    method ClearOld(now: int, daysOld: Option<int>) returns (removedCount: int)
      modifies this
      ensures notifications == Filter(old(notifications), NotOlderThan(Cutoff(now, OrDefault(daysOld, DefaultDaysOld))))
      ensures removedCount == |old(notifications)| - |notifications|
                          == Count(old(notifications), OlderThan(Cutoff(now, OrDefault(daysOld, DefaultDaysOld))))
      ensures daysOld.None? ==> notifications == Filter(old(notifications), NotOlderThan(now - 2592000000))
    {
      var days := if daysOld.Some? then daysOld.value else DefaultDaysOld;
      var cutoff := Cutoff(now, days);
      var initialCount := |notifications|;
      ghost var s := notifications;
      var i := |notifications|;
      assert s[i..] == [];
      while i > 0
        invariant 0 <= i <= |s|
        invariant notifications == s[..i] + Filter(s[i..], NotOlderThan(cutoff))
      {
        i := i - 1;
        FilterFrom(s, i, NotOlderThan(cutoff));
        ClearStep(s, i, Filter(s[i + 1..], NotOlderThan(cutoff)));
        if notifications[i].createdAt < cutoff {
          notifications := notifications[..i] + notifications[i + 1..];
        }
      }
      assert s[0..] == s;
      removedCount := initialCount - |notifications|;
      ClearOldKeepsRecent(s, cutoff);
    }
  }

  /** A notification just created is the one `getById`, `markAsRead` and
      `delete` find under its `Id`, whichever form the `Id` is passed in. */
  lemma CreatedIsFoundFirst(n: Notification, ns: seq<Notification>)
    ensures IndexParsed([n] + ns, Number(n.id)) == 0
    ensures IndexParsed([n] + ns, Text(IntToString(n.id))) == 0
  {
    ParseIntArgOfNumber(n.id);
    ParseIntOfIntToString(n.id);
  }

  /** The per-type counts of `getStats` are the sizes of `getByType`'s answers. */
  lemma StatsAgreeWithGetByType(ns: seq<Notification>, k: string)
    ensures Lookup(TallyFrom([], ns), k) == |Filter(ns, KindIs(k))|
  {
    TallyCounts([], ns, k);
  }
}
