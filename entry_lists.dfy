/** The list edits shared by the user and branch screens of the settings
    page: allocating `Math.max(0, ...ids) + 1`, replacing the entries whose
    `Id` is strictly equal to the edited one, appending, and removing by `Id`.
    An `Id` is read as JavaScript reads a record's `Id` field, which may be
    missing. */
module EntryLists {
  import opened Lists

  /** A record's `Id` field: a number, `undefined` when the record has no
      such field, or `NaN` once arithmetic has met `undefined`. */
  datatype IdField = Missing | Known(n: int) | NotANumber

  /** `a === b`: `undefined` equals itself, `NaN` equals nothing. */
  predicate StrictEq(a: IdField, b: IdField) {
    match a
    case Missing => b.Missing?
    case Known(x) => b.Known? && b.n == x
    case NotANumber => false
  }

  predicate AllKnown(ids: seq<IdField>) {
    forall i :: 0 <= i < |ids| ==> ids[i].Known?
  }

  function Numbers(ids: seq<IdField>): (r: seq<int>)
    requires AllKnown(ids)
    ensures |r| == |ids| && forall i :: 0 <= i < |ids| ==> r[i] == ids[i].n
  {
    if ids == [] then [] else [ids[0].n] + Numbers(ids[1..])
  }

  /** `Math.max(0, ...ids) + 1`: one more than the largest `Id` and at least
      1; `NaN` as soon as one `Id` is missing or not a number. */
  function NextId(ids: seq<IdField>): (r: IdField)
    ensures AllKnown(ids) ==> r.Known? && r.n >= 1 && forall i :: 0 <= i < |ids| ==> ids[i].n < r.n
    ensures AllKnown(ids) ==> r.n == 1 || exists i :: 0 <= i < |ids| && r.n == ids[i].n + 1
    ensures ids == [] ==> r == Known(1)
    ensures !AllKnown(ids) ==> r == NotANumber
  {
    if AllKnown(ids) then
      var m := MaxFrom(0, Numbers(ids));
      Known(m + 1)
    else NotANumber
  }

  /** `xs.map(x => x.Id === id ? entry : x)`. */
  function Replaced<T>(xs: seq<T>, idOf: T -> IdField, id: IdField, entry: T): (r: seq<T>)
    ensures |r| == |xs|
    ensures forall i :: 0 <= i < |xs| ==> r[i] == if StrictEq(idOf(xs[i]), id) then entry else xs[i]
  {
    MapWhere(xs, (x: T) => StrictEq(idOf(x), id), (_: T) => entry)
  }

  /** `xs.filter(x => x.Id !== id)`. */
  function Without<T>(xs: seq<T>, idOf: T -> IdField, id: IdField): (r: seq<T>)
    ensures Selects(r, xs, (x: T) => !StrictEq(idOf(x), id))
  {
    FilterSelects(xs, (x: T) => !StrictEq(idOf(x), id));
    Filter(xs, (x: T) => !StrictEq(idOf(x), id))
  }

  /** Every entry carries its own numeric `Id`. */
  predicate Numbered<T>(xs: seq<T>, idOf: T -> IdField) {
    && (forall i :: 0 <= i < |xs| ==> idOf(xs[i]).Known?)
    && (forall i, j :: 0 <= i < j < |xs| ==> idOf(xs[i]) != idOf(xs[j]))
  }

  /** With distinct numeric `Id`s, saving an edit of entry `j` under its own
      `Id` replaces that entry and no other. */
  lemma EditReplacesOnlyThatEntry<T>(xs: seq<T>, idOf: T -> IdField, j: nat, entry: T)
    requires Numbered(xs, idOf) && j < |xs|
    ensures Replaced(xs, idOf, idOf(xs[j]), entry) == xs[j := entry]
  {
    var r := Replaced(xs, idOf, idOf(xs[j]), entry);
    forall i | 0 <= i < |xs| ensures r[i] == xs[j := entry][i] {
      if i != j {
        if i < j {
          assert idOf(xs[i]) != idOf(xs[j]);
        } else {
          assert idOf(xs[j]) != idOf(xs[i]);
        }
      }
    }
  }

  /** With distinct numeric `Id`s, removing by the `Id` of entry `j` drops
      that entry and keeps the others in order. */
  lemma DeleteRemovesOnlyThatEntry<T>(xs: seq<T>, idOf: T -> IdField, j: nat)
    requires Numbered(xs, idOf) && j < |xs|
    ensures Without(xs, idOf, idOf(xs[j])) == xs[..j] + xs[j + 1..]
  {
    var p := (x: T) => !StrictEq(idOf(x), idOf(xs[j]));
    var front, back := xs[..j], xs[j + 1..];
    assert xs == (front + [xs[j]]) + back;
    forall i | 0 <= i < |front| ensures p(front[i]) {
      assert front[i] == xs[i] && idOf(xs[i]) != idOf(xs[j]);
    }
    forall i | 0 <= i < |back| ensures p(back[i]) {
      assert back[i] == xs[j + 1 + i] && idOf(xs[j]) != idOf(xs[j + 1 + i]);
    }
    FilterKeepsAll(front, p);
    FilterKeepsAll(back, p);
    FilterOne(xs[j], p);
    FilterConcat(front, [xs[j]], p);
    FilterConcat(front + [xs[j]], back, p);
    assert Filter(xs, p) == front + back;
  }

  /** Records without an `Id` field all compare equal under `===`: saving an
      edit of any of them overwrites every one of them. */
  lemma EditOfUnnumberedReplacesAll<T>(xs: seq<T>, idOf: T -> IdField, entry: T)
    requires forall i :: 0 <= i < |xs| ==> idOf(xs[i]) == Missing
    ensures forall i :: 0 <= i < |xs| ==> Replaced(xs, idOf, Missing, entry)[i] == entry
  {
  }

  /** ... and removing any of them removes them all. */
  lemma DeleteOfUnnumberedRemovesAll<T>(xs: seq<T>, idOf: T -> IdField)
    requires forall i :: 0 <= i < |xs| ==> idOf(xs[i]) == Missing
    ensures Without(xs, idOf, Missing) == []
  {
    FilterKeepsNone(xs, (x: T) => !StrictEq(idOf(x), Missing));
  }
}
