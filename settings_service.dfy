/** The in-memory settings record: named sections (objects such as
    `general` and `security`, arrays such as `users` and `branches`) that
    `updateSettings` and `importSettings` spread new values over,
    `resetSettings` overwrites with built-in defaults, and
    `getSettingsSection` copies out; plus the canned integration test. */
module SettingsService {
  import opened Common

  // ------------------------------------------------------ object spread

  /** The own enumerable entries that `{ ...v }` copies: an object's fields,
      an array's elements under their index written in decimal, a string's
      characters likewise, and nothing for `null`, booleans and numbers. */
  function Entries(v: Value): map<string, Value> {
    match v
    case Obj(fields) => fields
    case Arr(items) => IndexEntries(items)
    case Str(s) => CharEntries(s)
    case _ => map[]
  }

  function IndexEntries(items: seq<Value>): map<string, Value>
    decreases |items|
  {
    if items == [] then map[]
    else IndexEntries(items[..|items| - 1])[NatToString(|items| - 1) := items[|items| - 1]]
  }

  function CharEntries(s: string): map<string, Value>
    decreases |s|
  {
    if s == [] then map[]
    else CharEntries(s[..|s| - 1])[NatToString(|s| - 1) := Str([s[|s| - 1]])]
  }

  /** Different indices are written differently. */
  lemma NatToStringInjective(i: nat, j: nat)
    ensures NatToString(i) == NatToString(j) ==> i == j
  {
    ParseUnsignedOfNatToString(i);
    ParseUnsignedOfNatToString(j);
  }

  /** `{ ...array }` holds element `i` under the key `String(i)`. */
  lemma {:induction false} IndexEntriesAt(items: seq<Value>, i: nat)
    requires i < |items|
    ensures NatToString(i) in IndexEntries(items)
    ensures IndexEntries(items)[NatToString(i)] == items[i]
    decreases |items|
  {
    var n := |items| - 1;
    if i < n {
      IndexEntriesAt(items[..n], i);
      NatToStringInjective(i, n);
    }
  }

  /** ... and under no key but those of its indices. */
  lemma {:induction false} IndexEntriesKeys(items: seq<Value>, i: nat)
    requires NatToString(i) in IndexEntries(items)
    ensures i < |items|
    decreases |items|
  {
    var n := |items| - 1;
    NatToStringInjective(i, n);
    if i != n {
      IndexEntriesKeys(items[..n], i);
    }
  }

  /** `{ ...current, ...update }` as written: the entries of both, those of
      `update` winning, always as an object. */
  function Spread(current: Value, update: Value): (r: Value)
    ensures r.Obj?
  {
    Obj(Entries(current) + Entries(update))
  }

  /** Merging objects keeps every field the update leaves out, takes every
      field it brings, and adds no other. */
  lemma SpreadMergesFields(current: map<string, Value>, update: map<string, Value>)
    ensures var r := Spread(Obj(current), Obj(update)).fields;
      && r.Keys == current.Keys + update.Keys
      && (forall k :: k in update ==> r[k] == update[k])
      && (forall k :: k in current && k !in update ==> r[k] == current[k])
  {
  }

  /** Merging a shorter array into an array section leaves the section an
      object that still holds the entries past the new array's end: a user
      removed from the list survives under its old index. */
  lemma SpreadKeepsRemovedEntries(xs: seq<Value>, ys: seq<Value>, i: nat)
    requires |ys| <= i < |xs|
    ensures var r := Spread(Arr(xs), Arr(ys));
      && r != Arr(ys)
      && NatToString(i) in r.fields && r.fields[NatToString(i)] == xs[i]
  {
    IndexEntriesAt(xs, i);
    if NatToString(i) in IndexEntries(ys) {
      IndexEntriesKeys(ys, i);
    }
  }

  /** Three users, the last one deleted on the users screen, and the third
      still in the section under the key "2" afterwards. */
  lemma DeletedUserSurvivesUpdate(a: Value, b: Value, c: Value)
    ensures var r := Spread(Arr([a, b, c]), Arr([a, b]));
      && r != Arr([a, b]) && "2" in r.fields && r.fields["2"] == c
  {
    SpreadKeepsRemovedEntries([a, b, c], [a, b], 2);
    assert NatToString(2) == "2";
  }

  /** The merge the screens evidently rely on: an array they send (the whole
      new user or branch list) replaces the section; anything else is
      spread over it as before. */
  function Merged(current: Value, update: Value): (r: Value)
    ensures update.Arr? ==> r == update
    ensures !update.Arr? ==> r == Spread(current, update)
  {
    if update.Arr? then update else Spread(current, update)
  }

  /** With the corrected merge, a list sent for `users` or `branches` is the
      section afterwards: it has an entry for exactly the indices of the new
      list, so a removed entry is gone. */
  lemma MergedListHasNoRemovedEntries(xs: seq<Value>, ys: seq<Value>)
    ensures forall i: nat :: NatToString(i) in Entries(Merged(Arr(xs), Arr(ys))) <==> i < |ys|
  {
    forall i: nat ensures NatToString(i) in Entries(Merged(Arr(xs), Arr(ys))) <==> i < |ys| {
      if i < |ys| {
        IndexEntriesAt(ys, i);
      } else if NatToString(i) in IndexEntries(ys) {
        IndexEntriesKeys(ys, i);
      }
    }
  }

  // ------------------------------------------------------------ defaults

  /** The defaults `resetSettings` knows: `general`, `notifications` and
      `security` only, each with fewer keys than the seeded section. */
  function Defaults(section: string): Option<Value> {
    if section == "general" then
      Some(Obj(map["systemName" := Str("FlowSync CRM"), "timezone" := Str("UTC"),
                   "autoAssignTasks" := Bool(false), "overdueNotifications" := Bool(true)]))
    else if section == "notifications" then
      Some(Obj(map[
        "email" := Obj(map["taskReminders" := Bool(true), "overdueAlerts" := Bool(true),
                           "workflowUpdates" := Bool(false), "systemAlerts" := Bool(true)]),
        "inApp" := Obj(map["newCustomers" := Bool(true), "taskUpdates" := Bool(true),
                           "workflowTriggers" := Bool(false), "systemMaintenance" := Bool(false)])]))
    else if section == "security" then
      Some(Obj(map["sessionTimeout" := Num(30), "maxLoginAttempts" := Num(3),
                   "requireTwoFactor" := Bool(true), "auditLogging" := Bool(true)]))
    else None
  }

  /** Exactly three sections can be reset, and their defaults are objects. */
  lemma DefaultsExistFor(section: string)
    ensures Defaults(section).Some? <==> section in {"general", "notifications", "security"}
    ensures Defaults(section).Some? ==> Defaults(section).value.Obj? && Truthy(Defaults(section).value)
  {
  }

  /** A reset is a replacement, not a merge: the seeded `sms` channel of
      `notifications` and the `dateFormat` of `general` are not in the defaults. */
  lemma DefaultsDropSeededKeys()
    ensures "sms" !in Defaults("notifications").value.fields
    ensures "dateFormat" !in Defaults("general").value.fields
  {
  }

  // -------------------------------------------------------- integrations

  datatype TestResult = TestResult(success: bool, message: string)

  /** `testIntegration`: the canned answer for each known provider, and a
      failure for any other. */
  function TestIntegration(provider: string): (r: TestResult)
    ensures r.success <==> provider == "email" || provider == "calendar"
    ensures provider !in {"email", "whatsapp", "calendar", "crm"} ==> r == TestResult(false, "Unknown provider")
  {
    if provider == "email" then TestResult(true, "Email server connection successful")
    else if provider == "whatsapp" then TestResult(false, "Invalid API key")
    else if provider == "calendar" then TestResult(true, "Calendar sync enabled")
    else if provider == "crm" then TestResult(false, "Connection timeout")
    else TestResult(false, "Unknown provider")
  }

  // ------------------------------------------------------ import / export

  /** `settingsData.settings`, `undefined` (falsy, as `Null` here) when absent. */
  function SettingsOf(data: Value): Value {
    if data.Obj? && "settings" in data.fields then data.fields["settings"] else Null
  }

  /** The sections after an import of `incoming`: every existing truthy
      section named in `incoming` has its entry spread over it; sections not
      named stay, and names that are not sections are ignored. */
  function Imported(current: map<string, Value>, incoming: map<string, Value>): (r: map<string, Value>)
    ensures r.Keys == current.Keys
  {
    map k | k in current :: if k in incoming && Truthy(current[k]) then Spread(current[k], incoming[k]) else current[k]
  }

  /** The import the screens evidently rely on: the corrected merge in
      place of the spread. */
  function IntendedImported(current: map<string, Value>, incoming: map<string, Value>): (r: map<string, Value>)
    ensures r.Keys == current.Keys
  {
    map k | k in current :: if k in incoming && Truthy(current[k]) then Merged(current[k], incoming[k]) else current[k]
  }

  /** `exportSettings`' payload, whose timestamp is supplied by the caller. */
  function Exported(sections: map<string, Value>, timestamp: string): Value {
    Obj(map["timestamp" := Str(timestamp), "version" := Str("1.0"), "settings" := Obj(sections)])
  }

  /** Importing what was just exported keeps every object section as it
      was, but turns every list section (`users`, `branches`) into an object
      keyed by index: the record does not survive its own round trip. */
  lemma ImportOfExportFlattensLists(sections: map<string, Value>, timestamp: string, k: string)
    requires k in sections
    ensures SettingsOf(Exported(sections, timestamp)) == Obj(sections)
    ensures sections[k].Obj? ==> Imported(sections, Entries(Obj(sections)))[k] == sections[k]
    ensures sections[k].Arr? ==> Imported(sections, Entries(Obj(sections)))[k] == Obj(IndexEntries(sections[k].items))
  {
    var v := sections[k];
    if v.Obj? {
      assert Entries(v) + Entries(v) == v.fields;
    } else if v.Arr? {
      assert Entries(v) + Entries(v) == IndexEntries(v.items);
    }
  }

  /** With the corrected merge, importing what was just exported changes
      nothing, provided every section is an object or an array (which every
      section of the record is, and stays). */
  lemma IntendedImportOfExportChangesNothing(sections: map<string, Value>, timestamp: string)
    requires forall k :: k in sections ==> sections[k].Obj? || sections[k].Arr?
    ensures SettingsOf(Exported(sections, timestamp)) == Obj(sections)
    ensures IntendedImported(sections, Entries(Obj(sections))) == sections
  {
    var r := IntendedImported(sections, sections);
    forall k | k in sections ensures r[k] == sections[k] {
      if sections[k].Obj? {
        assert Entries(sections[k]) + Entries(sections[k]) == sections[k].fields;
      }
    }
  }

  /** An import never adds a section, and a section it does not name, or
      one that is falsy, keeps its value. */
  lemma ImportTouchesOnlyNamedSections(current: map<string, Value>, incoming: map<string, Value>, k: string)
    requires k in current && (k !in incoming || !Truthy(current[k]))
    ensures Imported(current, incoming)[k] == current[k]
  {
  }

  class SettingsStore {
    var sections: map<string, Value>

    constructor (initial: map<string, Value>)
      ensures sections == initial
    {
      sections := initial;
    }

    /** `mockSettings[section]` is truthy. */
    predicate Has(section: string)
      reads this
    {
      section in sections && Truthy(sections[section])
    }

    /** `getSettingsSection`: a copy of the section's entries, or "Settings
        section not found". */
    method GetSettingsSection(section: string) returns (r: Result<Value>)
      ensures !Has(section) ==> r == Err("Settings section not found")
      ensures Has(section) ==> r.Ok? && r.value.Obj? && r.value.fields == Entries(sections[section])
    {
      if !(section in sections && Truthy(sections[section])) {
        r := Err("Settings section not found");
        return;
      }
      r := Ok(Obj(Entries(sections[section])));
    }

    /** `updateSettings`: spreads the new settings over an existing section
        (a list sent for `users` or `branches` is merged index by index) and
        leaves every other section as it was; an unknown section fails and
        changes nothing. */
    method UpdateSettings(section: string, newSettings: Value) returns (r: Result<Value>)
      modifies this
      ensures !old(Has(section)) ==> r == Err("Settings section not found") && sections == old(sections)
      ensures old(Has(section)) ==>
        && sections == old(sections)[section := Spread(old(sections)[section], newSettings)]
        && r == Ok(Obj(Entries(sections[section])))
    {
      if !(section in sections && Truthy(sections[section])) {
        r := Err("Settings section not found");
        return;
      }
      sections := sections[section := Spread(sections[section], newSettings)];
      r := Ok(Obj(Entries(sections[section])));
    }

    /** `resetSettings`: replaces `general`, `notifications` or `security`
        wholesale with its defaults; any other section fails and changes nothing. */
    method ResetSettings(section: string) returns (r: Result<Value>)
      modifies this
      ensures Defaults(section).None? ==> r == Err("Cannot reset this section") && sections == old(sections)
      ensures Defaults(section).Some? ==>
        && sections == old(sections)[section := Defaults(section).value]
        && r == Ok(Defaults(section).value)
    {
      var defaults := Defaults(section);
      if defaults.Some? {
        sections := sections[section := Obj(Entries(defaults.value))];
        r := Ok(Obj(Entries(sections[section])));
        return;
      }
      r := Err("Cannot reset this section");
    }

    /** `importSettings`: without a truthy `settings` field the import fails
        and changes nothing; otherwise every key of it that names an
        existing section is spread over that section, one key at a time. */
    method ImportSettings(settingsData: Value) returns (r: Result<string>)
      requires !settingsData.Null?
      modifies this
      ensures !Truthy(SettingsOf(settingsData)) ==> r == Err("Invalid settings format") && sections == old(sections)
      ensures Truthy(SettingsOf(settingsData)) ==>
        && r == Ok("Settings imported successfully")
        && sections == Imported(old(sections), Entries(SettingsOf(settingsData)))
    {
      var settings := SettingsOf(settingsData);
      if !Truthy(settings) {
        r := Err("Invalid settings format");
        return;
      }
      var incoming := Entries(settings);
      var todo := incoming.Keys;
      ghost var done: set<string> := {};
      while todo != {}
        invariant todo + done == incoming.Keys && todo !! done
        invariant sections.Keys == old(sections).Keys
        invariant forall k :: k in sections ==>
          sections[k] == (if k in done && Truthy(old(sections)[k]) then Spread(old(sections)[k], incoming[k]) else old(sections)[k])
        decreases |todo|
      {
        var section :| section in todo;
        if section in sections && Truthy(sections[section]) {
          sections := sections[section := Spread(sections[section], incoming[section])];
        }
        todo := todo - {section};
        done := done + {section};
      }
      r := Ok("Settings imported successfully");
    }
  }
}
