/** The workflow builder: a draft workflow whose ordered list of steps the user
    appends to, edits, removes from and reorders, and the save gate that decides
    whether the draft is handed on to be stored. */
module WorkflowBuilder {
  import opened Common
  import opened Lists

  /** A step's configuration payload: the four shapes the builder creates, or
      any other object (the `{}` of an unknown type, a configuration edited
      elsewhere, or the flat shape of the seeded workflows). */
  datatype Config =
    | DelayConfig(duration: int, unit: string)
    | EmailConfig(subject: string, template: string, variables: seq<string>)
    | WhatsappConfig(template: string, variables: seq<string>)
    | TaskConfig(title: string, description: string, assignTo: string)
    | Fields(fields: map<string, Value>)

  /** One step of a workflow. `id` is the clock reading taken when it was added. */
  datatype Step = Step(id: int, kind: string, name: string, config: Config)

  /** An entry of the builder's palette of step types. */
  datatype StepType = StepType(kind: string, name: string, icon: string, description: string, color: string)

  const StepTypes: seq<StepType> := [
    StepType("delay", "Wait/Delay", "Clock", "Wait for a specified time before next step", "from-slate-500 to-slate-600"),
    StepType("email", "Send Email", "Mail", "Send automated email to customer", "from-primary-500 to-primary-600"),
    StepType("whatsapp", "WhatsApp Message", "MessageCircle", "Send WhatsApp message to customer", "from-secondary-500 to-secondary-600"),
    StepType("task", "Create Task", "CheckSquare", "Create follow-up task for staff", "from-warning-500 to-warning-600")
  ]

  const Packages: seq<string> := ["Basic Package", "Premium Package", "Enterprise Package", "Custom Package"]

  /** The draft as the builder holds it and hands it to `onSave`. */
  datatype WorkflowData = WorkflowData(
    name: string, description: string, packageName: string, steps: seq<Step>, isActive: bool)

  /** The configuration a freshly added step of type `kind` starts with. */
  function DefaultConfig(kind: string): Config {
    match kind
    case "delay" => DelayConfig(1, "days")
    case "email" => EmailConfig("", "", [])
    case "whatsapp" => WhatsappConfig("", [])
    case "task" => TaskConfig("", "", "auto")
    case _ => Fields(map[])
  }

  /** The configuration shape that belongs to a step type; types outside the
      palette carry a free-form object. */
  predicate ShapeMatches(kind: string, c: Config) {
    match kind
    case "delay" => c.DelayConfig?
    case "email" => c.EmailConfig?
    case "whatsapp" => c.WhatsappConfig?
    case "task" => c.TaskConfig?
    case _ => c.Fields?
  }

  /** The defaults: one day of delay, empty email and WhatsApp templates with no
      variables, an untitled task assigned automatically, and `{}` otherwise. */
  lemma DefaultConfigTable(kind: string)
    ensures kind == "delay" ==> DefaultConfig(kind) == DelayConfig(1, "days")
    ensures kind == "email" ==> DefaultConfig(kind) == EmailConfig("", "", [])
    ensures kind == "whatsapp" ==> DefaultConfig(kind) == WhatsappConfig("", [])
    ensures kind == "task" ==> DefaultConfig(kind) == TaskConfig("", "", "auto")
    ensures kind !in {"delay", "email", "whatsapp", "task"} ==> DefaultConfig(kind) == Fields(map[])
  {
  }

  /** Every default has the shape its type calls for. */
  lemma DefaultConfigMatchesShape(kind: string)
    ensures ShapeMatches(kind, DefaultConfig(kind))
  {
  }

  /** The palette entry of a type, found as `stepTypes.find(s => s.type === kind)`. */
  function FindStepType(kind: string): (r: Option<StepType>)
    ensures r.Some? ==> r.value in StepTypes && r.value.kind == kind
    ensures r.None? ==> forall i :: 0 <= i < |StepTypes| ==> StepTypes[i].kind != kind
  {
    var k := FindIndex(StepTypes, (t: StepType) => t.kind == kind);
    if k == -1 then None else Some(StepTypes[k])
  }

  /** `getStepIcon`: the palette icon, or `Circle` for a type the palette lacks. */
  function StepIcon(kind: string): string {
    match FindStepType(kind)
    case Some(t) => if t.icon != "" then t.icon else "Circle"
    case None => "Circle"
  }

  /** `getStepColor`: the palette colour, or the slate gradient for a type the palette lacks. */
  function StepColor(kind: string): string {
    match FindStepType(kind)
    case Some(t) => if t.color != "" then t.color else "from-slate-500 to-slate-600"
    case None => "from-slate-500 to-slate-600"
  }

  /** Each palette type shows its own icon and colour; any other type (such as
      the seeded `sms`) shows the `Circle` icon on the slate gradient. */
  lemma StepIconAndColorLookup(kind: string)
    ensures forall i :: 0 <= i < |StepTypes| && StepTypes[i].kind == kind ==>
              StepIcon(kind) == StepTypes[i].icon && StepColor(kind) == StepTypes[i].color
    ensures (forall i :: 0 <= i < |StepTypes| ==> StepTypes[i].kind != kind) ==>
              StepIcon(kind) == "Circle" && StepColor(kind) == "from-slate-500 to-slate-600"
  {
    var r := FindStepType(kind);
    if r.Some? {
      forall i | 0 <= i < |StepTypes| && StepTypes[i].kind == kind
        ensures StepTypes[i] == r.value
      {
        assert r.value.kind == kind;
      }
    }
  }

  // ---------------------------------------------------------------- step list

  /** `steps.filter((_, index) => index !== i)`. */
  function DropIndex<T>(s: seq<T>, i: int): seq<T>
    decreases |s|
  {
    if s == [] then [] else (if i == 0 then [] else [s[0]]) + DropIndex(s[1..], i - 1)
  }

  /** Filtering out position `i` removes exactly that element when `i` is a
      position of the list, and removes nothing otherwise. */
  lemma {:induction false} DropIndexRemovesOnlyThatPosition<T>(s: seq<T>, i: int)
    ensures 0 <= i < |s| ==> DropIndex(s, i) == RemoveAt(s, i)
    ensures !(0 <= i < |s|) ==> DropIndex(s, i) == s
    decreases |s|
  {
    if s != [] {
      DropIndexRemovesOnlyThatPosition(s[1..], i - 1);
      if i == 0 {
        assert RemoveAt(s, 0) == s[1..];
      } else if 0 < i < |s| {
        assert RemoveAt(s, i) == [s[0]] + RemoveAt(s[1..], i - 1);
      } else {
        assert [s[0]] + s[1..] == s;
      }
    }
  }

  /** `steps.map((step, index) => index === i ? { ...step, config: c } : step)`. */
  function Reconfigured(s: seq<Step>, i: int, c: Config): (r: seq<Step>)
    ensures |r| == |s|
    ensures forall j :: 0 <= j < |s| && j != i ==> r[j] == s[j]
    ensures 0 <= i < |s| ==> r[i] == Step(s[i].id, s[i].kind, s[i].name, c)
  {
    seq(|s|, j requires 0 <= j < |s| => if j == i then s[j].(config := c) else s[j])
  }

  /** The two `splice` calls of `moveStep`: take the step out at `from`, put it back at `to`. */
  function Moved<T>(s: seq<T>, from: nat, to: nat): seq<T>
    requires from < |s| && to < |s|
  {
    InsertAt(RemoveAt(s, from), to, s[from])
  }

  /** Moving keeps the length and the elements (it is a permutation), puts the
      moved element at `to`, and leaves the others in their relative order. */
  lemma MovedIsPermutation<T>(s: seq<T>, from: nat, to: nat)
    requires from < |s| && to < |s|
    ensures |Moved(s, from, to)| == |s|
    ensures multiset(Moved(s, from, to)) == multiset(s)
    ensures Moved(s, from, to)[to] == s[from]
    ensures RemoveAt(Moved(s, from, to), to) == RemoveAt(s, from)
  {
    var rest := RemoveAt(s, from);
    assert s == s[..from] + [s[from]] + s[from + 1..];
    assert rest == s[..from] + s[from + 1..];
    calc {
      multiset(Moved(s, from, to));
      multiset(rest[..to] + [s[from]] + rest[to..]);
      multiset(rest[..to]) + multiset([s[from]]) + multiset(rest[to..]);
      { assert rest == rest[..to] + rest[to..]; }
      multiset(rest) + multiset([s[from]]);
      multiset(s[..from]) + multiset(s[from + 1..]) + multiset([s[from]]);
      multiset(s);
    }
    var m := Moved(s, from, to);
    assert m == rest[..to] + [s[from]] + rest[to..];
    assert RemoveAt(m, to) == rest[..to] + rest[to..];
    assert rest[..to] + rest[to..] == rest;
  }

  /** Moving a step back from `to` to `from` undoes the move. */
  lemma MoveBackRestores<T>(s: seq<T>, from: nat, to: nat)
    requires from < |s| && to < |s|
    ensures Moved(Moved(s, from, to), to, from) == s
  {
    MovedIsPermutation(s, from, to);
    var m := Moved(s, from, to);
    var rest := RemoveAt(s, from);
    assert Moved(m, to, from) == InsertAt(rest, from, s[from]);
    assert InsertAt(rest, from, s[from]) == s[..from] + [s[from]] + s[from + 1..];
    assert s[..from] + [s[from]] + s[from + 1..] == s;
  }

  /** "Move down" then "move up" of the same step restores the original order. */
  lemma MoveDownThenUpRestores<T>(s: seq<T>, i: nat)
    requires i + 1 < |s|
    ensures Moved(Moved(s, i, i + 1), i + 1, i) == s
  {
    MoveBackRestores(s, i, i + 1);
  }

  /** Moving a step one place down exchanges it with its successor. */
  lemma MoveDownSwapsNeighbours<T>(s: seq<T>, i: nat)
    requires i + 1 < |s|
    ensures Moved(s, i, i + 1) == s[..i] + [s[i + 1], s[i]] + s[i + 2..]
  {
    var rest := RemoveAt(s, i);
    assert rest[..i + 1] == s[..i] + [s[i + 1]];
    assert rest[i + 1..] == s[i + 2..];
  }

  /** Moving a step one place up exchanges it with its predecessor. */
  lemma MoveUpSwapsNeighbours<T>(s: seq<T>, i: nat)
    requires 0 < i < |s|
    ensures Moved(s, i, i - 1) == s[..i - 1] + [s[i], s[i - 1]] + s[i + 1..]
  {
    var rest := RemoveAt(s, i);
    assert rest[..i - 1] == s[..i - 1];
    assert rest[i - 1..] == [s[i - 1]] + s[i + 1..];
  }

  /** The step card at `index` offers "up" only below the first step and
      "down" only above the last. */
  predicate UpOffered(index: nat, count: nat) { 0 < index < count }
  predicate DownOffered(index: nat, count: nat) { index < count - 1 }

  /** Every move a step card offers has both indices inside the list, so it
      meets `MoveStep`'s precondition, and it swaps the step with its
      neighbour above or below. */
  lemma OfferedMovesStayInRange<T>(steps: seq<T>, index: nat)
    ensures UpOffered(index, |steps|) ==>
      && 0 <= index - 1 < index < |steps|
      && Moved(steps, index, index - 1) == steps[..index - 1] + [steps[index], steps[index - 1]] + steps[index + 1..]
    ensures DownOffered(index, |steps|) ==>
      && index < index + 1 < |steps|
      && Moved(steps, index, index + 1) == steps[..index] + [steps[index + 1], steps[index]] + steps[index + 2..]
  {
    if UpOffered(index, |steps|) {
      MoveUpSwapsNeighbours(steps, index);
    }
    if DownOffered(index, |steps|) {
      MoveDownSwapsNeighbours(steps, index);
    }
  }

  // ---------------------------------------------------------------- save gate

  datatype SaveError = NameRequired | PackageRequired | StepsRequired

  /** The toast each failed check shows. */
  function SaveErrorMessage(e: SaveError): string {
    match e
    case NameRequired => "Workflow name is required"
    case PackageRequired => "Package selection is required"
    case StepsRequired => "At least one step is required"
  }

  /** `handleSave`'s three checks in order; the first that fails decides. */
  function SaveGate(d: WorkflowData): Option<SaveError> {
    if Trim(d.name) == "" then Some(NameRequired)
    else if d.packageName == "" then Some(PackageRequired)
    else if |d.steps| == 0 then Some(StepsRequired)
    else None
  }

  /** The draft passes exactly when its name is not blank, a package is chosen
      and there is at least one step; otherwise the earliest failing check is
      the one reported, whatever the later fields hold. */
  lemma SaveGateDecides(d: WorkflowData)
    ensures SaveGate(d).None? <==> !IsBlank(d.name) && d.packageName != "" && |d.steps| > 0
    ensures IsBlank(d.name) ==> SaveGate(d) == Some(NameRequired)
    ensures !IsBlank(d.name) && d.packageName == "" ==> SaveGate(d) == Some(PackageRequired)
    ensures !IsBlank(d.name) && d.packageName != "" && d.steps == [] ==> SaveGate(d) == Some(StepsRequired)
  {
    TrimEmptyIffBlank(d.name);
  }

  // ---------------------------------------------------------------- the draft

  /** The builder component's state. */
  class Builder {
    var draft: WorkflowData
    var selectedStep: Option<int>
    var showStepModal: bool

    /** A new workflow starts empty and active. */
    constructor ()
      ensures draft == WorkflowData("", "", "", [], true)
      ensures selectedStep == None && !showStepModal
    {
      draft := WorkflowData("", "", "", [], true);
      selectedStep := None;
      showStepModal := false;
    }

    /** Loading a stored workflow: a missing name, description or package becomes
        `''`, missing steps become `[]`, and `isActive` becomes `true` only when it
        is missing (`?? true`), so a stored `false` is kept. */
    method Load(name: Option<string>, description: Option<string>, packageName: Option<string>,
                steps: Option<seq<Step>>, isActive: Option<bool>)
      modifies this`draft
      ensures draft.name == (if name.Some? then name.value else "")
      ensures draft.description == (if description.Some? then description.value else "")
      ensures draft.packageName == (if packageName.Some? then packageName.value else "")
      ensures draft.steps == (if steps.Some? then steps.value else [])
      ensures draft.isActive == (isActive != Some(false))
    {
      draft := WorkflowData(
        if name.Some? && name.value != "" then name.value else "",
        if description.Some? && description.value != "" then description.value else "",
        if packageName.Some? && packageName.value != "" then packageName.value else "",
        if steps.Some? then steps.value else [],
        if isActive.Some? then isActive.value else true);
    }

    method SetName(v: string)
      modifies this`draft
      ensures draft == old(draft).(name := v)
    {
      draft := draft.(name := v);
    }

    method SetDescription(v: string)
      modifies this`draft
      ensures draft == old(draft).(description := v)
    {
      draft := draft.(description := v);
    }

    method SetPackage(v: string)
      modifies this`draft
      ensures draft == old(draft).(packageName := v)
    {
      draft := draft.(packageName := v);
    }

    method ToggleActive()
      modifies this`draft
      ensures draft == old(draft).(isActive := !old(draft).isActive)
    {
      draft := draft.(isActive := !draft.isActive);
    }

    /** `addStep`: one new step at the end, of the chosen type, named after it,
        with that type's default configuration; `now` is the clock reading that
        becomes its id (two steps added within one millisecond share it). */
    method AddStep(t: StepType, now: int)
      modifies this`draft
      ensures |draft.steps| == |old(draft.steps)| + 1
      ensures draft.steps[..|old(draft.steps)|] == old(draft.steps)
      ensures draft.steps[|draft.steps| - 1] == Step(now, t.kind, t.name, DefaultConfig(t.kind))
      ensures ShapeMatches(t.kind, draft.steps[|draft.steps| - 1].config)
      ensures draft == old(draft).(steps := draft.steps)
    {
      var step := Step(now, t.kind, t.name, DefaultConfig(t.kind));
      DefaultConfigMatchesShape(t.kind);
      draft := draft.(steps := draft.steps + [step]);
    }

    /** `editStep`: remember which step is being edited and open its dialog. */
    method EditStep(index: int)
      modifies this`selectedStep, this`showStepModal
      ensures selectedStep == Some(index) && showStepModal
    {
      selectedStep := Some(index);
      showStepModal := true;
    }

    /** `updateStep`: only the configuration of step `index` changes; the other
        steps, that step's id, type and name, and the length stay. An index
        outside the list changes no step. The dialog closes. */
    method UpdateStep(index: int, c: Config)
      modifies this`draft, this`showStepModal
      ensures draft.steps == Reconfigured(old(draft.steps), index, c)
      ensures draft == old(draft).(steps := draft.steps)
      ensures !showStepModal
    {
      draft := draft.(steps := Reconfigured(draft.steps, index, c));
      showStepModal := false;
    }

    /** `removeStep`: the step at `index` leaves and the others keep their order;
        an index outside the list leaves the steps as they were. */
    method RemoveStep(index: int)
      modifies this`draft
      ensures 0 <= index < |old(draft.steps)| ==> draft.steps == RemoveAt(old(draft.steps), index)
      ensures !(0 <= index < |old(draft.steps)|) ==> draft.steps == old(draft.steps)
      ensures draft == old(draft).(steps := draft.steps)
    {
      DropIndexRemovesOnlyThatPosition(draft.steps, index);
      draft := draft.(steps := DropIndex(draft.steps, index));
    }

    /** `moveStep`: copy the list, splice the step out at `from` and back in at
        `to`. The card's arrows only ever ask for positions inside the list. */
    method MoveStep(from: nat, to: nat)
      requires from < |draft.steps| && to < |draft.steps|
      modifies this`draft
      ensures draft.steps == Moved(old(draft.steps), from, to)
      ensures multiset(draft.steps) == multiset(old(draft.steps))
      ensures draft.steps[to] == old(draft.steps)[from]
      ensures draft == old(draft).(steps := draft.steps)
    {
      var copy := draft.steps;
      var moving := copy[from];
      copy := RemoveAt(copy, from);
      copy := InsertAt(copy, to, moving);
      MovedIsPermutation(draft.steps, from, to);
      draft := draft.(steps := copy);
    }

    /** `handleSave`: the draft is handed on only when all three checks pass;
        otherwise the message of the first failing check is shown. */
    method HandleSave() returns (r: Result<WorkflowData>)
      ensures r.Ok? <==> !IsBlank(draft.name) && draft.packageName != "" && |draft.steps| > 0
      ensures r.Ok? ==> r.value == draft
      ensures IsBlank(draft.name) ==> r == Err("Workflow name is required")
      ensures !IsBlank(draft.name) && draft.packageName == "" ==> r == Err("Package selection is required")
      ensures !IsBlank(draft.name) && draft.packageName != "" && draft.steps == [] ==> r == Err("At least one step is required")
    {
      SaveGateDecides(draft);
      match SaveGate(draft)
      case Some(e) => r := Err(SaveErrorMessage(e));
      case None => r := Ok(draft);
    }
  }
}
