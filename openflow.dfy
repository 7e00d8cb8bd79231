/** The render context of the open-source flow (`Openflow._make_prepare`):
    the project data flattened into one map from placeholder to value. */
module Openflow {
  import opened Wrappers
  import opened Errors
  import opened Strings
  import opened ProjectData
  import PartInfo

  /** A context value: a string, the number 1 of a requested step, or the
      `None` of an unresolved family. */
  datatype Value = Text(text: string) | Number(number: int) | Null

  /** The context handed to the script writer and the command that runs it. */
  datatype Prepared = Prepared(context: map<string, Value>, command: string)

  const DEFAULT_PART := "hx8k-ct256"
  const COMMAND := "bash openflow.sh"
  const BASE_KEYS: set<string> := {"PROJECT", "FAMILY", "DEVICE", "PACKAGE"}

  /** `self.name or 'openflow'`: a missing or empty name falls back. */
  function ProjectName(name: Option<string>): string {
    if name.Some? && name.value != "" then name.value else "openflow"
  }

  function PartOf(data: Data): string {
    if data.part.Some? then data.part.value else DEFAULT_PART
  }

  function FamilyValue(family: Option<string>): Value {
    if family.Some? then Text(family.value) else Null
  }

  function IncludeFlags(paths: seq<string>): seq<string> {
    seq(|paths|, i requires 0 <= i < |paths| => "-I" + paths[i])
  }

  function ReadCommands(files: seq<string>): seq<string> {
    seq(|files|, i requires 0 <= i < |files| => "read_verilog -defer " + files[i])
  }

  function DefineFlags(defines: seq<(string, string)>): seq<string> {
    seq(|defines|, i requires 0 <= i < |defines| => "-D" + defines[i].0 + "=" + defines[i].1)
  }

  function ParamFlags(params: seq<(string, string)>): seq<string> {
    seq(|params|, i requires 0 <= i < |params| => "-set " + params[i].0 + " " + params[i].1)
  }

  /** One assignment `context[key] = value` of `_make_prepare`; `None` stands
      for an assignment the source skips because its section is absent. */
  type Entry = (string, Option<Value>)

  /** The entries applied to `m` in order; a later entry for a key overwrites
      an earlier one. */
  function Assign(m: map<string, Value>, entries: seq<Entry>): map<string, Value>
    decreases |entries|
  {
    if entries == [] then m
    else
      var last := entries[|entries| - 1];
      var before := Assign(m, entries[..|entries| - 1]);
      if last.1.Some? then before[last.0 := last.1.value] else before
  }

  /** The keys that entries assign. */
  function Assigned(entries: seq<Entry>): set<string> {
    set e | e in entries && e.1.Some? :: e.0
  }

  function BaseEntries(name: Option<string>, info: PartInfo.Info): map<string, Value> {
    map["PROJECT" := Text(ProjectName(name)), "FAMILY" := FamilyValue(info.family),
        "DEVICE" := Text(info.device), "PACKAGE" := Text(info.package)]
  }

  /** Each requested step set to 1, in order. */
  function StepEntries(steps: seq<string>): seq<Entry> {
    seq(|steps|, i requires 0 <= i < |steps| => (steps[i], Some(Number(1))))
  }

  function IncludesValue(data: Data): Option<Value> {
    if data.includes.Some? then Some(Text(Join(IncludeFlags(data.includes.value), " "))) else None
  }

  /** The Verilog reads appear only when there is at least one file. */
  function VlogsValue(data: Data): Option<Value> {
    if data.files.Some? && data.files.value != []
    then Some(Text(Join(ReadCommands(data.files.value), "\n"))) else None
  }

  function ConstraintsValue(data: Data): Option<Value> {
    if data.constraints.Some? then Some(Text(Join(data.constraints.value, " "))) else None
  }

  function TopValue(data: Data): Option<Value> {
    if data.top.Some? then Some(Text(data.top.value)) else None
  }

  function DefinesValue(data: Data): Option<Value> {
    if data.defines.Some? then Some(Text(Join(DefineFlags(data.defines.value), " "))) else None
  }

  function ParamsValue(data: Data): Option<Value> {
    if data.params.Some? then Some(Text(Join(ParamFlags(data.params.value), " "))) else None
  }

  /** The section entries in the source's order: first those naming files,
      then the top level and its settings. */
  function SectionEntries(data: Data): seq<Entry> {
    FileEntries(data) + SettingEntries(data)
  }

  function FileEntries(data: Data): seq<Entry> {
    [("INCLUDES", IncludesValue(data)), ("VLOGS", VlogsValue(data)),
     ("CONSTRAINTS", ConstraintsValue(data))]
  }

  function SettingEntries(data: Data): seq<Entry> {
    [("TOP", TopValue(data)), ("DEFINES", DefinesValue(data)), ("PARAMS", ParamsValue(data))]
  }

  /** The keys the declared sections add. */
  function SectionKeys(data: Data): set<string> {
    FileKeys(data) + SettingKeys(data)
  }

  function FileKeys(data: Data): set<string> {
    (if data.includes.Some? then {"INCLUDES"} else {})
    + (if data.files.Some? && data.files.value != [] then {"VLOGS"} else {})
    + (if data.constraints.Some? then {"CONSTRAINTS"} else {})
  }

  function SettingKeys(data: Data): set<string> {
    (if data.top.Some? then {"TOP"} else {})
    + (if data.defines.Some? then {"DEFINES"} else {})
    + (if data.params.Some? then {"PARAMS"} else {})
  }

  /** One entry per hook stage under its upper-cased name, in order. */
  function HookEntries(data: Data): seq<Entry> {
    if data.hooks.None? then []
    else
      var hooks := data.hooks.value;
      seq(|hooks|, i requires 0 <= i < |hooks| => (Upper(hooks[i].0), Some(Text(Join(hooks[i].1, "\n")))))
  }

  function HookKeys(data: Data): set<string> {
    if data.hooks.Some? then set h | h in data.hooks.value :: Upper(h.0) else {}
  }

  /** The context as layers, each overriding the earlier ones in the order the
      source writes them: base entries, steps, sections, hook stages. */
  function Context(name: Option<string>, info: PartInfo.Info, steps: seq<string>, data: Data): map<string, Value> {
    Assign(Assign(Assign(BaseEntries(name, info), StepEntries(steps)), SectionEntries(data)), HookEntries(data))
  }

  /** The outcome of `_make_prepare`: the context of the part `get_info`
      resolves, and the command. */
  function Prepare(name: Option<string>, data: Data, steps: seq<string>): Result<Prepared, Error> {
    match PartInfo.GetInfo(PartOf(data))
    case Failure(e) => Failure(e)
    case Success(info) => Success(Prepared(Context(name, info, steps, data), COMMAND))
  }

  /** `_make_prepare`, up to the script write. */
  method MakePrepare(name: Option<string>, data: Data, steps: seq<string>) returns (r: Result<Prepared, Error>)
    ensures r == Prepare(name, data, steps)
  {
    var found := PartInfo.GetInfo(PartOf(data));
    if found.Failure? {
      return Failure(found.error);
    }
    var context := BuildContext(name, found.value, steps, data);
    r := Success(Prepared(context, COMMAND));
  }

  /** The context of `_make_prepare`, built entry by entry, each flag list by
      appending in declaration order. */
  method BuildContext(name: Option<string>, info: PartInfo.Info, steps: seq<string>, data: Data)
    returns (context: map<string, Value>)
    ensures context == Context(name, info, steps, data)
  {
    context := map[
      "PROJECT" := Text(ProjectName(name)),
      "FAMILY" := FamilyValue(info.family),
      "DEVICE" := Text(info.device),
      "PACKAGE" := Text(info.package)];
    ghost var base := context;
    var i := 0;
    while i < |steps|
      invariant 0 <= i <= |steps|
      invariant context == Assign(base, StepEntries(steps[..i]))
    {
      assert StepEntries(steps[..i + 1])[..i] == StepEntries(steps[..i]);
      context := context[steps[i] := Number(1)];
      i := i + 1;
    }
    assert steps[..|steps|] == steps;
    context := AddSectionEntries(context, data);
    if data.hooks.Some? {
      context := AddHookEntries(context, data);
    }
  }

  /** The section part of `_make_prepare`, in the source's order. */
  method AddSectionEntries(m: map<string, Value>, data: Data) returns (context: map<string, Value>)
    ensures context == Assign(m, SectionEntries(data))
  {
    context := AddFileEntries(m, data);
    context := AddSettingEntries(context, data);
    AssignConcat(m, FileEntries(data), SettingEntries(data));
  }

  /** The include paths, the Verilog reads and the constraint files. */
  method AddFileEntries(m: map<string, Value>, data: Data) returns (context: map<string, Value>)
    ensures context == Assign(m, FileEntries(data))
  {
    context := m;
    ghost var done: seq<Entry> := [];
    if data.includes.Some? {
      var includes := BuildIncludeFlags(data.includes.value);
      context := context["INCLUDES" := Text(Join(includes, " "))];
    }
    AssignSnoc(m, done, ("INCLUDES", IncludesValue(data)));
    done := done + [("INCLUDES", IncludesValue(data))];
    assert context == Assign(m, done);
    var files: seq<string> := [];
    if data.files.Some? {
      files := BuildReadCommands(data.files.value);
    }
    if files != [] {
      context := context["VLOGS" := Text(Join(files, "\n"))];
    }
    AssignSnoc(m, done, ("VLOGS", VlogsValue(data)));
    done := done + [("VLOGS", VlogsValue(data))];
    assert context == Assign(m, done);
    if data.constraints.Some? {
      var constraints := BuildConstraints(data.constraints.value);
      context := context["CONSTRAINTS" := Text(Join(constraints, " "))];
    }
    AssignSnoc(m, done, ("CONSTRAINTS", ConstraintsValue(data)));
    done := done + [("CONSTRAINTS", ConstraintsValue(data))];
    assert done == FileEntries(data);
  }

  /** The top level, the defines and the parameters. */
  method AddSettingEntries(m: map<string, Value>, data: Data) returns (context: map<string, Value>)
    ensures context == Assign(m, SettingEntries(data))
  {
    context := m;
    ghost var done: seq<Entry> := [];
    if data.top.Some? {
      context := context["TOP" := Text(data.top.value)];
    }
    AssignSnoc(m, done, ("TOP", TopValue(data)));
    done := done + [("TOP", TopValue(data))];
    assert context == Assign(m, done);
    if data.defines.Some? {
      var defines := BuildDefineFlags(data.defines.value);
      context := context["DEFINES" := Text(Join(defines, " "))];
    }
    AssignSnoc(m, done, ("DEFINES", DefinesValue(data)));
    done := done + [("DEFINES", DefinesValue(data))];
    assert context == Assign(m, done);
    if data.params.Some? {
      var params := BuildParamFlags(data.params.value);
      context := context["PARAMS" := Text(Join(params, " "))];
    }
    AssignSnoc(m, done, ("PARAMS", ParamsValue(data)));
    done := done + [("PARAMS", ParamsValue(data))];
    assert done == SettingEntries(data);
  }

  /** The hook loop of `_make_prepare`: one entry per stage, in order. */
  method AddHookEntries(m: map<string, Value>, data: Data) returns (context: map<string, Value>)
    requires data.hooks.Some?
    ensures context == Assign(m, HookEntries(data))
  {
    var hooks := data.hooks.value;
    context := m;
    var k := 0;
    while k < |hooks|
      invariant 0 <= k <= |hooks|
      invariant context == Assign(m, HookEntries(data)[..k])
    {
      assert HookEntries(data)[..k + 1][..k] == HookEntries(data)[..k];
      context := context[Upper(hooks[k].0) := Text(Join(hooks[k].1, "\n"))];
      k := k + 1;
    }
    assert HookEntries(data)[..|hooks|] == HookEntries(data);
  }

  /** Applying two lists of entries is applying their concatenation. */
  lemma {:induction false} AssignConcat(m: map<string, Value>, a: seq<Entry>, b: seq<Entry>)
    ensures Assign(m, a + b) == Assign(Assign(m, a), b)
    decreases |b|
  {
    if b != [] {
      assert (a + b)[..|a + b| - 1] == a + b[..|b| - 1];
      AssignConcat(m, a, b[..|b| - 1]);
    } else {
      assert a + b == a;
    }
  }

  /** Appending one entry applies it last. */
  lemma AssignSnoc(m: map<string, Value>, done: seq<Entry>, e: Entry)
    ensures Assign(m, done + [e]) == if e.1.Some? then Assign(m, done)[e.0 := e.1.value] else Assign(m, done)
  {
    assert (done + [e])[..|done|] == done;
  }

  /** The `-I` loop of `_make_prepare`. */
  method BuildIncludeFlags(paths: seq<string>) returns (flags: seq<string>)
    ensures flags == IncludeFlags(paths)
  {
    flags := [];
    var k := 0;
    while k < |paths|
      invariant 0 <= k <= |paths|
      invariant flags == IncludeFlags(paths[..k])
    {
      flags := flags + ["-I" + paths[k]];
      k := k + 1;
    }
  }

  /** The `read_verilog -defer` loop of `_make_prepare`. */
  method BuildReadCommands(files: seq<string>) returns (commands: seq<string>)
    ensures commands == ReadCommands(files)
  {
    commands := [];
    var k := 0;
    while k < |files|
      invariant 0 <= k <= |files|
      invariant commands == ReadCommands(files[..k])
    {
      commands := commands + ["read_verilog -defer " + files[k]];
      k := k + 1;
    }
  }

  /** The constraint loop of `_make_prepare`: the paths in order. */
  method BuildConstraints(paths: seq<string>) returns (constraints: seq<string>)
    ensures constraints == paths
  {
    constraints := [];
    var k := 0;
    while k < |paths|
      invariant 0 <= k <= |paths|
      invariant constraints == paths[..k]
    {
      constraints := constraints + [paths[k]];
      k := k + 1;
    }
  }

  /** The `-D` loop of `_make_prepare`. */
  method BuildDefineFlags(defines: seq<(string, string)>) returns (flags: seq<string>)
    ensures flags == DefineFlags(defines)
  {
    flags := [];
    var k := 0;
    while k < |defines|
      invariant 0 <= k <= |defines|
      invariant flags == DefineFlags(defines[..k])
    {
      flags := flags + ["-D" + defines[k].0 + "=" + defines[k].1];
      k := k + 1;
    }
  }

  /** The `-set` loop of `_make_prepare`. */
  method BuildParamFlags(params: seq<(string, string)>) returns (flags: seq<string>)
    ensures flags == ParamFlags(params)
  {
    flags := [];
    var k := 0;
    while k < |params|
      invariant 0 <= k <= |params|
      invariant flags == ParamFlags(params[..k])
    {
      flags := flags + ["-set " + params[k].0 + " " + params[k].1];
      k := k + 1;
    }
  }

  // ---------------------------------------------------------------------
  // Assignments in order

  lemma {:induction false} AssignKeys(m: map<string, Value>, entries: seq<Entry>)
    ensures Assign(m, entries).Keys == m.Keys + Assigned(entries)
    decreases |entries|
  {
    if entries != [] {
      var init := entries[..|entries| - 1];
      AssignKeys(m, init);
      assert entries == init + [entries[|entries| - 1]];
    }
  }

  /** A key no entry names keeps its value. */
  lemma {:induction false} AssignKeeps(m: map<string, Value>, entries: seq<Entry>, k: string)
    requires k !in Assigned(entries)
    ensures k in Assign(m, entries) <==> k in m
    ensures k in m ==> Assign(m, entries)[k] == m[k]
    decreases |entries|
  {
    if entries != [] {
      var init := entries[..|entries| - 1];
      assert entries == init + [entries[|entries| - 1]];
      assert Assigned(init) <= Assigned(entries);
      AssignKeeps(m, init, k);
    }
  }

  /** The last entry for a key decides its value. */
  lemma {:induction false} AssignLast(m: map<string, Value>, entries: seq<Entry>, i: nat)
    requires i < |entries| && entries[i].1.Some?
    requires forall j :: i < j < |entries| ==> entries[j].0 != entries[i].0
    ensures entries[i].0 in Assign(m, entries)
    ensures Assign(m, entries)[entries[i].0] == entries[i].1.value
    decreases |entries|
  {
    if i < |entries| - 1 {
      var init := entries[..|entries| - 1];
      assert init[i] == entries[i];
      AssignLast(m, init, i);
    }
  }

  /** A requested step is set to 1 by the step entries. */
  lemma {:induction false} StepSet(m: map<string, Value>, steps: seq<string>, step: string)
    requires step in steps
    ensures step in Assign(m, StepEntries(steps))
    ensures Assign(m, StepEntries(steps))[step] == Number(1)
    decreases |steps|
  {
    var init := steps[..|steps| - 1];
    assert StepEntries(steps)[..|steps| - 1] == StepEntries(init);
    if steps[|steps| - 1] != step {
      assert steps == init + [steps[|steps| - 1]];
      StepSet(m, init, step);
    }
  }

  lemma StepKeys(steps: seq<string>)
    ensures Assigned(StepEntries(steps)) == set s | s in steps
  {
    var es := StepEntries(steps);
    forall s | s in steps ensures s in Assigned(es) {
      var i :| 0 <= i < |steps| && steps[i] == s;
      assert es[i] in es;
    }
  }

  lemma SectionEntriesKeys(data: Data)
    ensures Assigned(SectionEntries(data)) == SectionKeys(data)
  {
    AssignedConcat(FileEntries(data), SettingEntries(data));
    FileEntriesKeys(data);
    SettingEntriesKeys(data);
  }

  lemma FileEntriesKeys(data: Data)
    ensures Assigned(FileEntries(data)) == FileKeys(data)
  {
  }

  lemma SettingEntriesKeys(data: Data)
    ensures Assigned(SettingEntries(data)) == SettingKeys(data)
  {
  }

  lemma AssignedConcat(a: seq<Entry>, b: seq<Entry>)
    ensures Assigned(a + b) == Assigned(a) + Assigned(b)
  {
    forall k | k in Assigned(a + b) ensures k in Assigned(a) + Assigned(b) {
      var e :| e in a + b && e.1.Some? && e.0 == k;
      assert e in a || e in b;
    }
    forall k | k in Assigned(a) + Assigned(b) ensures k in Assigned(a + b) {
      var e :| (e in a || e in b) && e.1.Some? && e.0 == k;
      assert e in a + b;
    }
  }

  lemma HookEntriesKeys(data: Data)
    ensures Assigned(HookEntries(data)) == HookKeys(data)
  {
    if data.hooks.Some? {
      var hooks := data.hooks.value;
      var es := HookEntries(data);
      forall h | h in hooks ensures Upper(h.0) in Assigned(es) {
        var i :| 0 <= i < |hooks| && hooks[i] == h;
        assert es[i] in es;
      }
    }
  }

  // ---------------------------------------------------------------------
  // What the context holds

  /** The part is resolved from the data, or from 'hx8k-ct256' when the data
      has none; the preparation fails exactly when that resolution fails, and
      otherwise returns the command 'bash openflow.sh'. */
  lemma PrepareOutcome(name: Option<string>, data: Data, steps: seq<string>)
    ensures Prepare(name, data, steps).Failure? <==> PartInfo.GetInfo(PartOf(data)).Failure?
    ensures Prepare(name, data, steps).Failure? ==>
      Prepare(name, data, steps).error == PartInfo.GetInfo(PartOf(data)).error
    ensures Prepare(name, data, steps).Success? ==> Prepare(name, data, steps).value.command == COMMAND
  {
  }

  /** The context has the four base keys, one key per requested step, one per
      declared section and one per hook stage, and nothing else: an absent
      section adds no key. */
  lemma ContextKeys(name: Option<string>, info: PartInfo.Info, steps: seq<string>, data: Data)
    ensures Context(name, info, steps, data).Keys ==
      BASE_KEYS + (set s | s in steps) + SectionKeys(data) + HookKeys(data)
  {
    var stepped := Assign(BaseEntries(name, info), StepEntries(steps));
    var sectioned := Assign(stepped, SectionEntries(data));
    AssignKeys(BaseEntries(name, info), StepEntries(steps));
    AssignKeys(stepped, SectionEntries(data));
    AssignKeys(sectioned, HookEntries(data));
    StepKeys(steps);
    SectionEntriesKeys(data);
    HookEntriesKeys(data);
  }

  lemma BaseEntriesAt(name: Option<string>, info: PartInfo.Info, key: string)
    requires key in BASE_KEYS
    ensures var base := BaseEntries(name, info);
      && key in base
      && (key == "PROJECT" ==> base[key] == Text(ProjectName(name)))
      && (key == "FAMILY" ==> base[key] == FamilyValue(info.family))
      && (key == "DEVICE" ==> base[key] == Text(info.device))
      && (key == "PACKAGE" ==> base[key] == Text(info.package))
  {
  }

  /** A base entry survives unless a step or a hook stage reuses its key. */
  lemma BaseValues(name: Option<string>, info: PartInfo.Info, steps: seq<string>, data: Data, key: string)
    requires key in BASE_KEYS && key !in steps && key !in HookKeys(data)
    ensures var ctx := Context(name, info, steps, data);
      && key in ctx
      && (key == "PROJECT" ==> ctx[key] == Text(ProjectName(name)))
      && (key == "FAMILY" ==> ctx[key] == FamilyValue(info.family))
      && (key == "DEVICE" ==> ctx[key] == Text(info.device))
      && (key == "PACKAGE" ==> ctx[key] == Text(info.package))
  {
    var base := BaseEntries(name, info);
    BaseEntriesAt(name, info, key);
    var stepped := Assign(base, StepEntries(steps));
    var sectioned := Assign(stepped, SectionEntries(data));
    StepKeys(steps);
    AssignKeeps(base, StepEntries(steps), key);
    AssignKeeps(stepped, SectionEntries(data), key);
    HookEntriesKeys(data);
    AssignKeeps(sectioned, HookEntries(data), key);
  }

  /** Every requested step maps to 1 unless a section or a hook stage reuses
      its name. */
  lemma StepValue(name: Option<string>, info: PartInfo.Info, steps: seq<string>, data: Data, step: string)
    requires step in steps && step !in SectionKeys(data) && step !in HookKeys(data)
    ensures var ctx := Context(name, info, steps, data);
      step in ctx && ctx[step] == Number(1)
  {
    var base := BaseEntries(name, info);
    var stepped := Assign(base, StepEntries(steps));
    var sectioned := Assign(stepped, SectionEntries(data));
    StepSet(base, steps, step);
    SectionEntriesKeys(data);
    AssignKeeps(stepped, SectionEntries(data), step);
    HookEntriesKeys(data);
    AssignKeeps(sectioned, HookEntries(data), step);
  }

  /** The section entries: flags and paths joined by spaces, Verilog reads by
      newlines, each list in declaration order; a hook stage with the same
      upper-cased name would override them. */
  lemma SectionValues(name: Option<string>, info: PartInfo.Info, steps: seq<string>, data: Data)
    requires forall key :: key in SectionKeys(data) ==> key !in HookKeys(data)
    ensures SectionKeys(data) <= Context(name, info, steps, data).Keys
    ensures var ctx := Context(name, info, steps, data);
      && (data.includes.Some? ==> ctx["INCLUDES"] == Text(Join(IncludeFlags(data.includes.value), " ")))
      && (data.files.Some? && data.files.value != [] ==>
            ctx["VLOGS"] == Text(Join(ReadCommands(data.files.value), "\n")))
      && (data.constraints.Some? ==> ctx["CONSTRAINTS"] == Text(Join(data.constraints.value, " ")))
      && (data.top.Some? ==> ctx["TOP"] == Text(data.top.value))
      && (data.defines.Some? ==> ctx["DEFINES"] == Text(Join(DefineFlags(data.defines.value), " ")))
      && (data.params.Some? ==> ctx["PARAMS"] == Text(Join(ParamFlags(data.params.value), " ")))
  {
    var stepped := Assign(BaseEntries(name, info), StepEntries(steps));
    var sections := SectionEntries(data);
    var sectioned := Assign(stepped, sections);
    HookEntriesKeys(data);
    SectionEntriesKeys(data);
    forall i | 0 <= i < |sections| && sections[i].1.Some?
      ensures sections[i].0 in Context(name, info, steps, data)
      ensures Context(name, info, steps, data)[sections[i].0] == sections[i].1.value
    {
      AssignLast(stepped, sections, i);
      assert sections[i] in sections;
      AssignKeeps(sectioned, HookEntries(data), sections[i].0);
    }
    assert sections[0].0 == "INCLUDES" && sections[1].0 == "VLOGS" && sections[2].0 == "CONSTRAINTS";
    assert sections[3].0 == "TOP" && sections[4].0 == "DEFINES" && sections[5].0 == "PARAMS";
  }

  /** Each hook stage appears under its upper-cased name with its commands
      joined by newlines, unless a later stage has the same upper-cased name. */
  lemma HookValue(name: Option<string>, info: PartInfo.Info, steps: seq<string>, data: Data, i: nat)
    requires data.hooks.Some? && i < |data.hooks.value|
    requires forall j :: i < j < |data.hooks.value| ==>
      Upper(data.hooks.value[j].0) != Upper(data.hooks.value[i].0)
    ensures var ctx := Context(name, info, steps, data);
      var stage := data.hooks.value[i];
      Upper(stage.0) in ctx && ctx[Upper(stage.0)] == Text(Join(stage.1, "\n"))
  {
    var sectioned := Assign(Assign(BaseEntries(name, info), StepEntries(steps)), SectionEntries(data));
    AssignLast(sectioned, HookEntries(data), i);
  }

  /** With no part in the data the context describes the default iCE40 part. */
  lemma DefaultPartContext(name: Option<string>, data: Data, steps: seq<string>)
    requires data.part.None?
    requires forall key :: key in BASE_KEYS ==> key !in steps && key !in HookKeys(data)
    ensures var r := Prepare(name, data, steps);
      && r.Success?
      && "FAMILY" in r.value.context && r.value.context["FAMILY"] == Text("ice40")
      && "DEVICE" in r.value.context && r.value.context["DEVICE"] == Text("hx8k")
      && "PACKAGE" in r.value.context && r.value.context["PACKAGE"] == Text("ct256")
  {
    PartInfo.DefaultPartInfo(PartOf(data));
    var info := PartInfo.GetInfo(PartOf(data)).value;
    BaseValues(name, info, steps, data, "FAMILY");
    BaseValues(name, info, steps, data, "DEVICE");
    BaseValues(name, info, steps, data, "PACKAGE");
  }
}
