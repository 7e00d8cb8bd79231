/** The tool interface of `fpga.tool` (`Tool`) and its Libero backend
    (`Libero`). The backend is a field chosen at construction: the generic
    interface keeps the 'UNDEFINED' class constants and stores any part, the
    Libero backend has its own constants and normalises the part it is given. */
module FpgaTool {
  import opened Wrappers
  import opened Errors
  import opened Strings
  import Template
  import LiberoPart

  datatype Backend = Generic | Libero

  /** `_TOOL`. */
  function ToolName(b: Backend): string {
    match b
    case Generic => "UNDEFINED"
    case Libero => "libero"
  }

  /** `_EXTENSION`. */
  function Extension(b: Backend): string {
    match b
    case Generic => "UNDEFINED"
    case Libero => "prjx"
  }

  /** `_PART`. */
  function DefaultPart(b: Backend): string {
    match b
    case Generic => "UNDEFINED"
    case Libero => LiberoPart.LIBERO_PART
  }

  const PHASES: seq<string> := ["project", "preflow", "postsyn", "postimp", "postbit"]
  const STRATEGIES: seq<string> := ["none", "area", "speed", "power"]
  const TASKS: seq<string> := ["prj", "syn", "imp", "bit"]

  /** The option lists of a new tool: one empty list per phase. */
  const NO_OPTIONS: map<string, seq<string>> :=
    map["project" := [], "preflow" := [], "postsyn" := [], "postimp" := [], "postbit" := []]

  /** The tokens of the phases' option lists, in the order of `PHASES`. */
  const OPTION_TOKENS: seq<string> :=
    ["PROJECT_OPTS", "PREFLOW_OPTS", "POSTSYN_OPTS", "POSTIMP_OPTS", "POSTBIT_OPTS"]

  /** The placeholder names of the script template, in replacement order. */
  const TOKEN_NAMES: seq<string> :=
    ["TOOL", "PROJECT", "PART", "FILES", "TOP", "STRATEGY", "TASK"] + OPTION_TOKENS

  /** `check_value`: passes exactly for a listed value; otherwise fails with
      a message naming the value and the accepted ones. */
  function CheckValue(value: string, values: seq<string>): (r: Outcome<Error>)
    ensures r.Pass? <==> value in values
    ensures r.Fail? ==> r.error == InvalidValue(value + " is not a valid value (" + Join(values, " ,") + ")")
  {
    if value in values then Pass
    else Fail(InvalidValue(value + " is not a valid value (" + Join(values, " ,") + ")"))
  }

  /** What `set_part` stores for a backend, or why it refuses the part. */
  function StorePart(b: Backend, part: string): (r: Result<string, Error>)
    ensures r.Failure? ==> b == Libero && r.error == MalformedPart(LiberoPart.LIBERO_PART_ERROR)
  {
    match b
    case Generic => Success(part)
    case Libero => LiberoPart.Normalise(part)
  }

  /** The setter calls `__init__` makes succeed and store their argument as
      given: 'none' is a strategy, 'bit' is a task, and each backend's
      default part is stored unchanged. */
  lemma DefaultsAccepted(b: Backend)
    ensures CheckValue("none", STRATEGIES) == Pass
    ensures CheckValue("bit", TASKS) == Pass
    ensures StorePart(b, DefaultPart(b)) == Success(DefaultPart(b))
    ensures b == Libero ==> LiberoPart.IsCanonical(DefaultPart(b))
  {
    if b == Libero {
      LiberoPart.DefaultFixed(LiberoPart.LIBERO_PART);
    }
  }

  /** The line `add_file` records for a file and an optional library. */
  function FileCommand(file: string, lib: Option<string>): string {
    "    fpga_file " + file + (if lib.Some? then " " + lib.value else "")
  }

  class Tool {
    const backend: Backend
    var project: string
    var strategy: string
    var task: string
    var part: string
    var top: string
    var options: map<string, seq<string>>
    var files: seq<string>

    /** The state every public operation keeps: one option list per phase,
        an accepted strategy and task, and for Libero a part of the form
        FAMILY-SPEED-PACKAGE. */
    predicate Valid()
      reads this
    {
      && options.Keys == NO_OPTIONS.Keys
      && strategy in STRATEGIES
      && task in TASKS
      && (backend == Libero ==> LiberoPart.IsCanonical(part))
    }

    /** `__init__`. Its calls `set_strategy('none')`, `set_task('bit')`
        and `set_part(_PART)` all succeed and store their argument
        (`DefaultsAccepted`), so their effect is written as assignments. */
    constructor (backend: Backend, project: Option<string>)
      ensures Valid()
      ensures this.backend == backend
      ensures this.project == (if project.Some? then project.value else ToolName(backend))
      ensures strategy == "none" && task == "bit" && top == "undefined"
      ensures part == DefaultPart(backend)
      ensures options == NO_OPTIONS && files == []
    {
      this.backend := backend;
      this.project := if project.Some? then project.value else ToolName(backend);
      strategy := "none";
      task := "bit";
      DefaultsAccepted(backend);
      part := DefaultPart(backend);
      options := NO_OPTIONS;
      files := [];
      top := "undefined";
    }

    /** `get_configs`. */
    function Configs(): (c: map<string, string>)
      reads this
      ensures c.Keys == {"tool", "project", "extension", "part"}
      ensures c["tool"] == ToolName(backend) && c["extension"] == Extension(backend)
      ensures c["project"] == project && c["part"] == part
    {
      map["tool" := ToolName(backend), "project" := project,
          "extension" := Extension(backend), "part" := part]
    }

    /** `set_part`: the generic interface stores the part as given; Libero
        stores its normalised form, and on a malformed part fails and keeps
        the previous one. */
    method SetPart(part: string) returns (r: Outcome<Error>)
      modifies this`part
      ensures match StorePart(backend, part)
        case Success(p) => r == Pass && this.part == p
        case Failure(e) => r == Fail(e) && this.part == old(this.part)
      ensures backend == Generic ==> r == Pass && this.part == part
      ensures backend == Libero && r.Pass? ==> LiberoPart.IsCanonical(this.part)
      ensures old(Valid()) ==> Valid()
    {
      if backend == Generic {
        this.part := part;
        return Pass;
      }
      match LiberoPart.Normalise(part)
      case Success(p) =>
        LiberoPart.NormaliseShape(part);
        this.part := p;
        r := Pass;
      case Failure(e) =>
        r := Fail(e);
    }

    /** `add_file`: one more line at the end of the file list. */
    method AddFile(file: string, lib: Option<string>)
      modifies this`files
      ensures files == old(files) + [FileCommand(file, lib)]
      ensures old(Valid()) ==> Valid()
    {
      var command := "    ";
      command := command + "fpga_file " + file;
      if lib.Some? {
        command := command + " " + lib.value;
      }
      assert command == FileCommand(file, lib);
      files := files + [command];
    }

    /** `set_top`. */
    method SetTop(top: string)
      modifies this`top
      ensures this.top == top
      ensures old(Valid()) ==> Valid()
    {
      this.top := top;
    }

    /** `add_option`: for a known phase the option goes to the end of that
        phase's list and every other list stays as it was; an unknown phase
        fails and changes nothing. */
    method AddOption(option: string, phase: string) returns (r: Outcome<Error>)
      requires Valid()
      modifies this`options
      ensures Valid()
      ensures r == CheckValue(phase, PHASES)
      ensures r.Pass? ==> options == old(options)[phase := old(options)[phase] + [option]]
      ensures r.Fail? ==> options == old(options)
    {
      r := CheckValue(phase, PHASES);
      if r.Pass? {
        options := options[phase := options[phase] + [option]];
      }
    }

    /** `set_strategy`: an accepted strategy replaces the current one; a
        rejected one leaves it. */
    method SetStrategy(strategy: string) returns (r: Outcome<Error>)
      modifies this`strategy
      ensures r == CheckValue(strategy, STRATEGIES)
      ensures this.strategy == (if r.Pass? then strategy else old(this.strategy))
      ensures old(Valid()) ==> Valid()
    {
      r := CheckValue(strategy, STRATEGIES);
      if r.Pass? {
        this.strategy := strategy;
      }
    }

    /** `set_task`: as `SetStrategy`, over the tasks. */
    method SetTask(task: string) returns (r: Outcome<Error>)
      modifies this`task
      ensures r == CheckValue(task, TASKS)
      ensures this.task == (if r.Pass? then task else old(this.task))
      ensures old(Valid()) ==> Valid()
    {
      r := CheckValue(task, TASKS);
      if r.Pass? {
        this.task := task;
      }
    }

    /** The values `_create_script` puts in place of each token, in the
        order of its `replace` calls: first the seven settings, then the
        option lists of the phases, each joined with newlines in the order
        the options were added. */
    function Bindings(): (bs: seq<(string, string)>)
      requires Valid()
      reads this
      ensures |bs| == |TOKEN_NAMES|
      ensures forall i :: 0 <= i < |bs| ==> bs[i].0 == TOKEN_NAMES[i]
    {
      SettingBindings() + OptionBindings()
    }

    function SettingBindings(): seq<(string, string)>
      reads this
    {
      [("TOOL", ToolName(backend)),
       ("PROJECT", project),
       ("PART", part),
       ("FILES", Join(files, "\n")),
       ("TOP", top),
       ("STRATEGY", strategy),
       ("TASK", task)]
    }

    function OptionBindings(): seq<(string, string)>
      requires Valid()
      reads this
    {
      seq(|PHASES|, i requires 0 <= i < |PHASES| reads this requires Valid() =>
        (OPTION_TOKENS[i], Join(options[PHASES[i]], "\n")))
    }

    /** No value the script receives holds a '#', so none of them can be
        mistaken for a later token. */
    predicate HashFree()
      reads this
    {
      && '#' !in project && '#' !in part && '#' !in top
      && (forall f :: f in files ==> '#' !in f)
      && (forall p :: p in options ==> forall o :: o in options[p] ==> '#' !in o)
    }

    /** `_create_script` without reading the template file and writing the
        script: each `#NAME#` token replaced in turn by its value. */
    function Script(template: string): (r: string)
      requires Valid()
      reads this
      ensures '#' !in template ==> r == template
    {
      Template.Render(template, Bindings())
    }

    /** `generate`: a strategy override is applied first, then a task
        override, then the script is made. A rejected strategy fails before
        the task is touched; a rejected task fails with the strategy already
        set. */
    method Generate(template: string, strategy: Option<string>, task: Option<string>)
      returns (r: Result<string, Error>)
      requires Valid()
      modifies this`strategy, this`task
      ensures Valid()
      ensures strategy.Some? && strategy.value !in STRATEGIES ==>
        && r == Failure(CheckValue(strategy.value, STRATEGIES).error)
        && this.strategy == old(this.strategy) && this.task == old(this.task)
      ensures strategy.None? || strategy.value in STRATEGIES ==>
        this.strategy == (if strategy.Some? then strategy.value else old(this.strategy))
      ensures (strategy.None? || strategy.value in STRATEGIES) && task.Some? && task.value !in TASKS ==>
        r == Failure(CheckValue(task.value, TASKS).error) && this.task == old(this.task)
      ensures (strategy.None? || strategy.value in STRATEGIES) && (task.None? || task.value in TASKS) ==>
        && this.task == (if task.Some? then task.value else old(this.task))
        && r == Success(Script(template))
    {
      if strategy.Some? {
        var s := SetStrategy(strategy.value);
        if s.Fail? {
          return Failure(s.error);
        }
      }
      if task.Some? {
        var t := SetTask(task.value);
        if t.Fail? {
          return Failure(t.error);
        }
      }
      r := Success(Script(template));
    }

    /** `set_device`: not provided by the interface. */
    method SetDevice(devtype: string, position: nat, part: string, width: nat) returns (r: Outcome<Error>)
      ensures r == Fail(NotImplemented("set_device"))
    {
      r := Fail(NotImplemented("set_device"));
    }

    /** `set_board`: not provided by the interface. */
    method SetBoard(board: string) returns (r: Outcome<Error>)
      ensures r == Fail(NotImplemented("set_board"))
    {
      r := Fail(NotImplemented("set_board"));
    }

    /** `transfer`: never succeeds. The interface reports it as not
        provided; the Libero override first calls the interface's version
        with more arguments than it takes. */
    method Transfer(devtype: string) returns (r: Outcome<Error>)
      ensures r.Fail?
      ensures backend == Generic ==> r == Fail(NotImplemented("transfer"))
      ensures backend == Libero ==> r == Fail(ArgumentMismatch("transfer"))
    {
      if backend == Generic {
        r := Fail(NotImplemented("transfer"));
      } else {
        r := Fail(ArgumentMismatch("transfer"));
      }
    }
  }

  /** No two tokens share a name. */
  lemma TokenNamesDistinct()
    ensures forall j, k :: 0 <= j < k < |TOKEN_NAMES| ==> TOKEN_NAMES[j] != TOKEN_NAMES[k]
    ensures forall k :: 0 <= k < |TOKEN_NAMES| ==> Template.IsName(TOKEN_NAMES[k])
  {
  }

  /** No strategy, task or tool name holds a '#'. */
  lemma ChoicesHashFree()
    ensures forall v :: v in STRATEGIES ==> '#' !in v
    ensures forall v :: v in TASKS ==> '#' !in v
    ensures forall b: Backend :: '#' !in ToolName(b)
  {
  }

  /** Every value bound by the script is free of '#' when the tool's stored
      texts are. */
  lemma BindingsHashFree(t: Tool)
    requires t.Valid() && t.HashFree()
    ensures forall b :: b in t.Bindings() ==> '#' !in b.1
  {
    ChoicesHashFree();
    JoinAvoids(t.files, "\n", '#');
    assert forall b :: b in t.SettingBindings() ==> '#' !in b.1;
    var opts := t.OptionBindings();
    forall i | 0 <= i < |opts|
      ensures '#' !in opts[i].1
    {
      assert PHASES[i] in t.options;
      JoinAvoids(t.options[PHASES[i]], "\n", '#');
    }
    assert forall b :: b in opts ==> '#' !in b.1;
  }

  /** The script made from a well-formed template is the template with
      every slot named after one of the twelve tokens replaced by that
      token's value and everything else, other `#NAME#` slots included,
      kept as it was. */
  lemma ScriptFillsTokens(t: Tool, ps: seq<Template.Piece>)
    requires t.Valid() && t.HashFree() && Template.WellFormed(ps)
    ensures t.Script(Template.Flatten(ps)) == Template.Flatten(Template.Fill(ps, t.Bindings()))
    ensures var out := Template.Fill(ps, t.Bindings());
      && |out| == |ps|
      && (forall i, k :: 0 <= i < |ps| && 0 <= k < |TOKEN_NAMES| && ps[i] == Template.Slot(TOKEN_NAMES[k]) ==>
            out[i] == Template.Lit(t.Bindings()[k].1))
      && (forall i :: 0 <= i < |ps| && (ps[i].Lit? || ps[i].name !in TOKEN_NAMES) ==> out[i] == ps[i])
  {
    var bs := t.Bindings();
    TokenNamesDistinct();
    BindingsHashFree(t);
    forall b | b in bs
      ensures Template.IsName(b.0) && '#' !in b.1
    {
      var k :| 0 <= k < |bs| && bs[k] == b;
      assert b.0 == TOKEN_NAMES[k];
    }
    Template.RenderFillsSlots(ps, bs);
    Template.FillSlots(ps, bs);
  }
}
