# PyFPGA core, modelled in Dafny

PyFPGA drives FPGA vendor tools from Python. It describes a project once: part, files, top-level unit, options per phase and hooks. A backend then turns that description into a tool script. This project models the part of that machinery that decides what goes into the script. The modelled pieces are:

- **`get_info`** (`PartInfo`) resolves a part name into family, device and package.
  - It does a first-match search over the Xilinx prefixes, then runs the iCE40 and ECP5 tests.
  - It then splits on `-` and upper-cases the package for ECP5.
  - As written, its icestorm rewrite for 4k iCE40 parts never fires, and the open flow resolves parts with it as written. `GetInfoIntended` is the resolver with that rewrite applied (see "## Findings").
- **`Openflow._make_prepare`** (`Openflow`) builds the render context of the open-source flow.
  - The base entries come first, then one entry per requested step, then the declared sections, then the hook stages.
  - Each entry overrides earlier ones, as the source's dictionary writes do.
  - The method builds the context step by step. It is proved equal to a layered specification, `Context`, and the lemmas state what `Context` holds.
- **The `fpga.tool.Tool` interface** (`FpgaTool`) is a class with these parts:
  - fields that its setters update, plus `check_value`;
  - the `generate` order;
  - the `_create_script` chain of `replace` calls, as a function of the template text;
  - the operations that always fail (`set_device`, `set_board`, `transfer`).
- **The Libero backend** is the `Libero` value of `FpgaTool.Backend`.
  - Its constants are modelled.
  - Its part normaliser (`LiberoPart`) is a hand-written scanner for the first match of `(\w+)-(\w+)-*(\w*)`, followed by the speed/package swap and the `STD` default.
- **The Diamond backend** (`Diamond`) covers `_configure`, which writes six settings, and `_make_custom`, which supplies a default part.

Supporting modules:

- `Wrappers` holds `Option`, `Result` and `Outcome`.
- `Errors` is the error type that stands for the exceptions the source raises.
- `Strings` holds ASCII `lower`/`upper`, `split`, `join` and `replace` with their lemmas.
- `ProjectData` is the project description the backends read.
- `Template` reads a template as literal text and `#NAME#` slots.
  - It proves what the `replace` chain does to such a template: every slot that has a binding becomes that binding's value, and every other part of the text is left as it was.

The backends are one class with a `Backend` field rather than subclasses. The only thing a subclass changes is which constants and which `set_part`/`transfer` behaviour apply.

## Model

| member | source | states |
|---|---|---|
| PartInfo.GetInfo | pyfpga/openflow.py:102-152 | `get_info` as written: a refused part always fails with 'Part must be DEVICE-PACKAGE'; an accepted one carries the family of its lower-cased text |
| PartInfo.Family | pyfpga/openflow.py:108-133 | the family, after the Xilinx search and the iCE40 and ECP5 overrides, is a Xilinx entry, 'ice40', 'ecp5' or None |
| PartInfo.ArityDecides | pyfpga/openflow.py:137-145 | the part is refused exactly when it has neither one nor two dashes, always with 'Part must be DEVICE-PACKAGE' |
| PartInfo.EmptyPartRefused | pyfpga/openflow.py:137-145 | the empty part is refused, since it splits into one field |
| PartInfo.TwoFieldPart | pyfpga/openflow.py:137-140 | `D-P` resolves, with device lower(D) and package lower(P), upper-cased for ECP5 |
| PartInfo.ThreeFieldPart | pyfpga/openflow.py:141-143 | `F-S-P` resolves, with device `lower(F)-lower(S)` and package lower(P), upper-cased for ECP5 |
| PartInfo.FirstPrefixIsLeast | pyfpga/openflow.py:116-119 | the search returns the table entry at the least index that is a prefix |
| PartInfo.FirstPrefix | pyfpga/openflow.py:116-119 | the loop with `break`: what it finds is a table entry that is a prefix of the part |
| PartInfo.FirstPrefixFound | pyfpga/openflow.py:116-119 | the search finds nothing exactly when no entry is a prefix; what it finds is a matching entry |
| PartInfo.XilinxFirstMatch | pyfpga/openflow.py:111-119 | the first matching Xilinx entry in list order is the family |
| PartInfo.Xc3sdaBeforeXc3s | pyfpga/openflow.py:113-114 | `xc3sda…` resolves to 'xc3sda', not to 'xc3s' |
| PartInfo.XcupBeforeXcu | pyfpga/openflow.py:113 | `xcup…` resolves to 'xcup', not to 'xcu' |
| PartInfo.Xc2vpBeforeXc2v | pyfpga/openflow.py:114 | `xc2vp…` resolves to 'xc2vp', not to 'xc2v' |
| PartInfo.Ice40Heads | pyfpga/openflow.py:122-123 | every iCE40 prefix begins with 'l', 'h', or 'u' not followed by 'm' |
| PartInfo.Ecp5Heads | pyfpga/openflow.py:129-130 | every ECP5 prefix begins with a digit or with 'um' |
| PartInfo.Ice40NotEcp5 | pyfpga/openflow.py:120-133 | no part matches both the iCE40 table and the ECP5 table |
| PartInfo.Ice40Family | pyfpga/openflow.py:120-126 | any iCE40 prefix gives family 'ice40' |
| PartInfo.Ecp5Family | pyfpga/openflow.py:127-133 | any ECP5 prefix gives family 'ecp5' |
| PartInfo.NoFamily | pyfpga/openflow.py:110-133 | with no prefix from any table the family stays None, and a D-P part still resolves |
| PartInfo.NoRewriteFamily | pyfpga/openflow.py:146 | the family is never 'lp4k' or 'hx4k' |
| PartInfo.RewriteNeverFires | pyfpga/openflow.py:146-150 | for every accepted part, device and package are the split fields, and only ECP5 packages are upper-cased |
| PartInfo.Hx4kNotRewritten | pyfpga/openflow.py:146-148 | as written, every 4k iCE40 part `D-P` (D beginning with hx4k or lp4k) resolves to ice40 with device lower(D) and package lower(P), never to the 8k die with ':4k' |
| PartInfo.Hx4kExample | pyfpga/openflow.py:146-148 | as written, 'hx4k-ct256' resolves to ice40 / hx4k / ct256 |
| PartInfo.Hx4kRewritten | pyfpga/openflow.py:146-148 | with the rewrite applied as intended, every 4k iCE40 part `D-P` resolves to ice40 with device lower(D) with each '4' made '8', and package lower(P) + ':4k' |
| PartInfo.Hx4kExampleIntended | pyfpga/openflow.py:146-148 | as intended, 'hx4k-ct256' resolves to ice40 / hx8k / ct256:4k |
| PartInfo.GetInfoIntended | pyfpga/openflow.py:137-152 | the corrected resolver (the icestorm rewrite applied to 4k parts): a refused part fails with 'Part must be DEVICE-PACKAGE', an accepted one carries the family of its lower-cased text |
| PartInfo.IntendedAgrees | pyfpga/openflow.py:137-152 | the corrected resolver refuses exactly what `get_info` refuses, with the same error, and agrees with it on every part that is not 4k |
| PartInfo.Ecp5PackageUpper | pyfpga/openflow.py:149-150 | '25k-csfbga285' resolves to ecp5 / 25k / CSFBGA285 |
| PartInfo.DefaultPartInfo | pyfpga/openflow.py:108-140 | the default part 'hx8k-ct256' resolves to ice40 / hx8k / ct256, by both resolvers |
| Openflow.MakePrepare | pyfpga/openflow.py:22-70 | the result equals the specification `Prepare`: a resolution failure, or the layered context of the part `get_info` resolves (`PartInfo.GetInfo`, as written), plus 'bash openflow.sh' |
| Openflow.BuildContext | pyfpga/openflow.py:24-68 | the context built write by write equals `Context`: base, then steps, then sections, then hooks |
| Openflow.AddSectionEntries | pyfpga/openflow.py:32-65 | the six section writes, in source order, applied to the map |
| Openflow.AddFileEntries | pyfpga/openflow.py:32-53 | the INCLUDES, VLOGS and CONSTRAINTS writes; VLOGS only for a non-empty file list |
| Openflow.AddSettingEntries | pyfpga/openflow.py:54-65 | the TOP, DEFINES and PARAMS writes |
| Openflow.AddHookEntries | pyfpga/openflow.py:66-68 | one write per hook stage, under its upper-cased name, in order |
| Openflow.BuildIncludeFlags | pyfpga/openflow.py:33-35 | the loop yields '-I<path>' for each include, in order |
| Openflow.BuildReadCommands | pyfpga/openflow.py:37-40 | the loop yields 'read_verilog -defer <file>' for each file, in order |
| Openflow.BuildConstraints | pyfpga/openflow.py:50-52 | the loop yields the constraint paths unchanged, in order |
| Openflow.BuildDefineFlags | pyfpga/openflow.py:57-59 | the loop yields '-D<k>=<v>' for each define, in order |
| Openflow.BuildParamFlags | pyfpga/openflow.py:62-64 | the loop yields '-set <k> <v>' for each parameter, in order |
| Openflow.AssignConcat | pyfpga/openflow.py:24-68 | applying two runs of writes is applying their concatenation |
| Openflow.AssignKeys | pyfpga/openflow.py:24-68 | the writes add exactly the keys of their present entries |
| Openflow.AssignKeeps | pyfpga/openflow.py:24-68 | a key that no write names keeps its value |
| Openflow.AssignLast | pyfpga/openflow.py:66-68 | the last write to a key decides its value |
| Openflow.AssignedConcat | pyfpga/openflow.py:32-65 | the keys written by two runs of writes are the union of the keys each run writes |
| Openflow.PrepareOutcome | pyfpga/openflow.py:22-70 | the part is the data's part or 'hx8k-ct256'; preparation fails exactly when `get_info` fails, with its error, and otherwise returns 'bash openflow.sh' |
| Openflow.ContextKeys | pyfpga/openflow.py:24-68 | the context keys are exactly the base keys, the steps, the declared sections and the upper-cased hook stages; an absent section adds no key |
| Openflow.SectionEntriesKeys | pyfpga/openflow.py:32-65 | the sections add exactly the keys of the declared ones, VLOGS only for a non-empty file list |
| Openflow.BaseValues | pyfpga/openflow.py:24-29 | PROJECT is the name or 'openflow'; FAMILY, DEVICE and PACKAGE come from `get_info`; each holds unless a step or hook reuses the key |
| Openflow.StepValue | pyfpga/openflow.py:30-31 | every requested step maps to 1 unless a section or hook reuses its name |
| Openflow.SectionValues | pyfpga/openflow.py:32-65 | INCLUDES, DEFINES and PARAMS are their flags joined by spaces, CONSTRAINTS the paths joined by spaces, VLOGS the reads joined by newlines, TOP the top unit; each holds unless a hook stage reuses the key |
| Openflow.HookValue | pyfpga/openflow.py:66-68 | each hook stage maps, under its upper-cased name, to its commands joined by newlines, unless a later stage has the same name |
| Openflow.DefaultPartContext | pyfpga/openflow.py:23-29 | with no part, the context describes ice40 / hx8k / ct256 |
| FpgaTool.CheckValue | fpga/tool/__init__.py:27-33 | passes exactly when the value is listed; otherwise fails with '<v> is not a valid value (<vs joined by " ,">)' |
| FpgaTool.DefaultsAccepted | fpga/tool/__init__.py:48-62 | the constructor's setter calls all succeed: 'none' is a strategy, 'bit' is a task, and each backend's default part is stored unchanged (canonical for Libero) |
| FpgaTool.Tool.constructor | fpga/tool/__init__.py:48-62 | project is the given one or `_TOOL`; strategy 'none', task 'bit', part `_PART`, top 'undefined', no files, five empty option lists |
| FpgaTool.Tool.Configs | fpga/tool/__init__.py:64-71 | the four configuration entries: tool, project, extension and part |
| FpgaTool.StorePart | fpga/tool/__init__.py:73-75 | what `set_part` stores; only the Libero backend can refuse a part, and then with 'Part must be FAMILY-SPEED-PACKAGE or FAMILY-PACKAGE' |
| FpgaTool.Tool.SetPart | fpga/tool/__init__.py:73-75 | the generic interface stores the part as given; it changes nothing else |
| FpgaTool.Tool.AddFile | fpga/tool/__init__.py:77-83 | appends exactly '    fpga_file <file>', plus ' <lib>' when a library is given; earlier lines are untouched |
| FpgaTool.Tool.SetTop | fpga/tool/__init__.py:85-87 | stores the top unit and nothing else |
| FpgaTool.Tool.AddOption | fpga/tool/__init__.py:89-94 | a known phase gets the option at the end of its list, duplicates kept, other lists unchanged; an unknown phase fails and changes nothing |
| FpgaTool.Tool.SetStrategy | fpga/tool/__init__.py:114-119 | only none/area/speed/power are accepted; on rejection the previous strategy stays |
| FpgaTool.Tool.SetTask | fpga/tool/__init__.py:121-126 | only prj/syn/imp/bit are accepted; on rejection the previous task stays |
| FpgaTool.Tool.Generate | fpga/tool/__init__.py:128-134 | the strategy override comes first, and a rejected one fails before the task changes; then the task override; then the script |
| FpgaTool.Tool.Script | fpga/tool/__init__.py:96-111 | the text `_create_script` writes, the chain over the twelve bindings; a template without '#' is written unchanged |
| FpgaTool.Tool.Bindings | fpga/tool/__init__.py:100-111 | twelve token bindings in the order of the `replace` calls, option lists joined by newlines |
| FpgaTool.ScriptFillsTokens | fpga/tool/__init__.py:100-111 | on a well-formed template, with no '#' in the stored texts, every slot named after one of the twelve tokens becomes its value, and everything else (other `#NAME#` slots included) is kept |
| FpgaTool.BindingsHashFree | fpga/tool/__init__.py:100-111 | when the stored texts hold no '#', no bound value does |
| FpgaTool.TokenNamesDistinct | fpga/tool/__init__.py:100-111 | the twelve token names are distinct placeholder names |
| FpgaTool.Tool.SetDevice | fpga/tool/__init__.py:138-140 | always fails as not provided ('set_device') |
| FpgaTool.Tool.SetBoard | fpga/tool/__init__.py:142-144 | always fails as not provided ('set_board') |
| FpgaTool.Tool.Transfer | fpga/tool/__init__.py:146-148 | always fails; the generic interface reports 'transfer' as not provided |
| Template.RenderFillsSlots | fpga/tool/__init__.py:100-111 | when every binding name is a name and no bound value holds '#', the replace chain on a well-formed template equals the template with each bound slot filled by its first binding, and all other text unchanged |
| Template.FillSlots | fpga/tool/__init__.py:100-111 | with distinct names, each slot of a bound name gets that binding's value; literals and unbound slots are kept |
| Template.Render | fpga/tool/__init__.py:100-111 | the chain of `replace` calls, one per binding in order; a template without '#' holds no token and passes through unchanged |
| Strings.Lower | pyfpga/openflow.py:108 | `str.lower`: same length, each capital becomes the small letter whose capital it is, every other character kept |
| Strings.Upper | pyfpga/openflow.py:150 | `str.upper`: same length, each small letter becomes the capital whose small letter it is, every other character kept |
| Strings.Split | pyfpga/openflow.py:137 | `str.split` always gives at least one field |
| Strings.JoinOfSplit | pyfpga/openflow.py:137 | joining the fields of `split` with the separator gives back the text |
| Strings.SplitDashFields | pyfpga/openflow.py:137-145 | no field of a split on '-' holds a dash, so device and package fields are dash-free |
| Strings.Replace | fpga/tool/__init__.py:100-111 | `str.replace`: an equal-length replacement keeps the length, and replacing a pattern by itself changes nothing |
| Strings.ReplaceIsJoinOfSplit | fpga/tool/__init__.py:100 | `replace` equals joining the `split` on the pattern with the replacement |
| Strings.Join | pyfpga/openflow.py:36-68 | `sep.join(parts)`: a join of at least one part begins with the first part; `JoinSnoc` and `JoinOfSplit` give the rest of its meaning |
| Strings.JoinSnoc | fpga/tool/__init__.py:107-111 | an option added last appears last in the joined block, after a newline |
| LiberoPart.Normalise | fpga/tool/libero.py:60-71 | the Libero part normaliser; its only failure is 'Part must be FAMILY-SPEED-PACKAGE or FAMILY-PACKAGE' |
| LiberoPart.NormaliseFailsExactly | fpga/tool/libero.py:60-71 | the part is refused exactly when no word-dash-word occurs, with 'Part must be FAMILY-SPEED-PACKAGE or FAMILY-PACKAGE' |
| LiberoPart.NormaliseShape | fpga/tool/libero.py:62-67 | an accepted part becomes three non-empty `\w` fields separated by two dashes |
| LiberoPart.ThreeFieldFixed | fpga/tool/libero.py:62-67 | `F-S-P` with a speed no longer than the package stays `F-S-P` |
| LiberoPart.TwoFieldDefault | fpga/tool/libero.py:62-67 | `F-P` becomes `F-STD-P` |
| LiberoPart.SwapFields | fpga/tool/libero.py:63-66 | `F-P-S` with the middle field longer becomes `F-S-P` (an empty S becomes STD) |
| LiberoPart.DefaultFixed | fpga/tool/libero.py:49-67 | the default part 'mpf100t-1-fcg484' is its own normal form |
| LiberoPart.NotIdempotent | fpga/tool/libero.py:62-67 | `F-P` with a one- or two-character package gives `F-STD-P`, which normalises again to the different `F-P-STD` |
| LiberoPart.MatchAt | fpga/tool/libero.py:62 | one attempt of `(\w+)-(\w+)-*(\w*)` at a position: a match has non-empty word family and speed and a word package, and the text there begins with family-speed |
| LiberoPart.FirstMatch | fpga/tool/libero.py:62 | `re.findall(...)[0]`, the leftmost match: when none is found, no position from the start matches; a found one has non-empty family and speed |
| LiberoPart.FirstMatchIsMatch | fpga/tool/libero.py:62 | what the search finds is the match at the least position that has one, as `re.findall(...)[0]` is: no earlier position matches |
| LiberoPart.MatchThree | fpga/tool/libero.py:62 | on `F-S-P` the pattern captures F, S and P |
| LiberoPart.MatchTwo | fpga/tool/libero.py:62 | on `F-P` the pattern captures F, P and an empty third group |
| Diamond.Diamond.Configure | pyfpga/diamond.py:17-24 | the configuration becomes `Configured` of the old one |
| Diamond.ConfiguredEntries | pyfpga/diamond.py:17-24 | tool 'diamond', make_cmd 'diamondc diamond.tcl', make_ext 'tcl', prog_bit 'bit', prog_cmd 'sh diamond-prog.sh', prog_ext 'sh'; no other key added, other entries unchanged |
| Diamond.ConfiguredIdempotent | pyfpga/diamond.py:17-24 | configuring twice is configuring once |
| Diamond.Diamond.MakeCustom | pyfpga/diamond.py:26-28 | the data becomes `WithDefaultPart` of the old data |
| Diamond.DefaultPartEntries | pyfpga/diamond.py:26-28 | the part becomes 'LFXP2-5E-5TN144C' exactly when none was given, an existing part is kept, and nothing else changes |
| Diamond.DefaultPartIdempotent | pyfpga/diamond.py:26-28 | supplying the default part is idempotent |

Where the Libero backend's `set_part` (fpga/tool/libero.py:60-72) applies, `FpgaTool.Tool.SetPart` also states three things:

- it stores the normalised part;
- on a malformed part it fails and keeps the previous part;
- after a success the stored part is canonical.

`FpgaTool.Tool.Transfer` states that the Libero `transfer` (fpga/tool/libero.py:74-76) always fails. Every state-changing method keeps `Valid()`. `Valid()` says four things:

- there is one option list per phase;
- the strategy is accepted;
- the task is accepted;
- a Libero part is canonical.

The `_create_script` substitution is modelled on a template made of pieces, and the statement holds under two conditions:

- **The template is well-formed.** This means:
  - no literal piece holds a '#';
  - slot names use capitals and '_';
  - every slot except the last is followed by a literal holding a character that cannot be part of a name.
- **No bound value holds a '#'.**

The source does not require either. Without them, a value can create a token that a later `replace` then fires on, or the closing '#' of one slot can be read as the opening '#' of another. Apart from that, `Tool.Script` is the exact chain on any text.

Two facts about the code shape the model:

- **The 4k rewrite never fires.** See "## Findings".
- **Every token has a value.** `_create_script` (fpga/tool/__init__.py:100-111) replaces twelve tokens: TOOL, PROJECT, PART, FILES, TOP, STRATEGY, TASK and the five phase option blocks.
  - Each of the twelve is always bound. An empty file or option list joins to the empty string.
  - Any other `#NAME#` slot in the template is left verbatim (`Template.FillSlots`).

## Left out

- Reading `template.tcl` and writing `<tool>.tcl` (fpga/tool/__init__.py:98-99, 112) are file I/O. `Tool.Script` is the text that would be written, and `Generate` returns it.
- `Project._create_file` and the rest of `pyfpga/project.py` are not part of this model. `Openflow.MakePrepare` stops at the context and the command string.
- `Openflow._prog_prepare` is not modelled. Its default bitstream path comes from `Path(...).resolve()`, which depends on the filesystem.
- The commented-out code in pyfpga/openflow.py (lines 43-48 and 81-99) is inactive and not modelled.
- The driver scripts `examples/projects/vivado.py` and `examples/openflow/prjtrellis.py` are usage of APIs outside this model, not core.
- The `Project` constructor that `Diamond` inherits is not part of this model. `Diamond` has no constructor, and its methods act on whatever `conf` and `data` it holds.
- `_DEVTYPES`, `_GEN_COMMAND`, `_TRF_COMMAND` and `_GENERATED` are declared but never read by the modelled code, so they are not modelled.
- The module-level `_TEMPLATES` of fpga/tool/libero.py (lines 28-33) maps 'fpga' and 'detect' to empty strings and is never read, so it is not modelled.
- Exceptions become `Failure`/`Fail` values of `Errors.Error`. Only the kind and the message are kept: `InvalidValue` for `ValueError` from `check_value`, `MalformedPart` for the part errors, `NotImplemented` for `NotImplementedError`.
- `FpgaTool.Tool.Transfer`, for Libero: the override calls the interface's `transfer` with five arguments where it takes one. Python raises at that call, which is a `TypeError`, before the override's own `NotImplementedError('transfer(libero)')`. The model only states that it always fails, as `ArgumentMismatch("transfer")`. It also takes only the device type.
- `LiberoPart.Normalise`: `\w` is modelled as ASCII letters, digits and '_'. Python's Unicode word characters are not modelled.
- `Strings.Lower`, `Strings.Upper`: the case mapping is ASCII only. Python's full Unicode case mapping is not modelled.
- `FpgaTool.ScriptFillsTokens` is weaker than the source's substitution. It is stated only for well-formed templates and values without '#'; the chain itself is exact.
- `Template.RenderFillsSlots` is weaker than the source's `replace` chain in the same way. It is stated only for well-formed templates, binding names that are names, and bound values without '#'. Without these, a value can create a token that a later `replace` fires on. `Template.Render` itself is the exact chain on any text.
- `FpgaTool.Tool.constructor` writes the values that `set_strategy('none')`, `set_task('bit')` and `set_part(_PART)` store rather than calling them. `FpgaTool.DefaultsAccepted` proves that those calls succeed and store exactly these values.
- Python dictionaries are modelled by insertion-ordered sequences of pairs (defines, params, hooks) where their order matters, and by maps where only the final content does (the render context, the configuration).

## Findings

| source | as written | input that shows it | evidently intended | confidence | as-written member | corrected member |
|---|---|---|---|---|---|---|
| pyfpga/openflow.py:146-148 | the icestorm rewrite tests `family in ['lp4k', 'hx4k']`, but the family is only ever a Xilinx entry, 'ice40', 'ecp5' or None, so the rewrite is dead | 'hx4k-ct256' gives device 'hx4k', package 'ct256' | a 4k iCE40 part (lower-cased part beginning with 'lp4k' or 'hx4k') is the 8k die: 'hx4k-ct256' gives device 'hx8k', package 'ct256:4k', as the icestorm link in the comment at line 146 describes | high; not executed | PartInfo.Hx4kNotRewritten | PartInfo.Hx4kRewritten |

`PartInfo.GetInfo` is the code as written; `PartInfo.NoRewriteFamily`, `PartInfo.RewriteNeverFires`, `PartInfo.Hx4kNotRewritten` and `PartInfo.Hx4kExample` state what it does. `PartInfo.GetInfoIntended` applies the rewrite to the 4k parts; `PartInfo.Hx4kRewritten`, `PartInfo.Hx4kExampleIntended` and `PartInfo.IntendedAgrees` state what it does. `Openflow.Prepare` models `_make_prepare` as written: it resolves the part with `PartInfo.GetInfo`, so a 4k part keeps its device and package in the context.
