/** The Diamond backend (`Diamond`): the tool settings it writes and the
    default part it supplies. */
module Diamond {
  import opened Wrappers
  import opened ProjectData

  const TOOL := "diamond"
  const DEFAULT_PART := "LFXP2-5E-5TN144C"

  /** The keys `_configure` writes. */
  const SETTING_KEYS := {"tool", "make_cmd", "make_ext", "prog_bit", "prog_cmd", "prog_ext"}

  /** The configuration after `_configure`: the six settings written in
      turn, the two commands built from the tool name. */
  function Configured(conf: map<string, string>): map<string, string> {
    conf["tool" := TOOL]
      ["make_cmd" := "diamondc " + TOOL + ".tcl"]
      ["make_ext" := "tcl"]
      ["prog_bit" := "bit"]
      ["prog_cmd" := "sh " + TOOL + "-prog.sh"]
      ["prog_ext" := "sh"]
  }

  /** The project data after `_make_custom`. */
  function WithDefaultPart(data: Data): Data {
    if data.part.None? then data.(part := Some(DEFAULT_PART)) else data
  }

  class Diamond {
    var conf: map<string, string>
    var data: Data

    /** `_configure`. */
    method Configure()
      modifies this`conf
      ensures conf == Configured(old(conf))
    {
      var tool := TOOL;
      conf := conf["tool" := tool];
      conf := conf["make_cmd" := "diamondc " + tool + ".tcl"];
      conf := conf["make_ext" := "tcl"];
      conf := conf["prog_bit" := "bit"];
      conf := conf["prog_cmd" := "sh " + tool + "-prog.sh"];
      conf := conf["prog_ext" := "sh"];
    }

    /** `_make_custom`. */
    method MakeCustom()
      modifies this`data
      ensures data == WithDefaultPart(old(data))
    {
      if data.part.None? {
        data := data.(part := Some(DEFAULT_PART));
      }
    }
  }

  /** `_configure` writes the six settings with their fixed values, adds no
      other key and leaves every other entry as it was. */
  lemma ConfiguredEntries(conf: map<string, string>)
    ensures Configured(conf).Keys == conf.Keys + SETTING_KEYS
    ensures Configured(conf)["tool"] == "diamond"
    ensures Configured(conf)["make_cmd"] == "diamondc diamond.tcl" && Configured(conf)["make_ext"] == "tcl"
    ensures Configured(conf)["prog_bit"] == "bit" && Configured(conf)["prog_cmd"] == "sh diamond-prog.sh"
    ensures Configured(conf)["prog_ext"] == "sh"
    ensures forall k :: k in conf && k !in SETTING_KEYS ==> Configured(conf)[k] == conf[k]
  {
  }

  /** Configuring twice is configuring once. */
  lemma ConfiguredIdempotent(conf: map<string, string>)
    ensures Configured(Configured(conf)) == Configured(conf)
  {
  }

  /** `_make_custom` supplies the default part exactly when none was given,
      keeps a given one and changes nothing else. */
  lemma DefaultPartEntries(data: Data)
    ensures WithDefaultPart(data).part == if data.part.None? then Some(DEFAULT_PART) else data.part
    ensures WithDefaultPart(data).(part := data.part) == data
  {
  }

  /** Supplying the default part twice is supplying it once. */
  lemma DefaultPartIdempotent(data: Data)
    ensures WithDefaultPart(WithDefaultPart(data)) == WithDefaultPart(data)
  {
  }
}
