/** The project description the backends read (`self.data`): each optional
    section is `None` when the project never declared it. Dictionaries whose
    iteration order matters are ordered sequences of pairs. */
module ProjectData {
  import opened Wrappers

  datatype Data = Data(
    part: Option<string>,
    includes: Option<seq<string>>,
    files: Option<seq<string>>,
    constraints: Option<seq<string>>,
    top: Option<string>,
    defines: Option<seq<(string, string)>>,
    params: Option<seq<(string, string)>>,
    hooks: Option<seq<(string, seq<string>)>>)
}
