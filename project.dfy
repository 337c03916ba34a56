/** The project configuration file of src/config/project.rs: `.sandbox.toml`,
    found by walking up from a start directory. Whether a file exists and what
    reading and parsing it yields are parameters. */
module ProjectConfig {
  import opened Common
  import opened Schema
  import opened Paths

  const ProjectConfigName := ".sandbox.toml"

  /** The directories the upward search looks in, in order: the start
      directory, then each ancestor up to the root. */
  function SearchDirs(start: string): (r: seq<string>)
    ensures |r| >= 1 && r[0] == start
  {
    [start] + Ancestors(start)
  }

  /** The search ends at a directory that has no parent: the root, or the
      first component of a relative path. */
  lemma {:induction false} SearchDirsEndAtTop(start: string)
    ensures Parent(SearchDirs(start)[|SearchDirs(start)| - 1]).None?
    decreases |start|
  {
    match Parent(start)
    case None =>
    case Some(q) =>
      SearchDirsEndAtTop(q);
      assert SearchDirs(start) == [start] + SearchDirs(q);
  }

  /** The configuration path in the first of `dirs` that has one. */
  function FirstConfig(dirs: seq<string>, fileExists: string -> bool): (r: Option<string>)
    ensures r.Some? ==> fileExists(r.value)
    ensures r.Some? ==> exists k :: (0 <= k < |dirs| && r.value == Join(dirs[k], ProjectConfigName)
                                     && forall j :: 0 <= j < k ==> !fileExists(Join(dirs[j], ProjectConfigName)))
    ensures r.None? <==> forall k :: 0 <= k < |dirs| ==> !fileExists(Join(dirs[k], ProjectConfigName))
  {
    if dirs == [] then None
    else if fileExists(Join(dirs[0], ProjectConfigName)) then Some(Join(dirs[0], ProjectConfigName))
    else
      var r := FirstConfig(dirs[1..], fileExists);
      assert forall k :: 1 <= k < |dirs| ==> dirs[k] == dirs[1..][k - 1];
      r
  }

  /** `find_project_config`: look for the file in the current directory; if it
      is not there, `pop` to the parent and look again; give up when `pop`
      fails. */
  method FindProjectConfig(start: string, fileExists: string -> bool) returns (r: Option<string>)
    ensures r == FirstConfig(SearchDirs(start), fileExists)
  {
    var current := start;
    while true
      invariant FirstConfig(SearchDirs(current), fileExists) == FirstConfig(SearchDirs(start), fileExists)
      decreases |current|
    {
      var configPath := Join(current, ProjectConfigName);
      if fileExists(configPath) {
        return Some(configPath);
      }
      var parent := Parent(current);
      if parent.None? {
        break;
      }
      assert SearchDirs(current) == [current] + SearchDirs(parent.value);
      assert SearchDirs(current)[1..] == SearchDirs(parent.value);
      current := parent.value;
    }
    return None;
  }

  /** The start directory is looked at first, and the nearest directory that
      has the file wins. */
  lemma FindNearestFirst(start: string, fileExists: string -> bool)
    ensures fileExists(Join(start, ProjectConfigName)) ==> FirstConfig(SearchDirs(start), fileExists) == Some(Join(start, ProjectConfigName))
    ensures !fileExists(Join(start, ProjectConfigName)) && Parent(start).Some? ==>
      FirstConfig(SearchDirs(start), fileExists) == FirstConfig(SearchDirs(Parent(start).value), fileExists)
    ensures !fileExists(Join(start, ProjectConfigName)) && Parent(start).None? ==>
      FirstConfig(SearchDirs(start), fileExists) == None
  {
    if Parent(start).Some? {
      assert SearchDirs(start)[1..] == SearchDirs(Parent(start).value);
    }
  }

  /** `load_project_config`: no file is `Ok(None)`; otherwise the file is read
      and parsed (the `load` parameter), and a failure of either is the error. */
  function LoadProjectConfig(dir: string, fileExists: string -> bool, load: string -> Result<Config, string>)
    : (r: Result<Option<Config>, string>)
    ensures !fileExists(Join(dir, ProjectConfigName)) ==> r == Ok(None)
    ensures fileExists(Join(dir, ProjectConfigName)) ==>
      match load(Join(dir, ProjectConfigName))
      case Ok(c) => r == Ok(Some(c))
      case Err(e) => r == Err(e)
  {
    var configPath := Join(dir, ProjectConfigName);
    if !fileExists(configPath) then Ok(None)
    else
      match load(configPath)
      case Ok(c) => Ok(Some(c))
      case Err(e) => Err(e)
  }

  /** A project configuration that `load_project_config` finds in a directory
      is also what the upward search from that directory returns. The command
      path loads from the working directory directly and does not search. */
  lemma LoadedConfigIsFound(dir: string, fileExists: string -> bool, load: string -> Result<Config, string>)
    requires LoadProjectConfig(dir, fileExists, load).Ok? && LoadProjectConfig(dir, fileExists, load).value.Some?
    ensures FirstConfig(SearchDirs(dir), fileExists) == Some(Join(dir, ProjectConfigName))
  {
    FindNearestFirst(dir, fileExists);
  }
}
