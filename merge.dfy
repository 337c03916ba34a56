/** Layering of a project configuration over the global one
    (src/config/merge.rs). List settings are unioned in order without
    duplicates, scalar settings follow the project, and the detection rules stay
    global. */
module Merge {
  import opened Common
  import opened Lists
  import opened Schema

  /** `merge_unique_strings`: `a` as it is, then each item of `b` whose insertion
      into the `seen` set succeeds, i.e. that is neither in `a` nor seen earlier in `b`. */
  method MergeUniqueStrings(a: seq<string>, b: seq<string>) returns (result: seq<string>)
    ensures result == AppendFresh(a, b)
  {
    var seen := Elems(a);
    result := a;
    for i := 0 to |b|
      invariant result == AppendFresh(a, b[..i])
      invariant seen == Elems(a) + Elems(b[..i])
    {
      var item := b[i];
      var inserted := item !in seen;
      MergeStep(a, b, i, seen);
      seen := seen + {item};
      if inserted {
        result := result + [item];
      }
    }
    assert b[..|b|] == b;
  }

  /** One iteration of the merge loop: the next item is appended exactly when
      it has not been seen, and it joins the seen set. */
  lemma MergeStep(a: seq<string>, b: seq<string>, i: nat, seen: set<string>)
    requires i < |b| && seen == Elems(a) + Elems(b[..i])
    ensures AppendFresh(a, b[..i + 1])
         == if b[i] in seen then AppendFresh(a, b[..i]) else AppendFresh(a, b[..i]) + [b[i]]
    ensures seen + {b[i]} == Elems(a) + Elems(b[..i + 1])
  {
    var p, x := b[..i], b[i];
    assert b[..i + 1] == p + [x];
    assert x in a + p <==> x in seen;
    AppendFreshSnoc(a, p, x);
    assert Elems(p + [x]) == Elems(p) + {x};
  }

  /** The global default profiles that the project layer builds on: all of them,
      or all but "base" when the project opts out of the base profile. */
  function GlobalProfiles(global: SandboxConfig, project: SandboxConfig): (r: seq<string>)
    ensures Elems(r) == if project.inheritBase then Elems(global.defaultProfiles)
                        else Elems(global.defaultProfiles) - {"base"}
  {
    if project.inheritBase then global.defaultProfiles
    else Without(global.defaultProfiles, {"base"})
  }

  /** `merge_sandbox`. */
  function MergeSandbox(global: SandboxConfig, project: SandboxConfig): (r: SandboxConfig)
    ensures r.defaultNetwork == if project.network.Some? then project.network.value else project.defaultNetwork
    ensures r.shell == if project.shell.Some? then project.shell else global.shell
    ensures r.logFile == if project.logFile.Some? then project.logFile else global.logFile
    ensures r.promptIndicator == project.promptIndicator && r.inheritGlobal == project.inheritGlobal
    ensures r.inheritBase == project.inheritBase && r.network == project.network
    ensures var gp := GlobalProfiles(global, project);
      |r.defaultProfiles| >= |gp| && r.defaultProfiles[..|gp|] == gp
      && Elems(r.defaultProfiles) == Elems(gp) + Elems(project.defaultProfiles)
    ensures var gp := GlobalProfiles(global, project);
      |r.profiles| >= |gp| && r.profiles[..|gp|] == gp
      && Elems(r.profiles) == Elems(gp) + Elems(project.profiles)
  {
    var globalProfiles := GlobalProfiles(global, project);
    AppendFreshFacts(globalProfiles, project.defaultProfiles);
    AppendFreshFacts(globalProfiles, project.profiles);
    SandboxConfig(
      defaultNetwork := project.network.GetOr(project.defaultNetwork),
      defaultProfiles := AppendFresh(globalProfiles, project.defaultProfiles),
      shell := project.shell.Or(global.shell),
      promptIndicator := project.promptIndicator,
      logFile := project.logFile.Or(global.logFile),
      inheritGlobal := project.inheritGlobal,
      inheritBase := project.inheritBase,
      profiles := AppendFresh(globalProfiles, project.profiles),
      network := project.network)
  }

  /** "base" survives the merge of either profile list only through the project
      layer or, when the project inherits the base profile, through the global defaults. */
  lemma MergedBaseMembership(global: SandboxConfig, project: SandboxConfig)
    ensures "base" in MergeSandbox(global, project).defaultProfiles
        <==> (project.inheritBase && "base" in global.defaultProfiles) || "base" in project.defaultProfiles
    ensures "base" in MergeSandbox(global, project).profiles
        <==> (project.inheritBase && "base" in global.defaultProfiles) || "base" in project.profiles
  {
    var gp := GlobalProfiles(global, project);
    AppendFreshFacts(gp, project.defaultProfiles);
    AppendFreshFacts(gp, project.profiles);
    assert "base" in Elems(MergeSandbox(global, project).defaultProfiles)
       <==> "base" in Elems(gp) + Elems(project.defaultProfiles);
    assert "base" in Elems(MergeSandbox(global, project).profiles)
       <==> "base" in Elems(gp) + Elems(project.profiles);
  }

  /** The merged profile list starts with the (filtered) global defaults, holds
      exactly their union with the project's profiles, and does not depend on
      the global `profiles` list at all. */
  lemma MergedProfiles(global: SandboxConfig, project: SandboxConfig, otherGlobal: SandboxConfig)
    requires otherGlobal.defaultProfiles == global.defaultProfiles
    ensures var r := MergeSandbox(global, project).profiles;
      var gp := GlobalProfiles(global, project);
      |r| >= |gp| && r[..|gp|] == gp && Elems(r) == Elems(gp) + Elems(project.profiles)
    ensures var r := MergeSandbox(global, project).profiles;
      NoDup(global.defaultProfiles) ==>
        NoDup(r) && r == Dedup(GlobalProfiles(global, project) + project.profiles)
    ensures MergeSandbox(otherGlobal, project).profiles == MergeSandbox(global, project).profiles
  {
    var gp := GlobalProfiles(global, project);
    AppendFreshFacts(gp, project.profiles);
    if NoDup(global.defaultProfiles) {
      if !project.inheritBase {
        WithoutNoDup(global.defaultProfiles, {"base"});
      }
      AppendFreshIsDedup(gp, project.profiles);
    }
  }

  /** The merged default profiles are `merge_unique_strings` of the (filtered)
      global defaults and the project's defaults: without duplicates when the
      global list has none, they are exactly the first occurrences of the
      concatenation; the global `profiles` list is never read. */
  lemma MergedDefaultProfiles(global: SandboxConfig, project: SandboxConfig, otherGlobal: SandboxConfig)
    requires otherGlobal.defaultProfiles == global.defaultProfiles
    ensures var r := MergeSandbox(global, project).defaultProfiles;
      NoDup(global.defaultProfiles) ==>
        NoDup(r) && r == Dedup(GlobalProfiles(global, project) + project.defaultProfiles)
    ensures MergeSandbox(otherGlobal, project).defaultProfiles == MergeSandbox(global, project).defaultProfiles
  {
    var gp := GlobalProfiles(global, project);
    if NoDup(global.defaultProfiles) {
      if !project.inheritBase {
        WithoutNoDup(global.defaultProfiles, {"base"});
      }
      AppendFreshFacts(gp, project.defaultProfiles);
      AppendFreshIsDedup(gp, project.defaultProfiles);
    }
  }

  /** The merged network mode is decided by the project layer alone. */
  lemma MergedNetworkIgnoresGlobal(global: SandboxConfig, otherGlobal: SandboxConfig, project: SandboxConfig)
    ensures MergeSandbox(global, project).defaultNetwork == MergeSandbox(otherGlobal, project).defaultNetwork
  {
  }

  /** `merge_filesystem`. */
  function MergeFilesystem(global: FilesystemConfig, project: FilesystemConfig): (r: FilesystemConfig)
    ensures |r.allowRead| >= |global.allowRead| && r.allowRead[..|global.allowRead|] == global.allowRead
    ensures |r.denyRead| >= |global.denyRead| && r.denyRead[..|global.denyRead|] == global.denyRead
    ensures |r.allowWrite| >= |global.allowWrite| && r.allowWrite[..|global.allowWrite|] == global.allowWrite
    ensures |r.allowListDirs| >= |global.allowListDirs|
         && r.allowListDirs[..|global.allowListDirs|] == global.allowListDirs
    ensures Elems(r.allowRead) == Elems(global.allowRead) + Elems(project.allowRead)
    ensures Elems(r.denyRead) == Elems(global.denyRead) + Elems(project.denyRead)
    ensures Elems(r.allowWrite) == Elems(global.allowWrite) + Elems(project.allowWrite)
    ensures Elems(r.allowListDirs) == Elems(global.allowListDirs) + Elems(project.allowListDirs)
  {
    AppendFreshFacts(global.allowRead, project.allowRead);
    AppendFreshFacts(global.denyRead, project.denyRead);
    AppendFreshFacts(global.allowWrite, project.allowWrite);
    AppendFreshFacts(global.allowListDirs, project.allowListDirs);
    FilesystemConfig(
      AppendFresh(global.allowRead, project.allowRead),
      AppendFresh(global.denyRead, project.denyRead),
      AppendFresh(global.allowWrite, project.allowWrite),
      AppendFresh(global.allowListDirs, project.allowListDirs))
  }

  /** `merge_shell`: environment lists are unioned; `set_env` is the global map
      extended by the project map, so a key in both takes the project's value. */
  function MergeShell(global: ShellConfig, project: ShellConfig): (r: ShellConfig)
    ensures r.setEnv.Keys == global.setEnv.Keys + project.setEnv.Keys
    ensures forall k :: k in project.setEnv ==> r.setEnv[k] == project.setEnv[k]
    ensures forall k :: k in global.setEnv && k !in project.setEnv ==> r.setEnv[k] == global.setEnv[k]
    ensures |r.passEnv| >= |global.passEnv| && r.passEnv[..|global.passEnv|] == global.passEnv
    ensures |r.denyEnv| >= |global.denyEnv| && r.denyEnv[..|global.denyEnv|] == global.denyEnv
    ensures Elems(r.passEnv) == Elems(global.passEnv) + Elems(project.passEnv)
    ensures Elems(r.denyEnv) == Elems(global.denyEnv) + Elems(project.denyEnv)
  {
    AppendFreshFacts(global.passEnv, project.passEnv);
    AppendFreshFacts(global.denyEnv, project.denyEnv);
    ShellConfig(
      AppendFresh(global.passEnv, project.passEnv),
      AppendFresh(global.denyEnv, project.denyEnv),
      global.setEnv + project.setEnv)
  }

  /** `merge_configs`: section by section; the detection rules are the global ones. */
  function MergeConfigs(global: Config, project: Config): (r: Config)
    ensures r.profiles == global.profiles
    ensures r.sandbox == MergeSandbox(global.sandbox, project.sandbox)
    ensures r.filesystem == MergeFilesystem(global.filesystem, project.filesystem)
    ensures r.shell == MergeShell(global.shell, project.shell)
  {
    Config(
      MergeSandbox(global.sandbox, project.sandbox),
      MergeFilesystem(global.filesystem, project.filesystem),
      MergeShell(global.shell, project.shell),
      global.profiles)
  }

  /** Merging keeps every list of the result duplicate-free when the global
      lists were. */
  lemma MergeKeepsNoDup(global: Config, project: Config)
    requires NoDup(global.filesystem.allowRead) && NoDup(global.filesystem.denyRead)
    requires NoDup(global.filesystem.allowWrite) && NoDup(global.filesystem.allowListDirs)
    requires NoDup(global.shell.passEnv) && NoDup(global.shell.denyEnv)
    ensures var r := MergeConfigs(global, project);
      NoDup(r.filesystem.allowRead) && NoDup(r.filesystem.denyRead)
      && NoDup(r.filesystem.allowWrite) && NoDup(r.filesystem.allowListDirs)
      && NoDup(r.shell.passEnv) && NoDup(r.shell.denyEnv)
  {
    AppendFreshFacts(global.filesystem.allowRead, project.filesystem.allowRead);
    AppendFreshFacts(global.filesystem.denyRead, project.filesystem.denyRead);
    AppendFreshFacts(global.filesystem.allowWrite, project.filesystem.allowWrite);
    AppendFreshFacts(global.filesystem.allowListDirs, project.filesystem.allowListDirs);
    AppendFreshFacts(global.shell.passEnv, project.shell.passEnv);
    AppendFreshFacts(global.shell.denyEnv, project.shell.denyEnv);
  }
}
