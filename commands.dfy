/** Assembly of the effective sandbox parameters in src/cli/commands.rs: which
    configuration applies, which profiles are applied, which network mode wins,
    and which paths reach the Seatbelt generator. Loading files, detecting
    marker files, the home directory and `shellexpand` are parameters. */
module Commands {
  import opened Common
  import opened Lists
  import opened Schema
  import opened Cli
  import Merge
  import Profiles
  import Detection
  import Paths
  import Seatbelt
  import Text

  // ------------------------------------------------------------ configuration

  /** Why `load_effective_config` failed: the context it attaches, and the
      cause reported by the loader. */
  datatype LoadFailure = GlobalConfigFailed(cause: string) | ProjectConfigFailed(cause: string)

  /** `load_effective_config`. `global` and `project` are what loading the
      global and the project configuration would yield; with `--no-config`
      neither is loaded. The global configuration is loaded first, so its
      failure is the one reported. */
  function LoadEffectiveConfig(args: Args, global: Result<Config, string>, project: Result<Option<Config>, string>)
    : (r: Result<Config, LoadFailure>)
    ensures args.noConfig ==> r == Ok(DefaultConfig())
    ensures !args.noConfig && global.Err? ==> r == Err(GlobalConfigFailed(global.error))
    ensures !args.noConfig && global.Ok? && project.Err? ==> r == Err(ProjectConfigFailed(project.error))
    ensures r.Ok? <==> args.noConfig || (global.Ok? && project.Ok?)
  {
    if args.noConfig then Ok(DefaultConfig())
    else
      match global
      case Err(e) => Err(GlobalConfigFailed(e))
      case Ok(g) =>
        match project
        case Err(e) => Err(ProjectConfigFailed(e))
        case Ok(Some(p)) => if p.sandbox.inheritGlobal then Ok(Merge.MergeConfigs(g, p)) else Ok(p)
        case Ok(None) => Ok(g)
  }

  /** When both loads succeed: without a project file the global configuration
      applies as it is; a project file that does not inherit replaces the
      global one entirely, whatever that is; one that inherits is layered on
      top of it, keeping every global path and the global detection rules. */
  lemma EffectiveConfigSources(args: Args, g: Config, p: Option<Config>, otherGlobal: Config)
    requires !args.noConfig
    ensures p.None? ==> LoadEffectiveConfig(args, Ok(g), Ok(p)) == Ok(g)
    ensures p.Some? && !p.value.sandbox.inheritGlobal ==>
      LoadEffectiveConfig(args, Ok(g), Ok(p)) == Ok(p.value)
      && LoadEffectiveConfig(args, Ok(otherGlobal), Ok(p)) == Ok(p.value)
    ensures p.Some? && p.value.sandbox.inheritGlobal ==>
      var c := LoadEffectiveConfig(args, Ok(g), Ok(p)).value;
      && c.profiles == g.profiles
      && Elems(g.filesystem.denyRead) + Elems(p.value.filesystem.denyRead) == Elems(c.filesystem.denyRead)
      && Elems(g.filesystem.allowRead) + Elems(p.value.filesystem.allowRead) == Elems(c.filesystem.allowRead)
      && Elems(g.filesystem.allowWrite) + Elems(p.value.filesystem.allowWrite) == Elems(c.filesystem.allowWrite)
  {
    if p.Some? && p.value.sandbox.inheritGlobal {
      var m := Merge.MergeFilesystem(g.filesystem, p.value.filesystem);
      assert LoadEffectiveConfig(args, Ok(g), Ok(p)).value.filesystem == m;
    }
  }

  // ------------------------------------------------------------ profile names

  /** The default profiles that may contribute: all of them, or all but "base"
      when the base profile is not inherited. */
  function DefaultContribution(defaults: seq<string>, inheritBase: bool): (r: seq<string>)
    ensures Elems(r) == if inheritBase then Elems(defaults) else Elems(defaults) - {BaseName}
  {
    if inheritBase then defaults else Without(defaults, {BaseName})
  }

  /** One more default profile contributes itself unless it is the skipped
      base profile. */
  lemma DefaultContributionSnoc(defaults: seq<string>, i: nat, inheritBase: bool)
    requires i < |defaults|
    ensures DefaultContribution(defaults[..i + 1], inheritBase)
         == DefaultContribution(defaults[..i], inheritBase)
            + (if inheritBase || defaults[i] != BaseName then [defaults[i]] else [])
  {
    assert defaults[..i + 1] == defaults[..i] + [defaults[i]];
    if !inheritBase {
      WithoutSnoc(defaults[..i], defaults[i], {BaseName});
    }
  }

  /** The name of the base profile. */
  const BaseName := "base"

  /** The profile names of the detected project types, in detection order. */
  function DetectedNames(types: seq<Detection.ProjectType>): (r: seq<string>)
    ensures |r| == |types|
    ensures forall i :: 0 <= i < |types| ==> r[i] == Detection.ToProfile(types[i])
  {
    if types == [] then [] else [Detection.ToProfile(types[0])] + DetectedNames(types[1..])
  }

  /** No project type is named "base". */
  lemma DetectedNamesNotBase(types: seq<Detection.ProjectType>)
    ensures BaseName !in DetectedNames(types)
  {
    forall i | 0 <= i < |types| ensures DetectedNames(types)[i] != BaseName {
      assert DetectedNames(types)[i] == Detection.AsStr(types[i]);
    }
  }

  /** Every name that some step of `collect_profile_names` offers, in the order
      offered: "base", the default profiles, the configured profiles, the
      detected ones when detection is on, and those on the command line. */
  function OfferedProfileNames(args: Args, config: Config, detected: seq<Detection.ProjectType>): seq<string>
  {
    (if config.sandbox.inheritBase then [BaseName] else [])
    + DefaultContribution(config.sandbox.defaultProfiles, config.sandbox.inheritBase)
    + config.sandbox.profiles
    + (if config.profiles.autoDetect then DetectedNames(detected) else [])
    + args.profiles
  }

  /** One guarded push: appending `x` unless it is already listed keeps the
      list equal to the deduplicated offers. */
  lemma PushAbsentStep(names: seq<string>, offered: seq<string>, x: string)
    requires names == Dedup(offered)
    ensures Dedup(offered + [x]) == if x in names then names else names + [x]
  {
    DedupSnoc(offered, x);
    assert x in Elems(names) <==> x in Elems(offered);
  }

  /** `for p in items { if !names.contains(p) { names.push(p) } }`. */
  method PushAbsent(names: seq<string>, ghost offered: seq<string>, items: seq<string>) returns (extended: seq<string>)
    requires names == Dedup(offered)
    ensures extended == Dedup(offered + items)
  {
    extended := names;
    assert offered + items[..0] == offered;
    for i := 0 to |items|
      invariant extended == Dedup(offered + items[..i])
    {
      PushAbsentStep(extended, offered + items[..i], items[i]);
      assert offered + items[..i + 1] == (offered + items[..i]) + [items[i]];
      if items[i] !in extended {
        extended := extended + [items[i]];
      }
    }
    assert items[..|items|] == items;
  }

  /** One guarded push of the loop over `default_profiles`. */
  lemma PushDefaultStep(names: seq<string>, offered: seq<string>, defaults: seq<string>, i: nat, inheritBase: bool)
    requires i < |defaults|
    requires names == Dedup(offered + DefaultContribution(defaults[..i], inheritBase))
    ensures Dedup(offered + DefaultContribution(defaults[..i + 1], inheritBase))
         == if defaults[i] !in names && (inheritBase || defaults[i] != BaseName) then names + [defaults[i]] else names
  {
    var p := defaults[i];
    var before := offered + DefaultContribution(defaults[..i], inheritBase);
    DefaultContributionSnoc(defaults, i, inheritBase);
    if inheritBase || p != BaseName {
      assert offered + DefaultContribution(defaults[..i + 1], inheritBase) == before + [p];
      PushAbsentStep(names, before, p);
    } else {
      assert offered + DefaultContribution(defaults[..i + 1], inheritBase) == before;
    }
  }

  /** The loop over `default_profiles`, whose guard also skips "base" when the
      base profile is not inherited. */
  method PushDefaults(names: seq<string>, ghost offered: seq<string>, defaults: seq<string>, inheritBase: bool)
    returns (extended: seq<string>)
    requires names == Dedup(offered)
    ensures extended == Dedup(offered + DefaultContribution(defaults, inheritBase))
  {
    extended := names;
    assert offered + DefaultContribution(defaults[..0], inheritBase) == offered;
    for i := 0 to |defaults|
      invariant extended == Dedup(offered + DefaultContribution(defaults[..i], inheritBase))
    {
      var p := defaults[i];
      PushDefaultStep(extended, offered, defaults, i, inheritBase);
      if p !in extended && (inheritBase || p != BaseName) {
        extended := extended + [p];
      }
    }
    assert defaults[..|defaults|] == defaults;
  }

  /** `collect_profile_names`: every push is guarded by `contains`, so the
      result is the offered names with repeats dropped, in first-offer order.
      Project types are detected only when automatic detection is on. */
  method CollectProfileNames(args: Args, config: Config, workingDir: string, fileExists: string -> bool)
    returns (names: seq<string>)
    ensures names == Dedup(OfferedProfileNames(args, config, Detection.DetectProjectTypes(workingDir, fileExists)))
  {
    ghost var offered: seq<string> := [];
    names := [];
    if config.sandbox.inheritBase {
      names := [BaseName];
      offered := [BaseName];
    }
    names := PushDefaults(names, offered, config.sandbox.defaultProfiles, config.sandbox.inheritBase);
    offered := offered + DefaultContribution(config.sandbox.defaultProfiles, config.sandbox.inheritBase);
    names := PushAbsent(names, offered, config.sandbox.profiles);
    offered := offered + config.sandbox.profiles;
    ghost var detectedNames: seq<string> := [];
    if config.profiles.autoDetect {
      var detected := Detection.DetectProjectTypes(workingDir, fileExists);
      detectedNames := DetectedNames(detected);
      names := PushAbsent(names, offered, DetectedNames(detected));
    } else {
      assert offered + detectedNames == offered;
    }
    assert names == Dedup(offered + detectedNames);
    offered := offered + detectedNames;
    names := PushAbsent(names, offered, args.profiles);
  }

  /** The collected names are duplicate-free and are exactly the offered
      names. "base" comes first when it is inherited; otherwise neither the
      first step nor the default profiles add it, and it is applied only when
      the configured or command-line profiles name it. */
  lemma ProfileNamesFacts(args: Args, config: Config, detected: seq<Detection.ProjectType>)
    ensures var names := Dedup(OfferedProfileNames(args, config, detected));
      && NoDup(names)
      && (forall x :: x in names <==> x in OfferedProfileNames(args, config, detected))
      && (config.sandbox.inheritBase ==> names != [] && names[0] == BaseName)
      && (!config.sandbox.inheritBase ==>
           (BaseName in names <==> BaseName in config.sandbox.profiles || BaseName in args.profiles))
  {
    var offered := OfferedProfileNames(args, config, detected);
    DedupMembers(offered);
    if config.sandbox.inheritBase {
      DedupHead(offered);
    } else {
      BaseOfferedOnlyByName(args, config, detected);
    }
  }

  /** Without inheritance, "base" is offered only by the configured or the
      command-line profiles. */
  lemma BaseOfferedOnlyByName(args: Args, config: Config, detected: seq<Detection.ProjectType>)
    requires !config.sandbox.inheritBase
    ensures BaseName in OfferedProfileNames(args, config, detected)
        <==> BaseName in config.sandbox.profiles || BaseName in args.profiles
  {
    var d := if config.profiles.autoDetect then DetectedNames(detected) else [];
    var dc := DefaultContribution(config.sandbox.defaultProfiles, false);
    assert OfferedProfileNames(args, config, detected) == dc + config.sandbox.profiles + d + args.profiles;
    assert BaseName !in dc by {
      assert BaseName !in Elems(dc);
    }
    DetectedNamesNotBase(detected);
  }

  // ------------------------------------------------------------ network mode

  /** `determine_network_mode`: a network flag on the command line, else the
      profile's mode, else the configured mode, else the default mode. */
  function DetermineNetworkMode(args: Args, profile: Profiles.Profile, config: Config): (m: NetworkMode)
    ensures AnyNetworkFlag(args) ==> m == NetworkModeOf(args)
    ensures !AnyNetworkFlag(args) && profile.networkMode.Some? ==> m == profile.networkMode.value
    ensures !AnyNetworkFlag(args) && profile.networkMode.None? ==>
      m == config.sandbox.network.GetOr(config.sandbox.defaultNetwork)
  {
    if args.online || args.localhost || args.offline then NetworkModeOf(args)
    else if profile.networkMode.Some? then profile.networkMode.value
    else config.sandbox.network.GetOr(config.sandbox.defaultNetwork)
  }

  /** Precedence: for arguments the parser accepts, the flag given decides
      whatever the profile and the configuration say; without a flag, a
      profile mode decides whatever the configuration says; and with neither,
      everything defaulted gives offline. */
  lemma NetworkModePrecedence(args: Args, profile: Profiles.Profile, config: Config,
                              otherProfile: Profiles.Profile, otherConfig: Config)
    requires NetworkFlagsExclusive(args)
    ensures args.online ==> DetermineNetworkMode(args, profile, config) == Online
    ensures args.localhost ==> DetermineNetworkMode(args, profile, config) == Localhost
    ensures args.offline ==> DetermineNetworkMode(args, profile, config) == Offline
    ensures AnyNetworkFlag(args) ==>
      DetermineNetworkMode(args, profile, config) == DetermineNetworkMode(args, otherProfile, otherConfig)
    ensures !AnyNetworkFlag(args) && profile.networkMode.Some? ==>
      DetermineNetworkMode(args, profile, config) == DetermineNetworkMode(args, profile, otherConfig)
    ensures !AnyNetworkFlag(args) ==>
      DetermineNetworkMode(args, Profiles.DefaultProfile(), DefaultConfig()) == Offline
  {
    NetworkModeOfExclusive(args);
  }

  // ------------------------------------------------------------ paths

  /** `collect_allow_read_paths`: configuration, then profile, then command
      line, repeats kept. */
  method CollectAllowReadPaths(config: Config, profile: Profiles.Profile, cli: seq<string>) returns (paths: seq<string>)
    ensures paths == config.filesystem.allowRead + profile.filesystem.allowRead + cli
  {
    paths := [];
    paths := paths + config.filesystem.allowRead;
    paths := paths + profile.filesystem.allowRead;
    paths := paths + cli;
  }

  /** `collect_deny_read_paths`. */
  method CollectDenyReadPaths(config: Config, profile: Profiles.Profile, cli: seq<string>) returns (paths: seq<string>)
    ensures paths == config.filesystem.denyRead + profile.filesystem.denyRead + cli
  {
    paths := [];
    paths := paths + config.filesystem.denyRead;
    paths := paths + profile.filesystem.denyRead;
    paths := paths + cli;
  }

  /** `collect_allow_write_paths`. */
  method CollectAllowWritePaths(config: Config, profile: Profiles.Profile, cli: seq<string>) returns (paths: seq<string>)
    ensures paths == config.filesystem.allowWrite + profile.filesystem.allowWrite + cli
  {
    paths := [];
    paths := paths + config.filesystem.allowWrite;
    paths := paths + profile.filesystem.allowWrite;
    paths := paths + cli;
  }

  /** `collect_allow_list_dirs_paths`: configuration, then profile; the
      command line has no list-only option. */
  method CollectAllowListDirsPaths(config: Config, profile: Profiles.Profile) returns (paths: seq<string>)
    ensures paths == config.filesystem.allowListDirs + profile.filesystem.allowListDirs
  {
    paths := [];
    paths := paths + config.filesystem.allowListDirs;
    paths := paths + profile.filesystem.allowListDirs;
  }

  /** A collected list keeps every source entry, in source order, and drops
      nothing: nothing a profile or the command line adds can remove a
      configured path. */
  lemma CollectedKeepsSources(a: seq<string>, b: seq<string>, c: seq<string>)
    ensures |a + b + c| == |a| + |b| + |c|
    ensures (a + b + c)[..|a|] == a && (a + b + c)[|a|..|a| + |b|] == b && (a + b + c)[|a| + |b|..] == c
    ensures forall x :: x in a + b + c <==> x in a || x in b || x in c
  {
  }

  // ------------------------------------------------------------ ancestor walk

  /** The paths the walk never adds: the empty path and the root. */
  const Unlistable: set<string> := {"", "/"}

  /** The walk's test on an ancestor: neither empty nor the root. */
  predicate Listable(p: string)
  {
    p !in Unlistable
  }

  /** The ancestors the walk may add: the proper ancestors of `dir` other
      than the empty path and the root. */
  function ListableAncestors(dir: string): (r: seq<string>)
    ensures Elems(r) == Elems(Paths.Ancestors(dir)) - Unlistable
  {
    Without(Paths.Ancestors(dir), Unlistable)
  }

  /** The list-only directories once the ancestors are added: unchanged when
      empty; otherwise each listable ancestor not yet present is appended,
      nearest first. */
  function WithAncestors(dirs: seq<string>, workingDir: string): seq<string>
  {
    if dirs == [] then [] else AppendFresh(dirs, ListableAncestors(workingDir))
  }

  /** The ancestors reachable from an optional parent: that parent and its own
      ancestors. */
  ghost function Chain(parent: Option<string>): seq<string>
  {
    match parent
    case None => []
    case Some(p) => [p] + Paths.Ancestors(p)
  }

  /** The ancestors of a parent are the parent followed by its ancestors. */
  lemma ChainStep(p: string)
    ensures Chain(Some(p)) == [p] + Chain(Paths.Parent(p))
  {
  }

  /** Regrouping a sequence around one element. */
  lemma ConsAssoc<T>(a: seq<T>, x: T, b: seq<T>)
    ensures a + ([x] + b) == (a + [x]) + b
  {
  }

  /** The `while let Some(p) = parent` loop of `build_sandbox_params`. */
  method AddAncestorDirs(dirs: seq<string>, workingDir: string) returns (r: seq<string>)
    ensures r == WithAncestors(dirs, workingDir)
  {
    r := dirs;
    if dirs != [] {
      var parent := Paths.Parent(workingDir);
      ghost var walked: seq<string> := [];
      assert Without(walked, Unlistable) == [];
      assert AppendFresh(dirs, []) == dirs;
      while parent.Some?
        invariant walked + Chain(parent) == Paths.Ancestors(workingDir)
        invariant r == AppendFresh(dirs, Without(walked, Unlistable))
        decreases if parent.Some? then |parent.value| + 1 else 0
      {
        var p := parent.value;
        var next := Paths.Parent(p);
        ghost var rest := Chain(next);
        AppendFreshWithoutSnoc(dirs, walked, p, Unlistable);
        if Listable(p) && p !in r {
          r := r + [p];
        }
        ChainStep(p);
        ConsAssoc(walked, p, rest);
        walked := walked + [p];
        parent := next;
      }
      assert walked == Paths.Ancestors(workingDir);
    }
  }

  /** The walk runs only when some list-only directory is configured; it then
      keeps the configured directories first, adds every proper ancestor of the
      working directory except "" and "/", adds nothing else, and repeats
      nothing the configuration did not already repeat. */
  lemma WithAncestorsFacts(dirs: seq<string>, workingDir: string)
    ensures dirs == [] ==> WithAncestors(dirs, workingDir) == []
    ensures dirs != [] ==>
      var r := WithAncestors(dirs, workingDir);
      && |r| >= |dirs| && r[..|dirs|] == dirs
      && Elems(r) == Elems(dirs) + (Elems(Paths.Ancestors(workingDir)) - {"", "/"})
      && (NoDup(dirs) ==> NoDup(r))
  {
    if dirs != [] {
      AppendFreshFacts(dirs, ListableAncestors(workingDir));
    }
  }

  // ------------------------------------------------------------ parameters

  /** `raw_rules`: the profile's raw Seatbelt text, when it has one. */
  function RawRules(profile: Profiles.Profile): (r: Option<string>)
    ensures r.Some? <==> profile.seatbelt.Some? && profile.seatbelt.value.raw.Some?
    ensures r.Some? ==> r.value == profile.seatbelt.value.raw.value
  {
    match profile.seatbelt
    case None => None
    case Some(s) => s.raw
  }

  /** `build_sandbox_params`. The list-only directories have no field in
      `SandboxParams`, so they are returned beside it. `home` is what
      `dirs::home_dir` reports, used to expand `~`. */
  method BuildSandboxParams(args: Args, config: Config, profile: Profiles.Profile,
                            workingDir: string, homeDir: string,
                            home: Option<string>, shellexpand: string -> Option<string>)
    returns (params: Seatbelt.SandboxParams, allowListDirs: seq<string>)
    ensures params.workingDir == workingDir && params.homeDir == homeDir
    ensures params.networkMode == DetermineNetworkMode(args, profile, config)
    ensures params.allowRead
         == Paths.ExpandPaths(config.filesystem.allowRead + profile.filesystem.allowRead + args.allowRead, home, shellexpand)
    ensures params.denyRead
         == Paths.ExpandPaths(config.filesystem.denyRead + profile.filesystem.denyRead + args.denyRead, home, shellexpand)
    ensures params.allowWrite
         == Paths.ExpandPaths(config.filesystem.allowWrite + profile.filesystem.allowWrite + args.allowWrite, home, shellexpand)
    ensures allowListDirs == Paths.ExpandPaths(
      WithAncestors(config.filesystem.allowListDirs + profile.filesystem.allowListDirs, workingDir), home, shellexpand)
    ensures params.rawRules == RawRules(profile)
  {
    var networkMode := DetermineNetworkMode(args, profile, config);
    var allowRead := CollectAllowReadPaths(config, profile, args.allowRead);
    var denyRead := CollectDenyReadPaths(config, profile, args.denyRead);
    var allowWrite := CollectAllowWritePaths(config, profile, args.allowWrite);
    var listDirs := CollectAllowListDirsPaths(config, profile);
    listDirs := AddAncestorDirs(listDirs, workingDir);
    allowRead := Paths.ExpandPaths(allowRead, home, shellexpand);
    denyRead := Paths.ExpandPaths(denyRead, home, shellexpand);
    allowWrite := Paths.ExpandPaths(allowWrite, home, shellexpand);
    allowListDirs := Paths.ExpandPaths(listDirs, home, shellexpand);
    var rawRules := RawRules(profile);
    params := Seatbelt.SandboxParams(workingDir, homeDir, networkMode, allowRead, denyRead, allowWrite, rawRules);
  }

  /** Expansion keeps every entry, in place. */
  lemma ExpandedMember(paths: seq<string>, x: string, home: Option<string>, shellexpand: string -> Option<string>)
    requires x in paths
    ensures Paths.ExpandPath(x, home, shellexpand) in Paths.ExpandPaths(paths, home, shellexpand)
  {
    var i :| 0 <= i < |paths| && paths[i] == x;
    assert Paths.ExpandPaths(paths, home, shellexpand)[i] == Paths.ExpandPath(x, home, shellexpand);
  }

  /** A denied path, wherever it was configured, is denied in the generated
      policy: its expanded form gets a deny-read rule in the policy text. */
  lemma ConfiguredDenyReachesPolicy(params: Seatbelt.SandboxParams, config: Config, profile: Profiles.Profile, args: Args,
                                    x: string, home: Option<string>, shellexpand: string -> Option<string>)
    requires params.denyRead
          == Paths.ExpandPaths(config.filesystem.denyRead + profile.filesystem.denyRead + args.denyRead, home, shellexpand)
    requires x in config.filesystem.denyRead || x in profile.filesystem.denyRead || x in args.denyRead
    ensures Text.Contains(Seatbelt.ProfileText(params),
                          Seatbelt.SubpathRule(Seatbelt.DenyReadVerb, Paths.ExpandPath(x, home, shellexpand)))
  {
    var all := config.filesystem.denyRead + profile.filesystem.denyRead + args.denyRead;
    ExpandedMember(all, x, home, shellexpand);
    var e := Paths.ExpandPath(x, home, shellexpand);
    var i :| 0 <= i < |params.denyRead| && params.denyRead[i] == e;
    Seatbelt.PathRulesOccur(params, Seatbelt.DenyReadList);
    assert Seatbelt.Paths(params, Seatbelt.DenyReadList) == params.denyRead;
    assert Seatbelt.Verb(Seatbelt.DenyReadList) == Seatbelt.DenyReadVerb;
    var off := Seatbelt.Offset(params, Seatbelt.RuleIndex(params, Seatbelt.DenyReadList, i));
    assert Text.OccursAt(Seatbelt.ProfileText(params), Seatbelt.SubpathRule(Seatbelt.DenyReadVerb, e), off);
  }
}
