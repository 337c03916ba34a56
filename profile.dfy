/** Composable sandbox profiles (src/config/profile.rs): the profile record, the
    table of built-in profile names, the order in which a profile name is
    resolved, and the composition of several profiles into one. Reading files,
    parsing TOML and the embedded built-in profile texts are parameters. */
module Profiles {
  import opened Common
  import opened Lists
  import opened Schema
  import Paths

  datatype ProfileFilesystem = ProfileFilesystem(
    allowRead: seq<string>,
    denyRead: seq<string>,
    allowWrite: seq<string>,
    allowListDirs: seq<string>)

  datatype ProfileShell = ProfileShell(passEnv: seq<string>, denyEnv: seq<string>)

  /** Raw Seatbelt rules given by a profile. */
  datatype ProfileSeatbelt = ProfileSeatbelt(raw: Option<string>)

  datatype Profile = Profile(
    networkMode: Option<NetworkMode>,
    filesystem: ProfileFilesystem,
    shell: ProfileShell,
    seatbelt: Option<ProfileSeatbelt>)

  /** `Profile::default()`: no network mode, empty lists, no raw rules. */
  function DefaultProfile(): (p: Profile)
    ensures p.networkMode.None? && p.seatbelt.None?
    ensures p.filesystem.allowRead == [] && p.filesystem.denyRead == []
    ensures p.filesystem.allowWrite == [] && p.filesystem.allowListDirs == []
    ensures p.shell.passEnv == [] && p.shell.denyEnv == []
  {
    Profile(None, ProfileFilesystem([], [], [], []), ProfileShell([], []), None)
  }

  // ---------------------------------------------------------------- built-ins

  datatype BuiltinProfile = Base | Online | Localhost | Rust | Claude | Gpg | Bun | Opencode

  /** `BuiltinProfile::from_name`. */
  function FromName(name: string): (r: Option<BuiltinProfile>)
    ensures r.Some? ==> Name(r.value) == name
  {
    match name
    case "base" => Some(Base)
    case "online" => Some(BuiltinProfile.Online)
    case "localhost" => Some(BuiltinProfile.Localhost)
    case "rust" => Some(Rust)
    case "claude" => Some(Claude)
    case "gpg" => Some(Gpg)
    case "bun" => Some(Bun)
    case "opencode" => Some(Opencode)
    case _ => None
  }

  /** `BuiltinProfile::name`. */
  function Name(b: BuiltinProfile): (r: string)
    ensures r != [] && forall i :: 0 <= i < |r| ==> 'a' <= r[i] <= 'z'
  {
    match b
    case Base => "base"
    case Online => "online"
    case Localhost => "localhost"
    case Rust => "rust"
    case Claude => "claude"
    case Gpg => "gpg"
    case Bun => "bun"
    case Opencode => "opencode"
  }

  /** `from_name` inverts `name`, and recognises no other string. */
  lemma BuiltinNameRoundTrip(b: BuiltinProfile, s: string)
    ensures FromName(Name(b)) == Some(b)
    ensures FromName(s) == Some(b) <==> Name(b) == s
  {
  }

  // ---------------------------------------------------------------- resolution

  /** Everything `load_profiles` reads from the outside world. */
  datatype ProfileSources = ProfileSources(
    /** `BuiltinProfile::load`: the embedded profile, or `None` if its TOML is invalid. */
    builtin: BuiltinProfile -> Option<Profile>,
    /** The optional custom profile directory. */
    customDir: Option<string>,
    /** `dirs::config_dir()`. */
    configDir: Option<string>,
    /** `Path::exists`. */
    fileExists: string -> bool,
    /** `load_profile`: reading and parsing a file, `None` on either error. */
    loadFile: string -> Option<Profile>)

  /** `<dir>/<name>.toml`. */
  function CustomPath(dir: string, name: string): string
  {
    Paths.Join(dir, name + ".toml")
  }

  /** `<config_dir>/sx/profiles/<name>.toml`. */
  function UserPath(configDir: string, name: string): string
  {
    Paths.Join(Paths.Join(configDir, "sx/profiles"), name + ".toml")
  }

  /** The closure given to `filter_map` in `load_profiles`: a built-in name, else
      an existing custom file, else an existing user file, else the built-in
      `online` profile. Each step that applies is final, even when loading fails. */
  function ResolveProfile(name: string, src: ProfileSources): (r: Option<Profile>)
    ensures FromName(name).Some? ==> r == src.builtin(FromName(name).value)
    ensures FromName(name).None? && r != src.builtin(BuiltinProfile.Online) ==>
      (src.customDir.Some? && src.fileExists(CustomPath(src.customDir.value, name)))
      || (src.configDir.Some? && src.fileExists(UserPath(src.configDir.value, name)))
  {
    match FromName(name)
    case Some(b) => src.builtin(b)
    case None =>
      if src.customDir.Some? && src.fileExists(CustomPath(src.customDir.value, name)) then
        src.loadFile(CustomPath(src.customDir.value, name))
      else if src.configDir.Some? && src.fileExists(UserPath(src.configDir.value, name)) then
        src.loadFile(UserPath(src.configDir.value, name))
      else
        src.builtin(BuiltinProfile.Online)
  }

  /** A built-in name is resolved from the embedded table alone: the files and
      directories are never consulted. */
  lemma ResolveBuiltinIgnoresFiles(name: string, src: ProfileSources, other: ProfileSources)
    requires FromName(name).Some?
    requires other.builtin == src.builtin
    ensures ResolveProfile(name, src) == ResolveProfile(name, other)
    ensures ResolveProfile(name, src) == src.builtin(FromName(name).value)
  {
  }

  /** An existing custom file wins over the user directory, and if it cannot be
      loaded the name is dropped rather than looked up further. */
  lemma ResolveCustomFirst(name: string, src: ProfileSources)
    requires FromName(name).None? && src.customDir.Some?
    requires src.fileExists(CustomPath(src.customDir.value, name))
    ensures ResolveProfile(name, src) == src.loadFile(CustomPath(src.customDir.value, name))
  {
  }

  /** Without a custom file, an existing user file is loaded (or the name dropped). */
  lemma ResolveUserSecond(name: string, src: ProfileSources)
    requires FromName(name).None?
    requires src.customDir.None? || !src.fileExists(CustomPath(src.customDir.value, name))
    requires src.configDir.Some? && src.fileExists(UserPath(src.configDir.value, name))
    ensures ResolveProfile(name, src) == src.loadFile(UserPath(src.configDir.value, name))
  {
  }

  /** A name found nowhere resolves exactly as "online" does. */
  lemma ResolveUnknownIsOnline(name: string, src: ProfileSources)
    requires FromName(name).None?
    requires src.customDir.None? || !src.fileExists(CustomPath(src.customDir.value, name))
    requires src.configDir.None? || !src.fileExists(UserPath(src.configDir.value, name))
    ensures ResolveProfile(name, src) == ResolveProfile("online", src)
  {
  }

  /** `load_profiles`: the names that resolve, in input order. */
  function LoadProfiles(names: seq<string>, src: ProfileSources): (r: seq<Profile>)
    ensures |r| <= |names|
  {
    if names == [] then []
    else
      var last := ResolveProfile(names[|names| - 1], src);
      LoadProfiles(names[..|names| - 1], src) + (if last.Some? then [last.value] else [])
  }

  /** Loading distributes over concatenation of the name list: order is kept. */
  lemma {:induction false} LoadProfilesAppend(a: seq<string>, b: seq<string>, src: ProfileSources)
    ensures LoadProfiles(a + b, src) == LoadProfiles(a, src) + LoadProfiles(b, src)
  {
    if b == [] {
      assert a + b == a;
    } else {
      assert (a + b)[..|a + b| - 1] == a + b[..|b| - 1];
      LoadProfilesAppend(a, b[..|b| - 1], src);
    }
  }

  /** When every name resolves, nothing is dropped and the i-th profile is the i-th name's. */
  lemma {:induction false} LoadProfilesAllResolve(names: seq<string>, src: ProfileSources)
    requires forall i :: 0 <= i < |names| ==> ResolveProfile(names[i], src).Some?
    ensures |LoadProfiles(names, src)| == |names|
    ensures forall i :: 0 <= i < |names| ==> LoadProfiles(names, src)[i] == ResolveProfile(names[i], src).value
  {
    if names != [] {
      LoadProfilesAllResolve(names[..|names| - 1], src);
    }
  }

  // ---------------------------------------------------------------- composition

  /** The specification of `merge_unique`: `target`, then every item of `source`
      not in the original `target`, repeats within `source` kept. */
  function MergeSnapshot(target: seq<string>, source: seq<string>): (r: seq<string>)
    ensures |r| >= |target| && r[..|target|] == target
  {
    var w := Without(source, Elems(target));
    assert (target + w)[..|target|] == target;
    target + w
  }

  /** `merge_unique`: appends to `target` the source items absent from a snapshot
      of `target` taken before the loop. */
  method MergeUnique(target: seq<string>, source: seq<string>) returns (merged: seq<string>)
    ensures merged == MergeSnapshot(target, source)
  {
    var existing := Elems(target);
    merged := target;
    for i := 0 to |source|
      invariant merged == target + Without(source[..i], existing)
    {
      var item := source[i];
      WithoutSnoc(source[..i], item, existing);
      assert source[..i + 1] == source[..i] + [item];
      if item !in existing {
        merged := merged + [item];
      }
    }
    assert source[..|source|] == source;
  }

  /** What callers rely on besides the prefix: the elements are the union, and
      two duplicate-free inputs give a duplicate-free result. */
  lemma MergeSnapshotFacts(target: seq<string>, source: seq<string>)
    ensures Elems(MergeSnapshot(target, source)) == Elems(target) + Elems(source)
    ensures NoDup(target) && NoDup(source) ==> NoDup(MergeSnapshot(target, source))
  {
    var w := Without(source, Elems(target));
    var r := target + w;
    assert Elems(r) == Elems(target) + Elems(w);
    if NoDup(target) && NoDup(source) {
      WithoutNoDup(source, Elems(target));
      forall i, j | 0 <= i < j < |r| ensures r[i] != r[j] {
        if i < |target| && j >= |target| {
          assert r[j] == w[j - |target|] && r[j] in Elems(w);
        }
      }
    }
  }

  /** Unlike `merge_unique_strings`, `merge_unique` keeps a repeat inside the source. */
  lemma MergeSnapshotKeepsRepeats()
    ensures MergeSnapshot([], ["x", "x"]) == ["x", "x"]
    ensures AppendFresh([], ["x", "x"]) == ["x"]
  {
    var s: seq<string> := ["x", "x"];
    assert s[..1] == ["x"] && s[..1][..0] == [];
    assert Without(s[..1], {}) == ["x"];
    assert Dedup(s[..1]) == ["x"];
  }

  /** On a duplicate-free source the two merges agree. */
  lemma MergeSnapshotOfNoDup(target: seq<string>, source: seq<string>)
    requires NoDup(source)
    ensures MergeSnapshot(target, source) == AppendFresh(target, source)
  {
    WithoutNoDup(source, Elems(target));
    DedupOfNoDup(Without(source, Elems(target)));
  }

  /** One iteration of the loop in `compose_profiles`. */
  function ComposeStep(acc: Profile, p: Profile): Profile
  {
    Profile(
      if p.networkMode.Some? then p.networkMode else acc.networkMode,
      ProfileFilesystem(
        MergeSnapshot(acc.filesystem.allowRead, p.filesystem.allowRead),
        MergeSnapshot(acc.filesystem.denyRead, p.filesystem.denyRead),
        MergeSnapshot(acc.filesystem.allowWrite, p.filesystem.allowWrite),
        MergeSnapshot(acc.filesystem.allowListDirs, p.filesystem.allowListDirs)),
      ProfileShell(
        MergeSnapshot(acc.shell.passEnv, p.shell.passEnv),
        MergeSnapshot(acc.shell.denyEnv, p.shell.denyEnv)),
      acc.seatbelt)
  }

  /** The specification of `compose_profiles`: the default profile folded with
      `ComposeStep` over the list, left to right. */
  function Compose(ps: seq<Profile>): (r: Profile)
    ensures r.seatbelt.None?
  {
    if ps == [] then DefaultProfile() else ComposeStep(Compose(ps[..|ps| - 1]), ps[|ps| - 1])
  }

  /** `compose_profiles`. */
  method ComposeProfiles(profiles: seq<Profile>) returns (result: Profile)
    ensures result == Compose(profiles)
  {
    result := DefaultProfile();
    for i := 0 to |profiles|
      invariant result == Compose(profiles[..i])
    {
      ghost var before := result;
      var profile := profiles[i];
      if profile.networkMode.Some? {
        result := result.(networkMode := profile.networkMode);
      }
      var allowRead := MergeUnique(result.filesystem.allowRead, profile.filesystem.allowRead);
      var denyRead := MergeUnique(result.filesystem.denyRead, profile.filesystem.denyRead);
      var allowWrite := MergeUnique(result.filesystem.allowWrite, profile.filesystem.allowWrite);
      var allowListDirs := MergeUnique(result.filesystem.allowListDirs, profile.filesystem.allowListDirs);
      result := result.(filesystem := ProfileFilesystem(allowRead, denyRead, allowWrite, allowListDirs));
      var passEnv := MergeUnique(result.shell.passEnv, profile.shell.passEnv);
      var denyEnv := MergeUnique(result.shell.denyEnv, profile.shell.denyEnv);
      result := result.(shell := ProfileShell(passEnv, denyEnv));
      assert result == ComposeStep(before, profile);
      assert profiles[..i + 1][..i] == profiles[..i];
    }
    assert profiles[..|profiles|] == profiles;
  }

  /** Composing nothing gives the default profile. */
  lemma ComposeEmpty()
    ensures Compose([]) == DefaultProfile()
  {
  }

  /** The mode of the last profile that sets one, if any. */
  function LastMode(ps: seq<Profile>): Option<NetworkMode>
  {
    if ps == [] then None
    else if ps[|ps| - 1].networkMode.Some? then ps[|ps| - 1].networkMode
    else LastMode(ps[..|ps| - 1])
  }

  /** The composed network mode is that of the last profile that sets one, and
      `None` when none does. */
  lemma ComposeNetworkMode(ps: seq<Profile>)
    ensures Compose(ps).networkMode.None? <==> forall i :: 0 <= i < |ps| ==> ps[i].networkMode.None?
    ensures Compose(ps).networkMode.Some? ==>
      exists k :: 0 <= k < |ps| && ps[k].networkMode == Compose(ps).networkMode
        && forall j :: k < j < |ps| ==> ps[j].networkMode.None?
  {
    ComposeModeIsLastMode(ps);
    LastModeFacts(ps);
  }

  /** Only the modes matter to the composed mode. */
  lemma {:induction false} ComposeModeIsLastMode(ps: seq<Profile>)
    ensures Compose(ps).networkMode == LastMode(ps)
  {
    if ps != [] {
      ComposeModeIsLastMode(ps[..|ps| - 1]);
      ComposeLastMode(ps);
    }
  }

  /** One step of the fold: the last profile's mode if it sets one, else the
      mode composed so far. */
  lemma ComposeLastMode(ps: seq<Profile>)
    requires ps != []
    ensures Compose(ps).networkMode
         == if ps[|ps| - 1].networkMode.Some? then ps[|ps| - 1].networkMode else Compose(ps[..|ps| - 1]).networkMode
  {
  }

  lemma {:induction false} LastModeFacts(ps: seq<Profile>)
    ensures LastMode(ps).None? <==> forall i :: 0 <= i < |ps| ==> ps[i].networkMode.None?
    ensures LastMode(ps).Some? ==>
      exists k :: 0 <= k < |ps| && ps[k].networkMode == LastMode(ps)
        && forall j :: k < j < |ps| ==> ps[j].networkMode.None?
  {
    if ps != [] {
      var init := ps[..|ps| - 1];
      var last := ps[|ps| - 1];
      LastModeFacts(init);
      if last.networkMode.Some? {
        assert ps[|ps| - 1].networkMode == LastMode(ps);
      } else if LastMode(init).Some? {
        var k :| 0 <= k < |init| && init[k].networkMode == LastMode(init)
          && forall j :: k < j < |init| ==> init[j].networkMode.None?;
        assert ps[k] == init[k];
        assert forall j :: k < j < |ps| ==> ps[j].networkMode.None? by {
          forall j | k < j < |ps| ensures ps[j].networkMode.None? {
            if j < |init| { assert ps[j] == init[j]; }
          }
        }
      } else {
        assert forall i :: 0 <= i < |ps| ==> ps[i].networkMode.None? by {
          forall i | 0 <= i < |ps| ensures ps[i].networkMode.None? {
            if i < |init| { assert ps[i] == init[i]; }
          }
        }
      }
    }
  }

  /** The six list settings of a profile, named so that one lemma covers all. */
  datatype ListField = AllowRead | DenyRead | AllowWrite | AllowListDirs | PassEnv | DenyEnv

  function Field(p: Profile, f: ListField): seq<string>
  {
    match f
    case AllowRead => p.filesystem.allowRead
    case DenyRead => p.filesystem.denyRead
    case AllowWrite => p.filesystem.allowWrite
    case AllowListDirs => p.filesystem.allowListDirs
    case PassEnv => p.shell.passEnv
    case DenyEnv => p.shell.denyEnv
  }

  /** The union of one list setting over all profiles. */
  function UnionOf(ps: seq<Profile>, f: ListField): set<string>
  {
    if ps == [] then {} else UnionOf(ps[..|ps| - 1], f) + Elems(Field(ps[|ps| - 1], f))
  }

  lemma FieldOfStep(acc: Profile, p: Profile, f: ListField)
    ensures Field(ComposeStep(acc, p), f) == MergeSnapshot(Field(acc, f), Field(p, f))
  {
  }

  /** A single profile composes to itself, list by list. */
  lemma ComposeSingle(p: Profile, f: ListField)
    ensures Field(Compose([p]), f) == Field(p, f)
  {
    assert [p][..0] == [];
    assert Compose([p]) == ComposeStep(DefaultProfile(), p);
    FieldOfStep(DefaultProfile(), p, f);
    assert Elems(Field(DefaultProfile(), f)) == {};
    WithoutNothing(Field(p, f));
  }

  /** Each composed list holds exactly the union of that list over the inputs. */
  lemma {:induction false} ComposeFieldElems(ps: seq<Profile>, f: ListField)
    ensures Elems(Field(Compose(ps), f)) == UnionOf(ps, f)
  {
    if ps != [] {
      var init := ps[..|ps| - 1];
      ComposeFieldElems(init, f);
      FieldOfStep(Compose(init), ps[|ps| - 1], f);
      MergeSnapshotFacts(Field(Compose(init), f), Field(ps[|ps| - 1], f));
    }
  }

  /** With duplicate-free inputs, each composed list is duplicate-free and as long
      as the union it holds. */
  lemma {:induction false} ComposeFieldNoDup(ps: seq<Profile>, f: ListField)
    requires forall i :: 0 <= i < |ps| ==> NoDup(Field(ps[i], f))
    ensures NoDup(Field(Compose(ps), f))
    ensures |Field(Compose(ps), f)| == |UnionOf(ps, f)|
  {
    if ps != [] {
      var init := ps[..|ps| - 1];
      assert forall i :: 0 <= i < |init| ==> NoDup(Field(init[i], f)) by {
        forall i | 0 <= i < |init| ensures NoDup(Field(init[i], f)) {
          assert init[i] == ps[i];
        }
      }
      ComposeFieldNoDup(init, f);
      FieldOfStep(Compose(init), ps[|ps| - 1], f);
      MergeSnapshotFacts(Field(Compose(init), f), Field(ps[|ps| - 1], f));
    }
    ComposeFieldElems(ps, f);
    NoDupCard(Field(Compose(ps), f));
  }
}
