/** Generation of the Seatbelt (`sandbox-exec`) policy text
    (src/sandbox/seatbelt.rs). The policy is written piece by piece into one
    string; `Pieces` lists those pieces in order and the generator is proved to
    produce their concatenation. */
module Seatbelt {
  import opened Common
  import opened Text
  import opened Schema

  /** `SandboxParams`: paths are strings, `display()` is the identity on them. */
  datatype SandboxParams = SandboxParams(
    workingDir: string,
    homeDir: string,
    networkMode: NetworkMode,
    allowRead: seq<string>,
    denyRead: seq<string>,
    allowWrite: seq<string>,
    rawRules: Option<string>)

  /** `(<body>)` and a newline: a rule with no argument list of its own. */
  function Rule(body: string): string
  {
    "(" + body + ")\n"
  }

  /** `(<verb> (subpath "<path>"))` and a newline: the form of every rule about a
      path, including the fixed device rules. */
  function SubpathRule(verb: string, path: string): string
  {
    "(" + verb + " (subpath \"" + path + "\"))\n"
  }

  /** `(allow <op> (<dir> ip "<addr>"))` and a newline: a localhost network rule. */
  function IpRule(op: string, dir: string, addr: string): string
  {
    "(allow " + op + " (" + dir + " ip \"" + addr + "\"))\n"
  }

  const WorkingDirVerb := "allow file*"
  const DenyReadVerb := "deny file-read*"
  const AllowReadVerb := "allow file-read*"
  const AllowWriteVerb := "allow file-write*"

  const DenyReadComment := "\n; Denied read paths\n"
  const AllowReadComment := "\n; Allowed read paths\n"
  const AllowWriteComment := "\n; Allowed write paths\n"

  /** Header, process, system-read and mach rules, and the working-directory
      comment: written for every input. */
  const Preamble: seq<string> := [
    Rule("version 1"),
    Rule("deny default") + "\n",
    "; Process operations\n",
    Rule("allow process-fork"),
    Rule("allow process-exec"),
    Rule(SignalSelf) + "\n",
    "; System read access\n",
    Rule("allow sysctl-read"),
    Rule("allow file-read-metadata"),
    "\n; Mach services\n",
    Rule("allow mach-lookup"),
    "\n; Working directory (full access)\n"]

  const SignalSelf := "allow signal (target self)"

  /** The blocks of the preamble, in the order they are written. */
  const HeaderPieces: seq<string> := [Rule("version 1"), Rule("deny default") + "\n"]
  const ProcessPieces: seq<string> := [
    "; Process operations\n",
    Rule("allow process-fork"),
    Rule("allow process-exec"),
    Rule(SignalSelf) + "\n"]
  const SystemPieces: seq<string> := [
    "; System read access\n",
    Rule("allow sysctl-read"),
    Rule("allow file-read-metadata"),
    "\n; Mach services\n",
    Rule("allow mach-lookup")]
  const WorkingDirComment := "\n; Working directory (full access)\n"

  lemma PreambleBlocks()
    ensures Preamble == HeaderPieces + ProcessPieces + SystemPieces + [WorkingDirComment]
  {
  }

  /** Five pushes in a row append the five pieces. */
  lemma SnocFive<T>(p: seq<T>, a: T, b: T, c: T, d: T, e: T)
    ensures p + [a] + [b] + [c] + [d] + [e] == p + [a, b, c, d, e]
  {
  }

  lemma SnocFour<T>(p: seq<T>, a: T, b: T, c: T, d: T)
    ensures p + [a] + [b] + [c] + [d] == p + [a, b, c, d]
  {
  }

  /** The full-access rule for the working directory, written only when the
      directory is not the empty path. */
  function WorkingDirPieces(wd: string): seq<string>
  {
    if wd == [] then [] else [SubpathRule(WorkingDirVerb, wd)]
  }

  /** One rule per path, in input order. */
  function PathRules(verb: string, paths: seq<string>): (r: seq<string>)
    ensures |r| == |paths|
    ensures forall i :: 0 <= i < |paths| ==> r[i] == SubpathRule(verb, paths[i])
  {
    seq(|paths|, i requires 0 <= i < |paths| => SubpathRule(verb, paths[i]))
  }

  /** A commented block of path rules; nothing at all for an empty list. */
  function PathSection(comment: string, verb: string, paths: seq<string>): seq<string>
  {
    if paths == [] then [] else [comment] + PathRules(verb, paths)
  }

  const DevicePieces: seq<string> := [
    "\n; Device access\n",
    SubpathRule(AllowReadVerb, "/dev"),
    SubpathRule(AllowWriteVerb, "/dev/null"),
    SubpathRule(AllowWriteVerb, "/dev/tty"),
    SubpathRule("allow file-ioctl", "/dev")]

  const NetworkComment := "\n; Network access\n"

  /** The rules that follow the network comment, by mode. */
  function NetworkRules(mode: NetworkMode): seq<string>
  {
    match mode
    case Offline => ["; Network disabled (offline mode)\n"]
    case Online => [Rule("allow network*")]
    case Localhost => [
      IpRule("network-outbound", "to", "localhost:*"),
      IpRule("network-outbound", "to", "127.0.0.1:*"),
      IpRule("network-inbound", "from", "localhost:*"),
      IpRule("network-inbound", "from", "127.0.0.1:*")]
  }

  const RawComment := "\n; Custom rules\n"

  /** The raw rules verbatim, after a comment and followed by a newline. */
  function RawPieces(raw: Option<string>): seq<string>
  {
    match raw
    case None => []
    case Some(r) => [RawComment, r, "\n"]
  }

  /** The pieces up to and including the network comment: everything that does
      not depend on the network mode or the raw rules. */
  function FilePieces(params: SandboxParams): seq<string>
  {
    Preamble
    + WorkingDirPieces(params.workingDir)
    + PathSection(DenyReadComment, DenyReadVerb, params.denyRead)
    + PathSection(AllowReadComment, AllowReadVerb, params.allowRead)
    + PathSection(AllowWriteComment, AllowWriteVerb, params.allowWrite)
    + DevicePieces
    + [NetworkComment]
  }

  /** Every piece the generator writes, in the order it writes them. */
  function Pieces(params: SandboxParams): seq<string>
  {
    FilePieces(params) + NetworkRules(params.networkMode) + RawPieces(params.rawRules)
  }

  /** The policy text: the pieces, concatenated. */
  function ProfileText(params: SandboxParams): string
  {
    Concat(Pieces(params))
  }

  /** `String::push_str`, keeping track of the pieces written so far. */
  method PushStr(profile: string, ghost pieces: seq<string>, s: string)
      returns (extended: string, ghost extendedPieces: seq<string>)
    requires profile == Concat(pieces)
    ensures extended == profile + s && extendedPieces == pieces + [s]
    ensures extended == Concat(extendedPieces)
  {
    extended := profile + s;
    extendedPieces := pieces + [s];
    assert extendedPieces[..|extendedPieces| - 1] == pieces;
  }

  lemma PathRulesSnoc(before: seq<string>, verb: string, paths: seq<string>, i: nat)
    requires i < |paths|
    ensures before + PathRules(verb, paths[..i]) + [SubpathRule(verb, paths[i])]
         == before + PathRules(verb, paths[..i + 1])
  {
    assert PathRules(verb, paths[..i + 1]) == PathRules(verb, paths[..i]) + [SubpathRule(verb, paths[i])];
  }

  /** Writes one commented block of path rules, unless the list is empty. */
  method PushPathSection(profile: string, ghost pieces: seq<string>, comment: string, verb: string, paths: seq<string>)
      returns (extended: string, ghost extendedPieces: seq<string>)
    requires profile == Concat(pieces)
    ensures extendedPieces == pieces + PathSection(comment, verb, paths)
    ensures extended == Concat(extendedPieces)
    ensures extended == profile + Concat(PathSection(comment, verb, paths))
  {
    extended, extendedPieces := profile, pieces;
    if paths != [] {
      extended, extendedPieces := PushStr(extended, extendedPieces, comment);
      ghost var header := extendedPieces;
      for i := 0 to |paths|
        invariant extendedPieces == header + PathRules(verb, paths[..i])
        invariant extended == Concat(extendedPieces)
      {
        extended, extendedPieces := PushStr(extended, extendedPieces, SubpathRule(verb, paths[i]));
        PathRulesSnoc(header, verb, paths, i);
      }
      assert paths[..|paths|] == paths;
    }
    ConcatAppend(pieces, PathSection(comment, verb, paths));
  }

  /** The version header and the default-deny rule. */
  method PushHeader(profile: string, ghost pieces: seq<string>)
      returns (extended: string, ghost extendedPieces: seq<string>)
    requires profile == Concat(pieces)
    ensures extendedPieces == pieces + HeaderPieces && extended == Concat(extendedPieces)
    ensures extended == profile + Concat(HeaderPieces)
  {
    extended, extendedPieces := PushStr(profile, pieces, Rule("version 1"));
    extended, extendedPieces := PushStr(extended, extendedPieces, Rule("deny default") + "\n");
    ConcatAppend(pieces, HeaderPieces);
  }

  /** The process operations. */
  method PushProcessRules(profile: string, ghost pieces: seq<string>)
      returns (extended: string, ghost extendedPieces: seq<string>)
    requires profile == Concat(pieces)
    ensures extendedPieces == pieces + ProcessPieces && extended == Concat(extendedPieces)
    ensures extended == profile + Concat(ProcessPieces)
  {
    var fork, exec, signal := Rule("allow process-fork"), Rule("allow process-exec"), Rule(SignalSelf) + "\n";
    extended, extendedPieces := PushStr(profile, pieces, "; Process operations\n");
    extended, extendedPieces := PushStr(extended, extendedPieces, fork);
    extended, extendedPieces := PushStr(extended, extendedPieces, exec);
    extended, extendedPieces := PushStr(extended, extendedPieces, signal);
    SnocFour(pieces, "; Process operations\n", fork, exec, signal);
    ConcatAppend(pieces, ProcessPieces);
  }

  /** System read access and Mach services. */
  method PushSystemRules(profile: string, ghost pieces: seq<string>)
      returns (extended: string, ghost extendedPieces: seq<string>)
    requires profile == Concat(pieces)
    ensures extendedPieces == pieces + SystemPieces && extended == Concat(extendedPieces)
    ensures extended == profile + Concat(SystemPieces)
  {
    var sysctl, metadata, mach := Rule("allow sysctl-read"), Rule("allow file-read-metadata"), Rule("allow mach-lookup");
    extended, extendedPieces := PushStr(profile, pieces, "; System read access\n");
    extended, extendedPieces := PushStr(extended, extendedPieces, sysctl);
    extended, extendedPieces := PushStr(extended, extendedPieces, metadata);
    extended, extendedPieces := PushStr(extended, extendedPieces, "\n; Mach services\n");
    extended, extendedPieces := PushStr(extended, extendedPieces, mach);
    SnocFive(pieces, "; System read access\n", sysctl, metadata, "\n; Mach services\n", mach);
    ConcatAppend(pieces, SystemPieces);
  }

  /** The fixed opening of the policy. */
  method PushPreamble() returns (profile: string, ghost pieces: seq<string>)
    ensures pieces == Preamble && profile == Concat(pieces)
    ensures profile == Concat(Preamble)
  {
    profile, pieces := PushHeader("", []);
    profile, pieces := PushProcessRules(profile, pieces);
    profile, pieces := PushSystemRules(profile, pieces);
    profile, pieces := PushStr(profile, pieces, WorkingDirComment);
    PreambleBlocks();
    assert pieces == [] + HeaderPieces + ProcessPieces + SystemPieces + [WorkingDirComment];
  }

  /** The fixed device rules. */
  method PushDevices(profile: string, ghost pieces: seq<string>)
      returns (extended: string, ghost extendedPieces: seq<string>)
    requires profile == Concat(pieces)
    ensures extendedPieces == pieces + DevicePieces
    ensures extended == Concat(extendedPieces)
    ensures extended == profile + Concat(DevicePieces)
  {
    extended, extendedPieces := PushStr(profile, pieces, "\n; Device access\n");
    extended, extendedPieces := PushStr(extended, extendedPieces, SubpathRule(AllowReadVerb, "/dev"));
    extended, extendedPieces := PushStr(extended, extendedPieces, SubpathRule(AllowWriteVerb, "/dev/null"));
    extended, extendedPieces := PushStr(extended, extendedPieces, SubpathRule(AllowWriteVerb, "/dev/tty"));
    extended, extendedPieces := PushStr(extended, extendedPieces, SubpathRule("allow file-ioctl", "/dev"));
    ConcatAppend(pieces, DevicePieces);
  }

  /** The network rules of one mode. */
  method PushNetworkRules(profile: string, ghost pieces: seq<string>, mode: NetworkMode)
      returns (extended: string, ghost extendedPieces: seq<string>)
    requires profile == Concat(pieces)
    ensures extendedPieces == pieces + NetworkRules(mode)
    ensures extended == Concat(extendedPieces)
    ensures extended == profile + Concat(NetworkRules(mode))
  {
    match mode {
      case Offline =>
        extended, extendedPieces := PushStr(profile, pieces, "; Network disabled (offline mode)\n");
      case Online =>
        extended, extendedPieces := PushStr(profile, pieces, Rule("allow network*"));
      case Localhost =>
        extended, extendedPieces := PushStr(profile, pieces, IpRule("network-outbound", "to", "localhost:*"));
        extended, extendedPieces := PushStr(extended, extendedPieces, IpRule("network-outbound", "to", "127.0.0.1:*"));
        extended, extendedPieces := PushStr(extended, extendedPieces, IpRule("network-inbound", "from", "localhost:*"));
        extended, extendedPieces := PushStr(extended, extendedPieces, IpRule("network-inbound", "from", "127.0.0.1:*"));
    }
    ConcatAppend(pieces, NetworkRules(mode));
  }

  /** The raw rules, when there are any. */
  method PushRawRules(profile: string, ghost pieces: seq<string>, raw: Option<string>)
      returns (extended: string, ghost extendedPieces: seq<string>)
    requires profile == Concat(pieces)
    ensures extendedPieces == pieces + RawPieces(raw)
    ensures extended == Concat(extendedPieces)
    ensures extended == profile + Concat(RawPieces(raw))
  {
    extended, extendedPieces := profile, pieces;
    if raw.Some? {
      extended, extendedPieces := PushStr(extended, extendedPieces, RawComment);
      extended, extendedPieces := PushStr(extended, extendedPieces, raw.value);
      extended, extendedPieces := PushStr(extended, extendedPieces, "\n");
    }
    ConcatAppend(pieces, RawPieces(raw));
  }

  /** Everything up to and including the network comment. */
  method PushFilePieces(params: SandboxParams) returns (profile: string, ghost pieces: seq<string>)
    ensures pieces == FilePieces(params) && profile == Concat(pieces)
    ensures profile == Concat(FilePieces(params))
  {
    profile, pieces := PushPreamble();
    if params.workingDir != [] {
      profile, pieces := PushStr(profile, pieces, SubpathRule(WorkingDirVerb, params.workingDir));
    }
    ghost var wd := pieces;
    assert wd == Preamble + WorkingDirPieces(params.workingDir);
    profile, pieces := PushPathSection(profile, pieces, DenyReadComment, DenyReadVerb, params.denyRead);
    profile, pieces := PushPathSection(profile, pieces, AllowReadComment, AllowReadVerb, params.allowRead);
    profile, pieces := PushPathSection(profile, pieces, AllowWriteComment, AllowWriteVerb, params.allowWrite);
    profile, pieces := PushDevices(profile, pieces);
    profile, pieces := PushStr(profile, pieces, NetworkComment);
  }

  /** `generate_seatbelt_profile`. */
  method GenerateSeatbeltProfile(params: SandboxParams) returns (profile: string)
    ensures profile == ProfileText(params)
  {
    ghost var pieces: seq<string>;
    profile, pieces := PushFilePieces(params);
    profile, pieces := PushNetworkRules(profile, pieces, params.networkMode);
    profile, pieces := PushRawRules(profile, pieces, params.rawRules);
  }

  // ------------------------------------------------------------ layout

  /** Index of the first deny-read piece (its comment, when there is one). */
  function DenyStart(params: SandboxParams): nat
  {
    |Preamble| + |WorkingDirPieces(params.workingDir)|
  }

  function AllowReadStart(params: SandboxParams): nat
  {
    DenyStart(params) + |PathSection(DenyReadComment, DenyReadVerb, params.denyRead)|
  }

  function AllowWriteStart(params: SandboxParams): nat
  {
    AllowReadStart(params) + |PathSection(AllowReadComment, AllowReadVerb, params.allowRead)|
  }

  function DeviceStart(params: SandboxParams): nat
  {
    AllowWriteStart(params) + |PathSection(AllowWriteComment, AllowWriteVerb, params.allowWrite)|
  }

  /** Index of the network comment. */
  function NetworkStart(params: SandboxParams): nat
  {
    DeviceStart(params) + |DevicePieces|
  }

  /** Index of the first raw piece. */
  function RawStart(params: SandboxParams): nat
  {
    NetworkStart(params) + 1 + |NetworkRules(params.networkMode)|
  }

  lemma AppendPrefix(x: seq<string>, y: seq<string>)
    ensures (x + y)[..|x|] == x
  {
  }

  lemma PrefixOfPrefix(s: seq<string>, n: nat, m: nat)
    requires m <= n <= |s|
    ensures s[..n][..m] == s[..m]
  {
  }

  lemma PrefixIndex(s: seq<string>, n: nat, k: nat)
    requires k < n <= |s|
    ensures s[..n][k] == s[k]
  {
  }

  /** The file pieces are a prefix of all pieces, and the devices and the
      network comment close them. */
  lemma FilePiecesPrefix(params: SandboxParams)
    ensures |FilePieces(params)| == NetworkStart(params) + 1
    ensures Pieces(params)[..|FilePieces(params)|] == FilePieces(params)
    ensures FilePieces(params)[DeviceStart(params)] == DevicePieces[0]
    ensures FilePieces(params)[NetworkStart(params)] == NetworkComment
  {
    var f := FilePieces(params);
    var z := Preamble + WorkingDirPieces(params.workingDir)
             + PathSection(DenyReadComment, DenyReadVerb, params.denyRead)
             + PathSection(AllowReadComment, AllowReadVerb, params.allowRead)
             + PathSection(AllowWriteComment, AllowWriteVerb, params.allowWrite);
    assert f == z + DevicePieces + [NetworkComment];
    var fn := f + NetworkRules(params.networkMode);
    AppendPrefix(f, NetworkRules(params.networkMode));
    AppendPrefix(fn, RawPieces(params.rawRules));
    PrefixOfPrefix(Pieces(params), |fn|, |f|);
  }

  /** The preamble opens the pieces, followed by the working-directory rule when
      there is one. */
  lemma PreambleFirst(params: SandboxParams)
    ensures |Preamble| <= |Pieces(params)|
    ensures Pieces(params)[..|Preamble|] == Preamble
    ensures params.workingDir != [] ==> Pieces(params)[|Preamble|] == SubpathRule(WorkingDirVerb, params.workingDir)
  {
    var w := Preamble + WorkingDirPieces(params.workingDir);
    var x := w + PathSection(DenyReadComment, DenyReadVerb, params.denyRead);
    var y := x + PathSection(AllowReadComment, AllowReadVerb, params.allowRead);
    var z := y + PathSection(AllowWriteComment, AllowWriteVerb, params.allowWrite);
    SectionPrefixes(params);
    var p := Pieces(params);
    AppendPrefix(Preamble, WorkingDirPieces(params.workingDir));
    AppendPrefix(w, PathSection(DenyReadComment, DenyReadVerb, params.denyRead));
    PrefixOfPrefix(p, |z|, |Preamble|);
    PrefixOfPrefix(z, |y|, |Preamble|);
    PrefixOfPrefix(y, |x|, |Preamble|);
    PrefixOfPrefix(x, |w|, |Preamble|);
    if params.workingDir != [] {
      var k := |Preamble|;
      PrefixIndex(p, |z|, k);
      PrefixIndex(z, |y|, k);
      PrefixIndex(y, |x|, k);
      PrefixIndex(x, |w|, k);
    }
  }

  /** Where the fixed blocks sit in `Pieces(params)`. */
  lemma LayoutBlocks(params: SandboxParams)
    ensures |Pieces(params)| == RawStart(params) + |RawPieces(params.rawRules)|
    ensures Pieces(params)[..|Preamble|] == Preamble
    ensures params.workingDir != [] ==> Pieces(params)[|Preamble|] == SubpathRule(WorkingDirVerb, params.workingDir)
    ensures Pieces(params)[DeviceStart(params)] == DevicePieces[0]
    ensures Pieces(params)[NetworkStart(params)] == NetworkComment
  {
    PreambleFirst(params);
    FilePiecesPrefix(params);
    var f := FilePieces(params);
    PrefixIndex(Pieces(params), |f|, DeviceStart(params));
    PrefixIndex(Pieces(params), |f|, NetworkStart(params));
  }

  /** Character offset in the policy text at which the piece with index `k` starts. */
  function Offset(params: SandboxParams, k: nat): nat
    requires k <= |Pieces(params)|
  {
    |Concat(Pieces(params)[..k])|
  }

  /** A non-empty piece starts strictly before every later piece. */
  lemma OffsetBefore(params: SandboxParams, k1: nat, k2: nat)
    requires k1 < k2 <= |Pieces(params)| && Pieces(params)[k1] != []
    ensures Offset(params, k1) < Offset(params, k2)
  {
    PieceOffsetsAscend(Pieces(params), k1, k2);
  }

  /** The three lists of path rules. */
  datatype PathList = DenyReadList | AllowReadList | AllowWriteList

  function Paths(params: SandboxParams, l: PathList): seq<string>
  {
    match l
    case DenyReadList => params.denyRead
    case AllowReadList => params.allowRead
    case AllowWriteList => params.allowWrite
  }

  function Verb(l: PathList): string
  {
    match l
    case DenyReadList => DenyReadVerb
    case AllowReadList => AllowReadVerb
    case AllowWriteList => AllowWriteVerb
  }

  /** Index in `Pieces(params)` of the rule for the `i`-th path of list `l`. */
  function RuleIndex(params: SandboxParams, l: PathList, i: nat): nat
  {
    match l
    case DenyReadList => DenyStart(params) + 1 + i
    case AllowReadList => AllowReadStart(params) + 1 + i
    case AllowWriteList => AllowWriteStart(params) + 1 + i
  }

  /** The order of the lists in the text. */
  function Rank(l: PathList): nat
  {
    match l
    case DenyReadList => 0
    case AllowReadList => 1
    case AllowWriteList => 2
  }

  /** `Pieces(params)` as the chain of left-nested prefixes that ends with
      each path section, so that an index into a section is an index into the
      shortest prefix holding it. */
  lemma SectionPrefixes(params: SandboxParams)
    ensures var x := Preamble + WorkingDirPieces(params.workingDir)
                     + PathSection(DenyReadComment, DenyReadVerb, params.denyRead);
      var y := x + PathSection(AllowReadComment, AllowReadVerb, params.allowRead);
      var z := y + PathSection(AllowWriteComment, AllowWriteVerb, params.allowWrite);
      |x| <= |y| <= |z| <= |Pieces(params)|
      && Pieces(params)[..|z|] == z && z[..|y|] == y && y[..|x|] == x
  {
    var z := Preamble + WorkingDirPieces(params.workingDir)
             + PathSection(DenyReadComment, DenyReadVerb, params.denyRead)
             + PathSection(AllowReadComment, AllowReadVerb, params.allowRead)
             + PathSection(AllowWriteComment, AllowWriteVerb, params.allowWrite);
    assert FilePieces(params) == z + DevicePieces + [NetworkComment];
  }

  /** The rule for the `i`-th path sits right after the section's comment. */
  lemma SectionRule(comment: string, verb: string, paths: seq<string>, i: nat)
    requires i < |paths|
    ensures |PathSection(comment, verb, paths)| == |paths| + 1
    ensures PathSection(comment, verb, paths)[1 + i] == SubpathRule(verb, paths[i])
  {
  }

  lemma DenyRuleAt(params: SandboxParams, i: nat)
    requires i < |params.denyRead|
    ensures RuleIndex(params, DenyReadList, i) < |Pieces(params)|
    ensures Pieces(params)[RuleIndex(params, DenyReadList, i)] == SubpathRule(DenyReadVerb, params.denyRead[i])
  {
    var w := Preamble + WorkingDirPieces(params.workingDir);
    var deny := PathSection(DenyReadComment, DenyReadVerb, params.denyRead);
    var x := w + deny;
    var y := x + PathSection(AllowReadComment, AllowReadVerb, params.allowRead);
    var z := y + PathSection(AllowWriteComment, AllowWriteVerb, params.allowWrite);
    SectionRule(DenyReadComment, DenyReadVerb, params.denyRead, i);
    SectionPrefixes(params);
    var k := |w| + 1 + i;
    PrefixIndex(Pieces(params), |z|, k);
    PrefixIndex(z, |y|, k);
    PrefixIndex(y, |x|, k);
    BlockAt(w, deny, [], 1 + i);
  }

  lemma AllowReadRuleAt(params: SandboxParams, i: nat)
    requires i < |params.allowRead|
    ensures RuleIndex(params, AllowReadList, i) < |Pieces(params)|
    ensures Pieces(params)[RuleIndex(params, AllowReadList, i)] == SubpathRule(AllowReadVerb, params.allowRead[i])
  {
    var x := Preamble + WorkingDirPieces(params.workingDir)
             + PathSection(DenyReadComment, DenyReadVerb, params.denyRead);
    var read := PathSection(AllowReadComment, AllowReadVerb, params.allowRead);
    var y := x + read;
    var z := y + PathSection(AllowWriteComment, AllowWriteVerb, params.allowWrite);
    SectionRule(AllowReadComment, AllowReadVerb, params.allowRead, i);
    SectionPrefixes(params);
    var k := |x| + 1 + i;
    PrefixIndex(Pieces(params), |z|, k);
    PrefixIndex(z, |y|, k);
    BlockAt(x, read, [], 1 + i);
  }

  lemma AllowWriteRuleAt(params: SandboxParams, i: nat)
    requires i < |params.allowWrite|
    ensures RuleIndex(params, AllowWriteList, i) < |Pieces(params)|
    ensures Pieces(params)[RuleIndex(params, AllowWriteList, i)] == SubpathRule(AllowWriteVerb, params.allowWrite[i])
  {
    var y := Preamble + WorkingDirPieces(params.workingDir)
             + PathSection(DenyReadComment, DenyReadVerb, params.denyRead)
             + PathSection(AllowReadComment, AllowReadVerb, params.allowRead);
    var write := PathSection(AllowWriteComment, AllowWriteVerb, params.allowWrite);
    var z := y + write;
    SectionRule(AllowWriteComment, AllowWriteVerb, params.allowWrite, i);
    SectionPrefixes(params);
    var k := |y| + 1 + i;
    PrefixIndex(Pieces(params), |z|, k);
    BlockAt(y, write, [], 1 + i);
  }

  /** The piece at `RuleIndex(params, l, i)` is the rule for the `i`-th path of
      list `l`, and it lies between the working-directory rule and the devices. */
  lemma RuleIndexInRange(params: SandboxParams, l: PathList, i: nat)
    requires i < |Paths(params, l)|
    ensures AllowReadStart(params) <= RuleIndex(params, l, i) < DeviceStart(params) || l == DenyReadList
    ensures DenyStart(params) < RuleIndex(params, l, i) < DeviceStart(params)
    ensures RuleIndex(params, l, i) < |Pieces(params)|
    ensures Pieces(params)[RuleIndex(params, l, i)] == SubpathRule(Verb(l), Paths(params, l)[i])
  {
    PathSectionLength(DenyReadComment, DenyReadVerb, params.denyRead);
    PathSectionLength(AllowReadComment, AllowReadVerb, params.allowRead);
    PathSectionLength(AllowWriteComment, AllowWriteVerb, params.allowWrite);
    match l {
      case DenyReadList => DenyRuleAt(params, i);
      case AllowReadList => AllowReadRuleAt(params, i);
      case AllowWriteList => AllowWriteRuleAt(params, i);
    }
  }

  lemma BlockAt(before: seq<string>, block: seq<string>, after: seq<string>, j: nat)
    requires j < |block|
    ensures (before + block + after)[|before| + j] == block[j]
    ensures (before + block)[|before| + j] == block[j]
  {
  }

  lemma PathSectionLength(comment: string, verb: string, paths: seq<string>)
    ensures |PathSection(comment, verb, paths)| == if paths == [] then 0 else |paths| + 1
  {
  }

  /** Every listed path yields its rule in the text, at the offset of its piece. */
  lemma PathRulesOccur(params: SandboxParams, l: PathList)
    ensures forall i :: 0 <= i < |Paths(params, l)| ==>
      OccursAt(ProfileText(params), SubpathRule(Verb(l), Paths(params, l)[i]), Offset(params, RuleIndex(params, l, i)))
  {
    forall i | 0 <= i < |Paths(params, l)|
      ensures OccursAt(ProfileText(params), SubpathRule(Verb(l), Paths(params, l)[i]), Offset(params, RuleIndex(params, l, i)))
    {
      RuleIndexInRange(params, l, i);
      PieceOccurs(Pieces(params), RuleIndex(params, l, i));
    }
  }

  /** The working-directory rule, when written, precedes every path rule. */
  lemma WorkingDirRuleFirst(params: SandboxParams, l: PathList)
    requires params.workingDir != []
    ensures OccursAt(ProfileText(params), SubpathRule(WorkingDirVerb, params.workingDir), Offset(params, |Preamble|))
    ensures forall i :: 0 <= i < |Paths(params, l)| ==> Offset(params, |Preamble|) < Offset(params, RuleIndex(params, l, i))
  {
    LayoutBlocks(params);
    PieceOccurs(Pieces(params), |Preamble|);
    forall i | 0 <= i < |Paths(params, l)| ensures Offset(params, |Preamble|) < Offset(params, RuleIndex(params, l, i)) {
      RuleIndexInRange(params, l, i);
      OffsetBefore(params, |Preamble|, RuleIndex(params, l, i));
    }
  }

  /** Path rules appear list by list (deny-read, allow-read, allow-write), each
      list in input order, and all of them before the device rules. */
  lemma PathRulesInOrder(params: SandboxParams, l1: PathList, l2: PathList)
    ensures forall i, j ::
      (0 <= i < |Paths(params, l1)| && 0 <= j < |Paths(params, l2)|
       && (Rank(l1) < Rank(l2) || (l1 == l2 && i < j))) ==>
      Offset(params, RuleIndex(params, l1, i)) < Offset(params, RuleIndex(params, l2, j))
    ensures forall i :: 0 <= i < |Paths(params, l1)| ==>
      Offset(params, RuleIndex(params, l1, i)) < Offset(params, DeviceStart(params))
  {
    LayoutBlocks(params);
    forall i, j | 0 <= i < |Paths(params, l1)| && 0 <= j < |Paths(params, l2)|
      && (Rank(l1) < Rank(l2) || (l1 == l2 && i < j))
      ensures Offset(params, RuleIndex(params, l1, i)) < Offset(params, RuleIndex(params, l2, j))
    {
      RuleIndexInRange(params, l1, i);
      RuleIndexInRange(params, l2, j);
      OffsetBefore(params, RuleIndex(params, l1, i), RuleIndex(params, l2, j));
    }
    forall i | 0 <= i < |Paths(params, l1)| ensures Offset(params, RuleIndex(params, l1, i)) < Offset(params, DeviceStart(params)) {
      RuleIndexInRange(params, l1, i);
      OffsetBefore(params, RuleIndex(params, l1, i), DeviceStart(params));
    }
  }

  /** The device rules precede the network rules, which precede the raw rules. */
  lemma TailBlocksInOrder(params: SandboxParams)
    ensures Offset(params, DeviceStart(params)) < Offset(params, NetworkStart(params)) < Offset(params, RawStart(params))
  {
    LayoutBlocks(params);
    OffsetBefore(params, DeviceStart(params), NetworkStart(params));
    OffsetBefore(params, NetworkStart(params), RawStart(params));
  }

  // ------------------------------------------------------------ content

  /** Every policy starts with the version header and the default-deny rule,
      `(version 1)` and `(deny default)` on the first two lines. */
  lemma StartsWithHeader(params: SandboxParams)
    ensures StartsWith(ProfileText(params), Rule("version 1") + Rule("deny default"))
  {
    var p := Pieces(params);
    var v, d := Rule("version 1"), Rule("deny default") + "\n";
    assert p[..2] == [v, d] by {
      PreambleFirst(params);
      PrefixOfPrefix(p, |Preamble|, 2);
      assert Preamble[..2] == [v, d];
    }
    ConcatPrefix(p, 2);
    ConcatPair(v, d);
    StartsWithAppend(v + Rule("deny default"), "\n");
    assert v + d == v + Rule("deny default") + "\n";
    StartsWithTrans(ProfileText(params), v + d, v + Rule("deny default"));
  }

  /** Rules written whatever the parameters: process, signal, system-read, mach
      and device access. */
  const BaselineRules: seq<string> := [
    Rule("allow process-fork"),
    Rule("allow process-exec"),
    Rule(SignalSelf) + "\n",
    Rule("allow sysctl-read"),
    Rule("allow file-read-metadata"),
    Rule("allow mach-lookup"),
    SubpathRule(AllowReadVerb, "/dev"),
    SubpathRule(AllowWriteVerb, "/dev/null"),
    SubpathRule(AllowWriteVerb, "/dev/tty"),
    SubpathRule("allow file-ioctl", "/dev")]

  lemma BaselineRulesPresent(params: SandboxParams)
    ensures forall r :: r in BaselineRules ==> Contains(ProfileText(params), r)
  {
    forall r | r in BaselineRules ensures Contains(ProfileText(params), r) {
      assert r in Preamble || r in DevicePieces;
      assert r in Pieces(params);
      ContainsPiece(Pieces(params), r);
    }
  }

  /** The working-directory block is exactly one rule when the directory is set
      and nothing otherwise. */
  lemma WorkingDirRuleExactlyWhenSet(params: SandboxParams)
    ensures DenyStart(params) == |Preamble| + (if params.workingDir == [] then 0 else 1)
    ensures params.workingDir != [] ==> Pieces(params)[|Preamble|] == SubpathRule(WorkingDirVerb, params.workingDir)
  {
    LayoutBlocks(params);
  }

  /** An empty list writes neither rules nor a comment; a non-empty one writes its
      comment and one rule per path. */
  lemma PathSectionSize(params: SandboxParams)
    ensures AllowReadStart(params) - DenyStart(params) == if params.denyRead == [] then 0 else 1 + |params.denyRead|
    ensures AllowWriteStart(params) - AllowReadStart(params) == if params.allowRead == [] then 0 else 1 + |params.allowRead|
    ensures DeviceStart(params) - AllowWriteStart(params) == if params.allowWrite == [] then 0 else 1 + |params.allowWrite|
  {
  }

  /** The network rules of the selected mode are written, after the network comment. */
  lemma NetworkRulesPresent(params: SandboxParams)
    ensures forall r :: r in [NetworkComment] + NetworkRules(params.networkMode) ==> Contains(ProfileText(params), r)
    ensures params.networkMode == Online ==> Contains(ProfileText(params), Rule("allow network*"))
    ensures params.networkMode == Offline ==> Contains(ProfileText(params), "; Network disabled (offline mode)\n")
    ensures params.networkMode == Localhost ==>
      Contains(ProfileText(params), "localhost:*") && Contains(ProfileText(params), "127.0.0.1:*")
  {
    forall r | r in [NetworkComment] + NetworkRules(params.networkMode) ensures Contains(ProfileText(params), r) {
      assert r in Pieces(params);
      ContainsPiece(Pieces(params), r);
    }
    if params.networkMode == Localhost {
      var a := IpRule("network-outbound", "to", "localhost:*");
      var b := IpRule("network-outbound", "to", "127.0.0.1:*");
      assert a in NetworkRules(Localhost) && b in NetworkRules(Localhost);
      var prefix := "(allow " + "network-outbound" + " (" + "to" + " ip \"";
      ContainsMiddle(prefix, "localhost:*", "\"))\n");
      ContainsMiddle(prefix, "127.0.0.1:*", "\"))\n");
      ContainsTrans(ProfileText(params), a, "localhost:*");
      ContainsTrans(ProfileText(params), b, "127.0.0.1:*");
    }
  }

  /** The text splits into a part that the network mode and the raw rules do not
      affect, the network rules, and the raw rules. */
  lemma TextDecomposition(params: SandboxParams, mode: NetworkMode, raw: Option<string>)
    ensures ProfileText(params.(networkMode := mode, rawRules := raw))
         == Concat(FilePieces(params)) + Concat(NetworkRules(mode)) + Concat(RawPieces(raw))
  {
    var q := params.(networkMode := mode, rawRules := raw);
    assert FilePieces(q) == FilePieces(params);
    ConcatAppend(FilePieces(params) + NetworkRules(mode), RawPieces(raw));
    ConcatAppend(FilePieces(params), NetworkRules(mode));
  }

  /** Raw rules are appended verbatim, after their comment and before a final
      newline, to the policy that would be written without them. */
  lemma RawRulesAppended(params: SandboxParams, raw: string)
    ensures ProfileText(params.(rawRules := Some(raw)))
         == ProfileText(params.(rawRules := None)) + RawComment + raw + "\n"
  {
    TextDecomposition(params, params.networkMode, Some(raw));
    TextDecomposition(params, params.networkMode, None);
    assert params.(rawRules := Some(raw)) == params.(networkMode := params.networkMode, rawRules := Some(raw));
    assert params.(rawRules := None) == params.(networkMode := params.networkMode, rawRules := None);
    ConcatRawPieces(raw);
  }

  lemma ConcatRawPieces(raw: string)
    ensures Concat(RawPieces(Some(raw))) == RawComment + raw + "\n"
    ensures Concat(RawPieces(None)) == ""
  {
    var r := RawPieces(Some(raw));
    assert r == [RawComment, raw] + ["\n"];
    ConcatAppend([RawComment, raw], ["\n"]);
    ConcatPair(RawComment, raw);
    assert Concat(["\n"]) == "\n" by {
      assert ["\n"][..0] == [];
    }
  }

  // ------------------------------------------------------------ parentheses

  /** Opening minus closing parentheses. */
  function Net(s: string): int
  {
    Count(s, '(') - Count(s, ')')
  }

  lemma NetAppend(x: string, y: string)
    ensures Net(x + y) == Net(x) + Net(y)
  {
    CountAppend(x, y, '(');
    CountAppend(x, y, ')');
  }

  lemma NetNoParens(s: string)
    requires '(' !in s && ')' !in s
    ensures Net(s) == 0
  {
    CountAbsent(s, '(');
    CountAbsent(s, ')');
  }

  lemma NetOfParens()
    ensures Net("(") == 1 && Net(")") == -1
  {
    assert "("[..0] == [] && ")"[..0] == [];
  }

  /** `(<body>)<tail>` with a balanced `tail` has the net count of `body`. */
  lemma NetWrapped(body: string, tail: string)
    requires Net(tail) == 0
    ensures Net("(" + body + ")" + tail) == Net(body)
  {
    NetOfParens();
    NetAppend("(" + body + ")", tail);
    NetAppend("(" + body, ")");
    NetAppend("(", body);
  }

  /** A path rule is balanced exactly when its verb and path together are. */
  lemma NetSubpathRule(verb: string, path: string)
    ensures Net(SubpathRule(verb, path)) == Net(verb) + Net(path)
  {
    NetOfParens();
    var open, close := " (subpath \"", "\"))\n";
    assert open == " " + "(" + "subpath \"";
    NetNoParens(" ");
    NetNoParens("subpath \"");
    NetAppend(" " + "(", "subpath \"");
    NetAppend(" ", "(");
    assert close == "\"" + ")" + ")" + "\n";
    NetNoParens("\"");
    NetNoParens("\n");
    NetAppend("\"" + ")" + ")", "\n");
    NetAppend("\"" + ")", ")");
    NetAppend("\"", ")");
    NetAppend("(" + verb + open + path, close);
    NetAppend("(" + verb + open, path);
    NetAppend("(" + verb, open);
    NetAppend("(", verb);
  }

  /** A localhost rule is balanced exactly when its three arguments together are. */
  lemma NetIpRule(op: string, dir: string, addr: string)
    ensures Net(IpRule(op, dir, addr)) == Net(op) + Net(dir) + Net(addr)
  {
    NetOfParens();
    var a, b, c, d := "(allow ", " (", " ip \"", "\"))\n";
    assert a == "(" + "allow ";
    NetNoParens("allow ");
    NetAppend("(", "allow ");
    assert b == " " + "(";
    NetNoParens(" ");
    NetAppend(" ", "(");
    NetNoParens(c);
    assert d == "\"" + ")" + ")" + "\n";
    NetNoParens("\"");
    NetNoParens("\n");
    NetAppend("\"" + ")" + ")", "\n");
    NetAppend("\"" + ")", ")");
    NetAppend("\"", ")");
    NetAppend(a + op + b + dir + c + addr, d);
    NetAppend(a + op + b + dir + c, addr);
    NetAppend(a + op + b + dir, c);
    NetAppend(a + op + b, dir);
    NetAppend(a + op, b);
    NetAppend(a, op);
  }

  /** Every piece in the list has balanced parentheses. */
  predicate AllBalanced(pieces: seq<string>)
  {
    forall k :: 0 <= k < |pieces| ==> Net(pieces[k]) == 0
  }

  lemma {:induction false} ConcatBalanced(pieces: seq<string>)
    requires AllBalanced(pieces)
    ensures Net(Concat(pieces)) == 0
  {
    if pieces != [] {
      ConcatBalanced(pieces[..|pieces| - 1]);
      NetAppend(Concat(pieces[..|pieces| - 1]), pieces[|pieces| - 1]);
    } else {
      assert Count("", '(') == 0 && Count("", ')') == 0;
    }
  }

  /** A rule is balanced exactly when its body is. */
  lemma NetRule(body: string)
    ensures Net(Rule(body)) == Net(body)
  {
    NetOfParens();
    assert ")\n" == ")" + "\n";
    NetNoParens("\n");
    NetAppend(")", "\n");
    NetAppend("(" + body, ")\n");
    NetAppend("(", body);
  }

  /** A rule with a balanced body, followed by a balanced tail. */
  lemma SimpleRuleBalanced(body: string, tail: string)
    requires Net(body) == 0 && Net(tail) == 0
    ensures Net(Rule(body)) == 0 && Net(Rule(body) + tail) == 0
  {
    NetRule(body);
    NetAppend(Rule(body), tail);
  }

  // The fixed words of the policy hold no parentheses. Checking a literal
  // character by character is costly, so each lemma looks at a few of them.

  lemma HeaderWordsPlain()
    ensures Net("") == 0 && Net("\n") == 0 && Net("version 1") == 0 && Net("deny default") == 0
  {
    NetNoParens("");
    NetNoParens("\n");
    NetNoParens("version 1");
    NetNoParens("deny default");
  }

  lemma PreambleCommentsPlain()
    ensures Net("; Process operations\n") == 0 && Net("; System read access\n") == 0
  {
    NetNoParens("; Process operations\n");
    NetNoParens("; System read access\n");
  }

  lemma ProcessWordsPlain()
    ensures Net("allow process-fork") == 0 && Net("allow process-exec") == 0
  {
    NetNoParens("allow process-fork");
    NetNoParens("allow process-exec");
  }

  lemma SystemWordsPlain()
    ensures Net("allow sysctl-read") == 0 && Net("allow file-read-metadata") == 0
  {
    NetNoParens("allow sysctl-read");
    NetNoParens("allow file-read-metadata");
  }

  lemma MachWordsPlain()
    ensures Net("\n; Mach services\n") == 0 && Net("allow mach-lookup") == 0
  {
    NetNoParens("\n; Mach services\n");
    NetNoParens("allow mach-lookup");
  }

  lemma SignalWordsPlain()
    ensures Net("allow signal ") == 0 && Net("target self") == 0
  {
    NetNoParens("allow signal ");
    NetNoParens("target self");
  }

  lemma WorkingDirWordsPlain()
    ensures Net("\n; Working directory ") == 0 && Net("full access") == 0
  {
    NetNoParens("\n; Working directory ");
    NetNoParens("full access");
  }

  lemma OfflineWordsPlain()
    ensures Net("; Network disabled ") == 0 && Net("offline mode") == 0
  {
    NetNoParens("; Network disabled ");
    NetNoParens("offline mode");
  }

  lemma ReadVerbsPlain()
    ensures Net(DenyReadVerb) == 0 && Net(AllowReadVerb) == 0
  {
    NetNoParens(DenyReadVerb);
    NetNoParens(AllowReadVerb);
  }

  lemma WriteVerbsPlain()
    ensures Net(WorkingDirVerb) == 0 && Net(AllowWriteVerb) == 0 && Net("allow file-ioctl") == 0
  {
    NetNoParens(WorkingDirVerb);
    NetNoParens(AllowWriteVerb);
    NetNoParens("allow file-ioctl");
  }

  lemma ReadCommentsPlain()
    ensures Net(DenyReadComment) == 0 && Net(AllowReadComment) == 0
  {
    NetNoParens(DenyReadComment);
    NetNoParens(AllowReadComment);
  }

  lemma TailCommentsPlain()
    ensures Net(AllowWriteComment) == 0 && Net(NetworkComment) == 0
  {
    NetNoParens(AllowWriteComment);
    NetNoParens(NetworkComment);
  }

  lemma DeviceWordsPlain()
    ensures Net("\n; Device access\n") == 0
    ensures Net("/dev") == 0 && Net("/dev/null") == 0 && Net("/dev/tty") == 0
  {
    NetNoParens("\n; Device access\n");
    NetNoParens("/dev");
    NetNoParens("/dev/null");
    NetNoParens("/dev/tty");
  }

  lemma NetworkWordsPlain()
    ensures Net("allow network*") == 0 && Net("network-outbound") == 0 && Net("network-inbound") == 0
  {
    NetNoParens("allow network*");
    NetNoParens("network-outbound");
    NetNoParens("network-inbound");
  }

  lemma LocalhostWordsPlain()
    ensures Net("to") == 0 && Net("from") == 0 && Net("localhost:*") == 0 && Net("127.0.0.1:*") == 0
  {
    NetNoParens("to");
    NetNoParens("from");
    NetNoParens("localhost:*");
    NetNoParens("127.0.0.1:*");
  }

  lemma RawCommentPlain()
    ensures Net(RawComment) == 0
  {
    NetNoParens(RawComment);
  }

  lemma SignalBalanced()
    ensures Net(Rule(SignalSelf) + "\n") == 0
  {
    assert SignalSelf == "allow signal " + ("(" + "target self" + ")" + "");
    SignalWordsPlain();
    HeaderWordsPlain();
    CommentBalanced("allow signal ", "target self", "");
    SimpleRuleBalanced(SignalSelf, "\n");
  }

  /** `<head>(<body>)<tail>` with balanced head, body and tail is balanced. */
  lemma CommentBalanced(head: string, body: string, tail: string)
    requires Net(head) == 0 && Net(body) == 0 && Net(tail) == 0
    ensures Net(head + ("(" + body + ")" + tail)) == 0
  {
    NetWrapped(body, tail);
    NetAppend(head, "(" + body + ")" + tail);
  }

  lemma WorkingDirCommentBalanced()
    ensures Net("\n; Working directory (full access)\n") == 0
  {
    assert "\n; Working directory (full access)\n"
        == "\n; Working directory " + ("(" + "full access" + ")" + "\n");
    WorkingDirWordsPlain();
    HeaderWordsPlain();
    CommentBalanced("\n; Working directory ", "full access", "\n");
  }

  lemma OfflineCommentBalanced()
    ensures Net("; Network disabled (offline mode)\n") == 0
  {
    assert "; Network disabled (offline mode)\n"
        == "; Network disabled " + ("(" + "offline mode" + ")" + "\n");
    OfflineWordsPlain();
    HeaderWordsPlain();
    CommentBalanced("; Network disabled ", "offline mode", "\n");
  }

  /** The first eight pieces: header, process and system-read rules. */
  lemma PreambleHeadBalanced(k: nat)
    requires k < 9
    ensures Net(Preamble[k]) == 0
  {
    HeaderWordsPlain();
    if k == 0 { SimpleRuleBalanced("version 1", ""); }
    else if k == 1 { SimpleRuleBalanced("deny default", "\n"); }
    else if k == 2 || k == 6 { PreambleCommentsPlain(); }
    else if k == 3 { ProcessWordsPlain(); SimpleRuleBalanced("allow process-fork", ""); }
    else if k == 4 { ProcessWordsPlain(); SimpleRuleBalanced("allow process-exec", ""); }
    else if k == 5 { SignalBalanced(); }
    else if k == 7 { SystemWordsPlain(); SimpleRuleBalanced("allow sysctl-read", ""); }
    else { SystemWordsPlain(); SimpleRuleBalanced("allow file-read-metadata", ""); }
  }

  lemma PreambleBalanced()
    ensures AllBalanced(Preamble)
  {
    forall k | 0 <= k < |Preamble| ensures Net(Preamble[k]) == 0 {
      if k < 9 { PreambleHeadBalanced(k); }
      else if k < 11 {
        MachWordsPlain();
        HeaderWordsPlain();
        SimpleRuleBalanced("allow mach-lookup", "");
      } else { WorkingDirCommentBalanced(); }
    }
  }

  lemma DevicesBalanced()
    ensures AllBalanced(DevicePieces)
  {
    DeviceWordsPlain();
    ReadVerbsPlain();
    WriteVerbsPlain();
    NetSubpathRule(AllowReadVerb, "/dev");
    NetSubpathRule(AllowWriteVerb, "/dev/null");
    NetSubpathRule(AllowWriteVerb, "/dev/tty");
    NetSubpathRule("allow file-ioctl", "/dev");
  }

  lemma NetworkBalanced(mode: NetworkMode)
    ensures AllBalanced(NetworkRules(mode))
  {
    match mode {
      case Offline =>
        OfflineCommentBalanced();
      case Online =>
        NetworkWordsPlain();
        HeaderWordsPlain();
        SimpleRuleBalanced("allow network*", "");
      case Localhost =>
        NetworkWordsPlain();
        LocalhostWordsPlain();
        NetIpRule("network-outbound", "to", "localhost:*");
        NetIpRule("network-outbound", "to", "127.0.0.1:*");
        NetIpRule("network-inbound", "from", "localhost:*");
        NetIpRule("network-inbound", "from", "127.0.0.1:*");
    }
  }

  lemma PathSectionBalanced(comment: string, verb: string, paths: seq<string>)
    requires Net(comment) == 0 && Net(verb) == 0
    requires forall i :: 0 <= i < |paths| ==> Net(paths[i]) == 0
    ensures AllBalanced(PathSection(comment, verb, paths))
  {
    forall i | 0 <= i < |paths| ensures Net(SubpathRule(verb, paths[i])) == 0 {
      NetSubpathRule(verb, paths[i]);
    }
  }

  lemma WorkingDirBalanced(wd: string)
    requires Net(wd) == 0
    ensures AllBalanced(WorkingDirPieces(wd))
  {
    if wd != [] {
      NetSubpathRule(WorkingDirVerb, wd);
      WriteVerbsPlain();
    }
  }

  /** The mode- and raw-independent part is balanced when the working
      directory and the paths are. */
  lemma FilePiecesBalanced(params: SandboxParams)
    requires Net(params.workingDir) == 0
    requires forall i :: 0 <= i < |params.denyRead| ==> Net(params.denyRead[i]) == 0
    requires forall i :: 0 <= i < |params.allowRead| ==> Net(params.allowRead[i]) == 0
    requires forall i :: 0 <= i < |params.allowWrite| ==> Net(params.allowWrite[i]) == 0
    ensures AllBalanced(FilePieces(params))
  {
    var wd := WorkingDirPieces(params.workingDir);
    var deny := PathSection(DenyReadComment, DenyReadVerb, params.denyRead);
    var read := PathSection(AllowReadComment, AllowReadVerb, params.allowRead);
    var write := PathSection(AllowWriteComment, AllowWriteVerb, params.allowWrite);
    ReadVerbsPlain();
    WriteVerbsPlain();
    ReadCommentsPlain();
    TailCommentsPlain();
    PreambleBalanced();
    WorkingDirBalanced(params.workingDir);
    PathSectionBalanced(DenyReadComment, DenyReadVerb, params.denyRead);
    PathSectionBalanced(AllowReadComment, AllowReadVerb, params.allowRead);
    PathSectionBalanced(AllowWriteComment, AllowWriteVerb, params.allowWrite);
    DevicesBalanced();
    AllBalancedAppend(Preamble, wd);
    AllBalancedAppend(Preamble + wd, deny);
    AllBalancedAppend(Preamble + wd + deny, read);
    AllBalancedAppend(Preamble + wd + deny + read, write);
    AllBalancedAppend(Preamble + wd + deny + read + write, DevicePieces);
    AllBalancedAppend(Preamble + wd + deny + read + write + DevicePieces, [NetworkComment]);
  }

  /** The s-expression sanity check: when the working directory, every path and
      the raw rules have as many opening as closing parentheses (in particular
      when they have none), so does the whole policy. */
  lemma ParenthesesBalanced(params: SandboxParams)
    requires Count(params.workingDir, '(') == Count(params.workingDir, ')')
    requires forall i :: 0 <= i < |params.denyRead| ==> Count(params.denyRead[i], '(') == Count(params.denyRead[i], ')')
    requires forall i :: 0 <= i < |params.allowRead| ==> Count(params.allowRead[i], '(') == Count(params.allowRead[i], ')')
    requires forall i :: 0 <= i < |params.allowWrite| ==> Count(params.allowWrite[i], '(') == Count(params.allowWrite[i], ')')
    requires params.rawRules.Some? ==> Count(params.rawRules.value, '(') == Count(params.rawRules.value, ')')
    ensures Count(ProfileText(params), '(') == Count(ProfileText(params), ')')
  {
    FilePiecesBalanced(params);
    NetworkBalanced(params.networkMode);
    var raw := RawPieces(params.rawRules);
    if params.rawRules.Some? {
      RawCommentPlain();
      HeaderWordsPlain();
      assert AllBalanced(raw);
    }
    AllBalancedAppend(FilePieces(params), NetworkRules(params.networkMode));
    AllBalancedAppend(FilePieces(params) + NetworkRules(params.networkMode), raw);
    ConcatBalanced(Pieces(params));
  }

  lemma AllBalancedAppend(a: seq<string>, b: seq<string>)
    requires AllBalanced(a) && AllBalanced(b)
    ensures AllBalanced(a + b)
  {
    forall k | 0 <= k < |a + b| ensures Net((a + b)[k]) == 0 {
      if k >= |a| { assert (a + b)[k] == b[k - |a|]; }
    }
  }

  // ------------------------------------------------------------ network grants

  /** A piece that is a rule granting some network access. */
  predicate GrantsNetwork(piece: string)
  {
    StartsWith(piece, "(allow network")
  }

  /** A piece that differs from the grant prefix at some position does not grant. */
  lemma NotGrantingAt(piece: string, j: nat)
    requires j < 14 && j < |piece| && piece[j] != "(allow network"[j]
    ensures !GrantsNetwork(piece)
  {
  }

  /** The verb of a path rule follows its opening parenthesis. */
  lemma SubpathRuleChar(verb: string, path: string, j: nat)
    requires j < |verb|
    ensures SubpathRule(verb, path)[1 + j] == verb[j]
  {
    var h := "(" + verb;
    assert SubpathRule(verb, path) == h + " (subpath \"" + path + "\"))\n";
    assert h[1 + j] == verb[j];
  }

  /** A path rule grants nothing: its verb is a file verb, never a network one. */
  lemma SubpathRuleNotGranting(verb: string, path: string)
    requires verb in {WorkingDirVerb, DenyReadVerb, AllowReadVerb, AllowWriteVerb, "allow file-ioctl"}
    ensures !GrantsNetwork(SubpathRule(verb, path))
  {
    var r := SubpathRule(verb, path);
    if verb == DenyReadVerb {
      SubpathRuleChar(verb, path, 0);
      NotGrantingAt(r, 1);
    } else {
      SubpathRuleChar(verb, path, 6);
      NotGrantingAt(r, 7);
    }
  }

  /** A localhost rule starts with `(allow ` and its operation. */
  lemma IpRuleStart(op: string, dir: string, addr: string)
    ensures StartsWith(IpRule(op, dir, addr), "(allow " + op)
  {
    var h := "(allow " + op;
    assert IpRule(op, dir, addr) == h + " (" + dir + " ip \"" + addr + "\"))\n";
    assert IpRule(op, dir, addr)[..|h|] == h;
  }

  predicate NoneGrant(pieces: seq<string>)
  {
    forall k :: 0 <= k < |pieces| ==> !GrantsNetwork(pieces[k])
  }

  lemma NoneGrantAppend(a: seq<string>, b: seq<string>)
    requires NoneGrant(a) && NoneGrant(b)
    ensures NoneGrant(a + b)
  {
    forall k | 0 <= k < |a + b| ensures !GrantsNetwork((a + b)[k]) {
      if k >= |a| { assert (a + b)[k] == b[k - |a|]; }
    }
  }

  /** The body of a rule follows its opening parenthesis. */
  lemma RuleChar(body: string, tail: string, j: nat)
    requires j < |body|
    ensures (Rule(body) + tail)[1 + j] == body[j] && Rule(body)[1 + j] == body[j]
  {
    assert Rule(body) == "(" + body + ")\n";
  }

  lemma PreambleNotGranting()
    ensures NoneGrant(Preamble)
  {
    forall k | 0 <= k < |Preamble| ensures !GrantsNetwork(Preamble[k]) {
      var piece := Preamble[k];
      if k == 0 {
        RuleChar("version 1", "", 0);
        NotGrantingAt(piece, 1);
      } else if k == 1 {
        RuleChar("deny default", "\n", 0);
        NotGrantingAt(piece, 1);
      } else if k == 3 || k == 4 || k == 7 || k == 8 || k == 10 {
        var body := if k == 3 then "allow process-fork" else if k == 4 then "allow process-exec"
          else if k == 7 then "allow sysctl-read" else if k == 8 then "allow file-read-metadata"
          else "allow mach-lookup";
        assert piece == Rule(body);
        RuleChar(body, "", 6);
        NotGrantingAt(piece, 7);
      } else if k == 5 {
        RuleChar(SignalSelf, "\n", 6);
        NotGrantingAt(piece, 7);
      } else {
        assert piece[0] == ';' || piece[0] == '\n';
        NotGrantingAt(piece, 0);
      }
    }
  }

  lemma SectionNotGranting(comment: string, verb: string, paths: seq<string>)
    requires |comment| > 0 && comment[0] == '\n'
    requires verb in {DenyReadVerb, AllowReadVerb, AllowWriteVerb}
    ensures NoneGrant(PathSection(comment, verb, paths))
  {
    NotGrantingAt(comment, 0);
    forall i | 0 <= i < |paths| ensures !GrantsNetwork(SubpathRule(verb, paths[i])) {
      SubpathRuleNotGranting(verb, paths[i]);
    }
  }

  /** No piece written before the network block grants network access. */
  lemma FilePiecesNotGranting(params: SandboxParams)
    ensures NoneGrant(FilePieces(params))
  {
    PreambleNotGranting();
    var wd := WorkingDirPieces(params.workingDir);
    if params.workingDir != [] {
      SubpathRuleNotGranting(WorkingDirVerb, params.workingDir);
    }
    assert NoneGrant(wd);
    var deny := PathSection(DenyReadComment, DenyReadVerb, params.denyRead);
    var read := PathSection(AllowReadComment, AllowReadVerb, params.allowRead);
    var write := PathSection(AllowWriteComment, AllowWriteVerb, params.allowWrite);
    SectionNotGranting(DenyReadComment, DenyReadVerb, params.denyRead);
    SectionNotGranting(AllowReadComment, AllowReadVerb, params.allowRead);
    SectionNotGranting(AllowWriteComment, AllowWriteVerb, params.allowWrite);
    assert NoneGrant(DevicePieces) by {
      NotGrantingAt(DevicePieces[0], 0);
      SubpathRuleNotGranting(AllowReadVerb, "/dev");
      SubpathRuleNotGranting(AllowWriteVerb, "/dev/null");
      SubpathRuleNotGranting(AllowWriteVerb, "/dev/tty");
      SubpathRuleNotGranting("allow file-ioctl", "/dev");
    }
    assert NoneGrant([NetworkComment]) by {
      NotGrantingAt(NetworkComment, 0);
    }
    NoneGrantAppend(Preamble, wd);
    NoneGrantAppend(Preamble + wd, deny);
    NoneGrantAppend(Preamble + wd + deny, read);
    NoneGrantAppend(Preamble + wd + deny + read, write);
    NoneGrantAppend(Preamble + wd + deny + read + write, DevicePieces);
    NoneGrantAppend(Preamble + wd + deny + read + write + DevicePieces, [NetworkComment]);
  }

  /** The first network rule of online and localhost mode grants access; the
      offline block grants nothing. */
  lemma NetworkRulesGrant(mode: NetworkMode)
    ensures mode != Offline ==> GrantsNetwork(NetworkRules(mode)[0])
    ensures mode == Offline ==> NoneGrant(NetworkRules(mode))
  {
    var r := NetworkRules(mode)[0];
    match mode {
      case Offline =>
        NotGrantingAt(r, 0);
      case Online =>
        assert Rule("allow network*") == "(allow network" + "*)\n";
        StartsWithAppend("(allow network", "*)\n");
      case Localhost =>
        IpRuleStart("network-outbound", "to", "localhost:*");
        assert StartsWith("(allow " + "network-outbound", "(allow network");
        StartsWithTrans(r, "(allow " + "network-outbound", "(allow network");
    }
  }

  /** Outside the raw rules, only the network block can grant network access,
      and it does so exactly in online and localhost mode: offline mode writes
      no rule granting any network operation. */
  lemma NetworkGrantsOnlyByMode(params: SandboxParams)
    ensures forall k :: 0 <= k < RawStart(params) && GrantsNetwork(Pieces(params)[k]) ==>
      NetworkStart(params) < k && params.networkMode != Offline
    ensures params.networkMode != Offline ==> GrantsNetwork(Pieces(params)[NetworkStart(params) + 1])
  {
    FilePiecesNotGranting(params);
    FilePiecesPrefix(params);
    NetworkRulesGrant(params.networkMode);
    var f := FilePieces(params);
    var net := NetworkRules(params.networkMode);
    var p := Pieces(params);
    forall k | 0 <= k < |f| ensures p[k] == f[k] {
      PrefixIndex(p, |f|, k);
    }
    forall k | |f| <= k < RawStart(params) ensures p[k] == net[k - |f|] {
      BlockAt(f, net, RawPieces(params.rawRules), k - |f|);
    }
    if params.networkMode != Offline {
      BlockAt(f, net, RawPieces(params.rawRules), 0);
    }
  }
}
