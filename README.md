# sx: a verified model of the sandbox-shell core

`sx` runs a shell or a command under macOS Seatbelt (`sandbox-exec`). It works
out the settings that apply from several layers: built-in defaults, a global
configuration file, the project's `.sandbox.toml`, composable profiles and
command-line flags. It then writes a Seatbelt policy text from those settings.
Around that pipeline sit several small parsers and formatters:

- the kernel's sandbox-denial log lines and the violation log file;
- the shell prompt indicator;
- project-type detection from marker files;
- `~` expansion;
- the upward search for the project configuration.

This project models that core in Dafny and proves what the code promises about
it. Each Rust source file is one module, and its code keeps the same form:

- code that changes state step by step becomes methods with loops and
  invariants;
- pure matches and expressions become functions.

Each method is proved against a specification function, and lemmas state the
properties of those functions.

| module | Rust file | what it holds |
|---|---|---|
| `Schema` | `src/config/schema.rs` | network mode, configuration records and their defaults |
| `Merge` | `src/config/merge.rs` | layering a project configuration over the global one |
| `Profiles` | `src/config/profile.rs` | built-in profile names, resolution order of `load_profiles`, `compose_profiles`, `merge_unique` |
| `Commands` | `src/cli/commands.rs` | effective configuration, profile-name collection, network precedence, path collection, ancestor walk, parameter assembly |
| `Seatbelt` | `src/sandbox/seatbelt.rs` | the policy generator, section by section, and the layout of its output |
| `Trace` | `src/sandbox/trace.rs` | violation kinds, `strip_ansi_codes`, `format_violation` |
| `Violations` | `src/sandbox/violations.rs` | `Violation::parse`, `to_log_line` |
| `Detection` | `src/detection/project_type.rs` | project types, markers, detection |
| `Prompt` | `src/shell/prompt.rs` | `format_prompt_indicator` |
| `Shell` | `src/shell/integration.rs` | `ShellType::from_path` |
| `Paths` | `src/utils/paths.rs` | `expand_path`, `expand_paths`, and the `Path` operations they use |
| `ProjectConfig` | `src/config/project.rs` | `find_project_config`, `load_project_config` |
| `Cli` | `src/cli/args.rs` | `Args::network_mode` |
| `Text`, `Lists`, `Common` | (library) | the `str` and `Vec` operations the code relies on; `Option`/`Result` |

The model has these conventions:

- Paths and strings are `seq<char>`.
- Whether a file exists, loading a file, the built-in profile contents, the home
  directory, the configuration directory and `shellexpand` are all parameters.
- A `u32` is a `nat` of at most `MaxU32`.
- `HashMap` iteration order is a parameter.

## Model

| member | source | states |
|---|---|---|
| Schema.DefaultNetworkMode | src/config/schema.rs:8-10 | the default network mode is offline |
| Schema.NetworkModeName | src/config/schema.rs:6-15 | a mode is serialised as one of "offline", "online", "localhost" |
| Schema.ParseNetworkMode | src/config/schema.rs:6-15 | deserialising succeeds exactly on those three names |
| Schema.NetworkModeNameBijection | src/config/schema.rs:6-15 | names and variants correspond one to one: parse(name(m)) == m, and parse(s) == m iff name(m) == s |
| Schema.DefaultSandboxConfig | src/config/schema.rs:51-65 | offline, profiles ["base"], indicator/inherit_global/inherit_base on, no shell/log file/network, no project profiles |
| Schema.DefaultConfig | src/config/schema.rs:17-25 | the sandbox section is its default; filesystem lists, env lists and maps are empty; auto-detect is off |
| Lists.AppendFreshFacts | src/config/merge.rs:75-84 | the result of merging keeps `a` verbatim as a prefix, its elements are those of `a` and `b`, and it is duplicate-free when `a` is |
| Lists.AppendFreshSnoc | src/config/merge.rs:78-82 | one more item of `b` is appended exactly when it is in neither `a` nor the earlier items |
| Lists.AppendFreshIsDedup | src/config/merge.rs:75-84 | for a duplicate-free `a`, the merge equals first-occurrence deduplication of `a ++ b` |
| Merge.MergeUniqueStrings | src/config/merge.rs:75-84 | the loop with its `seen` set computes the specification `AppendFresh(a, b)` |
| Merge.MergeStep | src/config/merge.rs:78-82 | one iteration appends the item exactly when `seen.insert` reports it new, and `seen` stays the set of items so far |
| Merge.GlobalProfiles | src/config/merge.rs:21-30 | the global defaults that feed the merge lose "base" exactly when the project does not inherit it |
| Merge.MergeSandbox | src/config/merge.rs:19-51 | network is the project's `network` or else its `default_network`; shell and log file prefer the project's; the flags and `network` are the project's; merged `default_profiles` and `profiles` each start with the (filtered) global defaults and hold exactly their union with the project's list |
| Merge.MergedBaseMembership | src/config/merge.rs:21-48 | "base" is in either merged profile list iff the project inherits a global "base" or lists "base" itself |
| Merge.MergedProfiles | src/config/merge.rs:48 | merged `profiles` = filtered global defaults as prefix, then the project profiles; elements are the union; the global `profiles` list is never read; with duplicate-free global defaults it is the first occurrences of global-then-project, without duplicates |
| Merge.MergedDefaultProfiles | src/config/merge.rs:36 | merged `default_profiles` does not read the global `profiles` list; with duplicate-free global defaults it is the first occurrences of the filtered global defaults followed by the project's defaults, without duplicates |
| Merge.MergedNetworkIgnoresGlobal | src/config/merge.rs:34 | the merged network mode does not depend on the global layer |
| Merge.MergeFilesystem | src/config/merge.rs:53-60 | each path list keeps the global list as a prefix and holds exactly the union of the global and project lists |
| Merge.MergeShell | src/config/merge.rs:62-71 | `set_env` is the global map overwritten key by key by the project map; env lists are order-preserving unions |
| Merge.MergeConfigs | src/config/merge.rs:10-17 | the detection section is the global one; other sections are merged section by section |
| Merge.MergeKeepsNoDup | src/config/merge.rs:53-71 | duplicate-free global lists stay duplicate-free after the merge |
| Profiles.DefaultProfile | src/config/profile.rs:54-93 | the default profile has no network mode, no raw rules and empty lists |
| Profiles.FromName | src/config/profile.rs:110-122 | a recognised name is exactly the name of the built-in it returns |
| Profiles.Name | src/config/profile.rs:125-136 | every built-in name is a non-empty lower-case word |
| Profiles.BuiltinNameRoundTrip | src/config/profile.rs:110-136 | `from_name(name(b)) == b`, and `from_name(s) == b` iff `name(b) == s` |
| Profiles.ResolveProfile | src/config/profile.rs:174-242 | a built-in name gives its built-in contents; any other name gives something other than the `online` fallback only when its custom or user profile file exists |
| Profiles.ResolveBuiltinIgnoresFiles | src/config/profile.rs:174-186 | a built-in name resolves to its built-in contents, whatever the files say |
| Profiles.ResolveCustomFirst | src/config/profile.rs:188-205 | otherwise an existing `<custom_dir>/<name>.toml` decides; an unloadable one drops the name |
| Profiles.ResolveUserSecond | src/config/profile.rs:207-226 | otherwise an existing `<config_dir>/sx/profiles/<name>.toml` decides; an unloadable one drops the name |
| Profiles.ResolveUnknownIsOnline | src/config/profile.rs:228-242 | an unknown name falls back to the built-in `online` profile |
| Profiles.LoadProfiles | src/config/profile.rs:169-245 | at most one profile per name |
| Profiles.LoadProfilesAppend | src/config/profile.rs:169-245 | loading a concatenation is loading each part, so names keep their order |
| Profiles.LoadProfilesAllResolve | src/config/profile.rs:169-245 | when every name resolves, the i-th profile is the i-th name's |
| Profiles.MergeUnique | src/config/profile.rs:285-293 | the loop over a snapshot of the target computes `MergeSnapshot(target, source)` |
| Profiles.MergeSnapshot | src/config/profile.rs:285-293 | the target is kept as a prefix of the merged list |
| Profiles.MergeSnapshotFacts | src/config/profile.rs:285-293 | the elements of the merged list are the union of both lists, and two duplicate-free lists give a duplicate-free list |
| Profiles.MergeSnapshotKeepsRepeats | src/config/profile.rs:287-292 | repeats inside the source are kept (["x","x"] into [] gives ["x","x"]), unlike `merge_unique_strings` |
| Profiles.MergeSnapshotOfNoDup | src/config/profile.rs:285-293 | with a duplicate-free source, the snapshot merge equals `merge_unique_strings` |
| Profiles.ComposeProfiles | src/config/profile.rs:248-281 | the loop computes the left fold `Compose(profiles)` |
| Profiles.ComposeEmpty | src/config/profile.rs:249 | composing nothing gives the default profile |
| Profiles.Compose | src/config/profile.rs:248-281 | the composed profile never carries raw rules, since the loop never touches `seatbelt` |
| Profiles.ComposeNetworkMode | src/config/profile.rs:252-255 | the composed mode is None iff no profile sets one; otherwise it is the mode of the last profile that sets one |
| Profiles.ComposeLastMode | src/config/profile.rs:252-255 | one loop step keeps the mode composed so far unless the profile sets one |
| Profiles.FieldOfStep | src/config/profile.rs:257-277 | one loop step merges each list field by `merge_unique` |
| Profiles.ComposeSingle | src/config/profile.rs:257-277 | composing one profile returns its lists unchanged |
| Profiles.ComposeFieldElems | src/config/profile.rs:257-277 | each composed list holds exactly the union of the profiles' lists |
| Profiles.ComposeFieldNoDup | src/config/profile.rs:257-277 | duplicate-free inputs give a duplicate-free composed list whose length is the size of the union |
| Commands.LoadEffectiveConfig | src/cli/commands.rs:193-211 | `no_config` gives the default; a failing global or project load is an error carrying its context; it succeeds exactly when both loads do |
| Commands.EffectiveConfigSources | src/cli/commands.rs:205-210 | no project config gives the global config; a non-inheriting project config is used alone; an inheriting one is merged with the global one |
| Commands.DefaultContribution | src/cli/commands.rs:222-227 | the default profiles offered are all of them, or all but "base" when base is not inherited |
| Commands.DefaultContributionSnoc | src/cli/commands.rs:223-226 | the next default profile is offered exactly when base is inherited or it is not "base" |
| Commands.DetectedNames | src/cli/commands.rs:236-245 | detected types contribute their profile names in detection order |
| Commands.DetectedNamesNotBase | src/cli/commands.rs:236-245 | no detected type is named "base" |
| Commands.PushAbsentStep | src/cli/commands.rs:229-234 | a name is pushed exactly when `names` does not contain it yet |
| Commands.PushAbsent | src/cli/commands.rs:229-252 | a guarded push loop yields first-occurrence deduplication of everything offered so far |
| Commands.PushDefaultStep | src/cli/commands.rs:223-226 | the default-profile guard pushes exactly the offered names not yet present |
| Commands.PushDefaults | src/cli/commands.rs:222-227 | the default-profile loop extends the deduplicated list by the contribution |
| Commands.CollectProfileNames | src/cli/commands.rs:214-255 | the names are the deduplicated concatenation of "base" (if inherited), defaults, config profiles, detected types (if auto-detect) and CLI profiles |
| Commands.ProfileNamesFacts | src/cli/commands.rs:214-255 | the names are duplicate-free and hold exactly the offered names; "base" comes first when inherited; otherwise "base" is present iff config or CLI lists it |
| Commands.BaseOfferedOnlyByName | src/cli/commands.rs:217-227 | without inheritance, neither the first step nor the defaults offer "base" |
| Commands.DetermineNetworkMode | src/cli/commands.rs:321-337 | any CLI network flag decides; else the profile's mode; else the config's `network`, else its `default_network` |
| Commands.NetworkModePrecedence | src/cli/commands.rs:321-337 | each exclusive flag gives its mode whatever profile and config say; a profile mode overrides any config; with nothing set the result is offline |
| Commands.CollectAllowReadPaths | src/cli/commands.rs:340-346 | the allow-read paths are config ++ profile ++ CLI, with no deduplication |
| Commands.CollectDenyReadPaths | src/cli/commands.rs:349-355 | the deny-read paths are config ++ profile ++ CLI |
| Commands.CollectAllowWritePaths | src/cli/commands.rs:358-364 | the allow-write paths are config ++ profile ++ CLI |
| Commands.CollectAllowListDirsPaths | src/cli/commands.rs:367-372 | the list-only paths are config ++ profile, with no CLI part |
| Commands.CollectedKeepsSources | src/cli/commands.rs:340-372 | a collected list is its three sources back to back, and holds exactly their elements |
| Commands.ListableAncestors | src/cli/commands.rs:276-285 | the ancestors the walk may add are the proper ancestors of the working directory other than "" and "/" |
| Commands.AddAncestorDirs | src/cli/commands.rs:276-285 | the `while let` walk computes `WithAncestors(dirs, working_dir)` |
| Commands.WithAncestorsFacts | src/cli/commands.rs:276-285 | no list-only paths means no walk; otherwise the paths stay a prefix, every listable ancestor is added, and nothing is duplicated |
| Commands.RawRules | src/cli/commands.rs:306 | the raw rules are the profile's `seatbelt.raw` when both are present |
| Commands.BuildSandboxParams | src/cli/commands.rs:258-318 | the parameters carry the chosen network mode, the expanded collected path lists, the expanded ancestor-extended list-only paths and the raw rules |
| Commands.ExpandedMember | src/utils/paths.rs:19-21 | expanding a list expands each of its members |
| Commands.ConfiguredDenyReachesPolicy | src/cli/commands.rs:268-297 | a deny-read path from config, profile or CLI reaches the generated policy as an expanded deny rule |
| Seatbelt.PathRules | src/sandbox/seatbelt.rs:57-60 | one `subpath` rule per path, in input order |
| Seatbelt.PushPathSection | src/sandbox/seatbelt.rs:55-79 | a non-empty list pushes its comment then its rules; an empty list pushes nothing; the returned text is the input text followed by exactly these lines |
| Seatbelt.PushHeader | src/sandbox/seatbelt.rs:29-30 | pushes the version and deny-default lines; the returned text is the input text followed by exactly these lines |
| Seatbelt.PushProcessRules | src/sandbox/seatbelt.rs:33-36 | pushes the process comment, fork, exec and signal rules; the returned text is the input text followed by exactly these lines |
| Seatbelt.PushSystemRules | src/sandbox/seatbelt.rs:39-45 | pushes the sysctl, metadata and mach-lookup rules with their comments; the returned text is the input text followed by exactly these lines |
| Seatbelt.PushPreamble | src/sandbox/seatbelt.rs:28-48 | an empty profile becomes the fixed preamble, up to the working-directory comment |
| Seatbelt.PushDevices | src/sandbox/seatbelt.rs:82-86 | pushes the four device rules after their comment; the returned text is the input text followed by exactly these lines |
| Seatbelt.PushNetworkRules | src/sandbox/seatbelt.rs:90-103 | pushes exactly the rules of the mode (the offline comment, the online rule, or the four localhost rules); the returned text is the input text followed by exactly these lines |
| Seatbelt.PushRawRules | src/sandbox/seatbelt.rs:106-110 | pushes the custom-rules comment, the raw text and a newline, or nothing; the returned text is the input text followed by exactly these lines |
| Seatbelt.PushFilePieces | src/sandbox/seatbelt.rs:26-89 | the profile through the device rules and the network comment is the concatenation of `FilePieces(params)` |
| Seatbelt.GenerateSeatbeltProfile | src/sandbox/seatbelt.rs:25-113 | the generator's output is `ProfileText(params)` |
| Seatbelt.StartsWithHeader | src/sandbox/seatbelt.rs:29-30 | every profile starts with "(version 1)\n(deny default)\n" |
| Seatbelt.BaselineRulesPresent | src/sandbox/seatbelt.rs:33-86 | the process, system, mach and device rules are present for every input |
| Seatbelt.WorkingDirRuleExactlyWhenSet | src/sandbox/seatbelt.rs:48-52 | the working-directory rule is emitted exactly when the directory is non-empty, right after the preamble |
| Seatbelt.WorkingDirRuleFirst | src/sandbox/seatbelt.rs:48-79 | a working-directory rule occurs in the text before every path rule |
| Seatbelt.DenyRuleAt | src/sandbox/seatbelt.rs:55-61 | the i-th deny-read path has its own rule piece |
| Seatbelt.AllowReadRuleAt | src/sandbox/seatbelt.rs:64-70 | the i-th allow-read path has its own rule piece |
| Seatbelt.AllowWriteRuleAt | src/sandbox/seatbelt.rs:73-79 | the i-th allow-write path has its own rule piece |
| Seatbelt.PathSectionSize | src/sandbox/seatbelt.rs:55-79 | each path section takes one comment plus one piece per path, or nothing when the list is empty |
| Seatbelt.PathRulesOccur | src/sandbox/seatbelt.rs:55-79 | every path's rule occurs in the text at the offset of its piece |
| Seatbelt.PathRulesInOrder | src/sandbox/seatbelt.rs:54-86 | deny-read rules come before allow-read, allow-read before allow-write, each list in input order, and all before the device rules |
| Seatbelt.TailBlocksInOrder | src/sandbox/seatbelt.rs:81-110 | the device rules come before the network rules, and those before the raw rules |
| Seatbelt.NetworkRulesPresent | src/sandbox/seatbelt.rs:89-103 | offline gives the "Network disabled" comment, online gives `(allow network*)`, localhost names `localhost:*` and `127.0.0.1:*` |
| Seatbelt.NetworkRulesGrant | src/sandbox/seatbelt.rs:90-103 | the online and localhost rules grant network access; offline pushes no granting rule |
| Seatbelt.NetworkGrantsOnlyByMode | src/sandbox/seatbelt.rs:26-103 | before the raw rules, only the network block can grant network access, and only when the mode is not offline |
| Seatbelt.TextDecomposition | src/sandbox/seatbelt.rs:88-110 | the text is the file part, then the network rules of the mode, then the raw part |
| Seatbelt.RawRulesAppended | src/sandbox/seatbelt.rs:105-110 | raw rules are appended verbatim, after their comment and before a final newline, to the text without them |
| Seatbelt.ParenthesesBalanced | src/sandbox/seatbelt.rs:25-113 | when the paths and raw rules balance their parentheses, so does the whole policy |
| Trace.FromOperation | src/sandbox/trace.rs:51-65 | the kind is decided by substrings in priority order network > file-read > file-write > process > mach > other, each case iff |
| Trace.FromOperationExamples | src/sandbox/trace.rs:276-301 | "network-outbound", "file-read-data", "file-write-data", "process-exec", "mach-lookup" and "unknown-op" get their kinds, as in the unit test |
| Trace.FileWriteDataExample | src/sandbox/trace.rs:285-288 | "file-write-data" is a write: it contains "file-write" but neither "network" nor "file-read" |
| Trace.Plain | src/sandbox/trace.rs:39-48 | every plain label is an upper-case word in brackets, with no escape |
| Trace.Colored | src/sandbox/trace.rs:27-36 | a colored label is made of complete escape sequences and strips to the plain label of the same kind |
| Trace.StripAnsiCodes | src/sandbox/trace.rs:244-267 | the nested-loop stripper computes `StripAnsi(s)` |
| Trace.SkipEscapeSequence | src/sandbox/trace.rs:254-259 | the inner loop skips up to and including the first ASCII letter |
| Trace.StripAnsi | src/sandbox/trace.rs:244-267 | the stripped text holds no ESC and is no longer than the input |
| Trace.StripKeeps | src/sandbox/trace.rs:261-262 | a character other than ESC is kept |
| Trace.StripSkipsSequence | src/sandbox/trace.rs:249-259 | ESC '[' starts a sequence that ends at the first ASCII letter |
| Trace.StripDropsLoneEscape | src/sandbox/trace.rs:249-251 | an ESC not followed by '[' is dropped alone |
| Trace.StripIsSubsequence | src/sandbox/trace.rs:244-267 | the output is a subsequence of the input |
| Trace.StripIdentity | src/sandbox/trace.rs:244-267 | a string without ESC is returned unchanged |
| Trace.StripIdempotent | src/sandbox/trace.rs:244-267 | stripping twice is stripping once |
| Trace.StripAppend | src/sandbox/trace.rs:244-267 | after a text whose sequences are complete, stripping distributes over concatenation |
| Trace.StyledStrips | src/sandbox/trace.rs:234-240 | an SGR-styled text strips to the text |
| Trace.SplitAtSpaceOf | src/sandbox/trace.rs:226-229 | a single word, a space and the rest split into the word and the rest |
| Trace.SkipDenyCountOf | src/sandbox/trace.rs:220-224 | "(count) " in front of the operation is skipped |
| Trace.DenialOf | src/sandbox/trace.rs:210-214 | there is a denial exactly when " deny" occurs after the marker, and its operation has no space |
| Trace.ParseDenial | src/sandbox/trace.rs:206-208 | without "Sandbox: " there is no denial |
| Trace.DenialOfFields | src/sandbox/trace.rs:210-228 | "process deny(n) operation target" yields exactly that process, operation and target |
| Trace.ParseDenialOfLine | src/sandbox/trace.rs:200-228 | a kernel line "…Sandbox: process deny(n) operation target" yields its process, operation and target |
| Trace.FormatViolation | src/sandbox/trace.rs:193-240 | header, blank, deny-less and marker-less lines give nothing; otherwise the output renders the parsed denial with the kind of its operation |
| Trace.FormatKernelLine | src/sandbox/trace.rs:193-240 | a kernel denial line is displayed as the rendering of its own process, operation and target |
| Trace.KernelLineShape | src/sandbox/trace.rs:195-203 | a kernel denial line mentions "deny" and is not blank, so it passes the early filters |
| Trace.Render | src/sandbox/trace.rs:234-240 | the display contains the colored kind, the operation, the target and the process |
| Trace.StripRender | src/sandbox/trace.rs:234-240 | stripped of colors, the display is "[sx:trace] <plain kind> <operation> <target> (<process>)" |
| Violations.DigitsValueIff | src/sandbox/violations.rs:56 | digit-by-digit reading succeeds exactly on digit strings, with their decimal value |
| Violations.ParseU32 | src/sandbox/violations.rs:56 | a parsed pid fits in a `u32` |
| Violations.ParseU32Iff | src/sandbox/violations.rs:56 | `str::parse::<u32>` accepts an optional '+' then a non-empty digit string whose value fits; "", "+" and a leading '-' are rejected |
| Violations.DecimalDigits | src/sandbox/violations.rs:56 | the decimal form of n is a digit string with value n |
| Violations.ParseU32OfDecimal | src/sandbox/violations.rs:56 | decimal numbers up to 2^32-1, with or without '+', parse back to themselves; larger ones are rejected |
| Violations.DenyFields | src/sandbox/violations.rs:35-50 | no "deny" gives no operation and no path; the operation is one whitespace-free token; no operation means no path |
| Violations.PidOf | src/sandbox/violations.rs:53-58 | a pid fits in a `u32`, and a line without '(' has none |
| Violations.PidOfAt | src/sandbox/violations.rs:53-58 | the pid is the parse of the text between the first '(' and the next ')' |
| Violations.PidOfNoClose | src/sandbox/violations.rs:53-58 | no ')' after the first '(' gives no pid |
| Violations.PidBetweenParentheses | src/sandbox/violations.rs:53-58 | in "prefix(inner)rest" with no '(' in the prefix and no ')' in inner, the pid is the parse of inner |
| Violations.PidOfParenthesized | src/sandbox/violations.rs:53-58 | a parenthesized decimal u32 after a '('-free prefix is read back as the pid |
| Violations.ParsedViolation | src/sandbox/violations.rs:18-66 | a parsed violation needs "deny", has an empty timestamp, no process, a non-empty single-token operation and a u32 pid if any |
| Violations.ReadDenyFields | src/sandbox/violations.rs:35-50 | the operation and path step computes `DenyFields(line)` |
| Violations.ReadPid | src/sandbox/violations.rs:53-58 | the pid step computes `PidOf(line)` |
| Violations.ReadPidAt | src/sandbox/violations.rs:54-57 | from the first '(' on, the pid step computes `PidOf(line)` |
| Violations.Parse | src/sandbox/violations.rs:18-66 | filling in the fields step by step yields `ParsedViolation(line)` |
| Violations.ToLogLine | src/sandbox/violations.rs:69-86 | pushing the pieces yields `LogLine(v)`: timestamp and space if any, "deny ", operation, space and path if any |
| Violations.LogLineShowsFields | src/sandbox/violations.rs:69-86 | the log line contains "deny", the operation and the path |
| Violations.LogLineTokens | src/sandbox/violations.rs:69-86 | without a timestamp, the whitespace tokens of the log line are "deny", the operation and the path |
| Violations.ParseLogLine | src/sandbox/violations.rs:18-86 | parsing the log line of a violation with single-word fields and no '(' gives the violation back |
| Detection.AsStr | src/detection/project_type.rs:18-26 | every name is a non-empty lower-case word |
| Detection.ToProfile | src/detection/project_type.rs:29-31 | the profile name of a type is its `as_str` name |
| Detection.AsStrInjective | src/detection/project_type.rs:18-31 | `as_str` is injective and `to_profile == as_str` |
| Detection.All | src/detection/project_type.rs:34-42 | five types, Bun first |
| Detection.AllInRankOrder | src/detection/project_type.rs:34-42 | `all` lists every type once: Bun, Node, Python, Rust, Go |
| Detection.Markers | src/detection/project_type.rs:45-54 | every type has at least one marker file, none listed twice |
| Detection.MarkersDisjoint | src/detection/project_type.rs:45-54 | no marker file belongs to two types |
| Detection.AnyMarkerExistsIff | src/detection/project_type.rs:60 | `any` finds a marker exactly when some marker file exists |
| Detection.FilterFrom | src/detection/project_type.rs:57-63 | the filter keeps exactly the accepted types, in the order of `all` |
| Detection.DetectProjectTypes | src/detection/project_type.rs:57-63 | exactly the present types, in the fixed order, each once, at most five, none when no marker exists |
| Detection.DetectProjectType | src/detection/project_type.rs:66-68 | the head of the detected list, None exactly when that list is empty |
| Detection.DetectProjectTypeIsFirstPresent | src/detection/project_type.rs:66-68 | the primary type is present and no earlier type in the order is |
| Detection.MatchingRules | src/detection/project_type.rs:72-81 | exactly the rule names whose markers exist, without duplicates |
| Detection.DetectProjectTypesWithRules | src/detection/project_type.rs:72-81 | the set of names is exactly the rules with an existing marker, for any iteration order |
| Detection.WithRulesOrderIrrelevant | src/detection/project_type.rs:72-81 | two iteration orders give the same names and the same count |
| Prompt.FormatPromptIndicator | src/shell/prompt.rs:26-44 | the indicator ends with a space, and contains an escape exactly when the style is not Plain |
| Prompt.ColoredWrapsPlain | src/shell/prompt.rs:35-41 | Default and Colored are identical: the mode's color, "[sx:mode]", reset, a space |
| Prompt.ColoredStartsWithColor | src/shell/prompt.rs:36-41 | the colored indicator starts with the mode's color code |
| Prompt.IndicatorNamesMode | src/shell/prompt.rs:26-44 | every style contains "sx:<mode>" |
| Prompt.IndicatorsDistinct | src/shell/prompt.rs:26-44 | different modes give different indicators in every style |
| Shell.ShellOfName | src/shell/integration.rs:20-25 | exact matches "zsh", "bash", "fish"; anything else is Unknown |
| Shell.FromPath | src/shell/integration.rs:16-26 | only the final component decides; no component counts as the empty name |
| Shell.FromPathOfJoin | src/shell/integration.rs:16-26 | the directory is irrelevant: dir/name is classified by name alone |
| Shell.FromPathDirectoryIrrelevant | src/shell/integration.rs:16-26 | /bin/zsh and /usr/local/bin/zsh are both Zsh |
| Shell.FromPathOtherShell | src/shell/integration.rs:20-25 | /bin/sh is Unknown |
| Shell.FromPathNoComponent | src/shell/integration.rs:18 | "/" and "" are Unknown |
| Paths.Join | src/utils/paths.rs:7 | `Path::join`: an absolute path replaces the base; otherwise a separator is added when needed |
| Paths.ExpandPath | src/utils/paths.rs:4-16 | "~/rest" with a known home is home joined with rest; "~" is home; everything else is `shellexpand`'s result or the path itself |
| Paths.ExpandPaths | src/utils/paths.rs:19-21 | element-wise expansion, same length and order |
| Paths.ExpandTildeInHome | src/utils/paths.rs:5-8 | "~/rest" expands to home + "/" + rest for a home without trailing '/' |
| Paths.Parent | src/config/project.rs:35 | the parent is strictly shorter, and "" and "/" have none |
| Paths.FileName | src/shell/integration.rs:18 | a final component is non-empty and holds no '/' |
| Paths.Ancestors | src/cli/commands.rs:277-284 | every ancestor is shorter than the path |
| Paths.AncestorsShrink | src/cli/commands.rs:277-284 | the ancestors come nearest first, each strictly shorter than the one before |
| ProjectConfig.SearchDirs | src/config/project.rs:26-38 | the search starts with the start directory itself |
| ProjectConfig.SearchDirsEndAtTop | src/config/project.rs:35-37 | the search ends at a directory whose `pop` fails |
| ProjectConfig.FirstConfig | src/config/project.rs:26-41 | the nearest directory with `.sandbox.toml` is found; nothing iff none has one |
| ProjectConfig.FindProjectConfig | src/config/project.rs:26-41 | the loop with `pop` computes `FirstConfig(SearchDirs(start))` |
| ProjectConfig.FindNearestFirst | src/config/project.rs:29-38 | the start directory is checked first, then the search continues from its parent, and ends at the root |
| ProjectConfig.LoadProjectConfig | src/config/project.rs:13-23 | a missing file gives `Ok(None)`; otherwise the loader's result or error |
| ProjectConfig.LoadedConfigIsFound | src/config/project.rs:13-41 | when `load_project_config(dir)` finds a file in `dir` itself, `find_project_config(dir)` would return that same file; a corollary only, since the command path calls `load_project_config` on the working directory directly (src/cli/commands.rs:203) and never searches upward |
| Cli.NetworkModeOf | src/cli/args.rs:110-118 | online wins; localhost without online; offline otherwise |
| Cli.NetworkModeOfExclusive | src/cli/args.rs:62-71 | with the three flags mutually exclusive, each flag gives its own mode and none gives offline |

## Left out

- `TraceSession` (spawning `log stream`, the reader thread, the cancel flag): process management and concurrency. Only the line formatter it calls is modelled.
- `src/sandbox/executor.rs`: spawning `sandbox-exec`, temporary files, environment variables, the ZDOTDIR wrapper.
- File reading and TOML deserialisation (`load_global_config`, `load_profile`, `BuiltinProfile::load`): loaded configurations and profiles are inputs. The built-in profile contents are a total function from built-in to optional profile. Its `None` stands for invalid embedded TOML.
- `log_violation`, `read_violations`, `default_log_path`, `ensure_log_dir`: file I/O.
- The shell integration scripts: constant template text.
- clap parsing, `init_config`, `explain`, `dry_run`, `execute`, `build_sandbox_context`: UI and I/O around the modelled functions. Mutual exclusion of the network flags is a predicate the lemmas assume, not a parser.
- `dirs::home_dir`, `dirs::config_dir`, `shellexpand`, `Path::exists`: parameters.
- Warnings printed with `eprintln!`: output only.
- `Paths.Parent`: does not normalise "." components or repeated separators beyond trailing ones.
- `to_str` on a non-UTF-8 file name: strings are sequences of characters, so every name converts.
- `Detection.DetectProjectTypesWithRules`: the `HashMap` iteration order is a parameter, any duplicate-free enumeration of the keys. Its contract is about the set of names and their count, not their order.
- `Seatbelt.NetworkGrantsOnlyByMode`: stated over the pushed pieces. No piece before the network block starts with "(allow network". It makes no claim about substrings that straddle pieces or occur inside user paths.
- `Seatbelt.ParenthesesBalanced`: balance means equal counts of '(' and ')', not correct nesting.
- `Violations.ParseLogLine`: requires single-word operation and path without '('. A multi-word path is re-joined with single spaces, and a '(' would be read as a pid.
- `Violations.ParsedViolation`: the pid is a `nat` at most `MaxU32`, not a machine `u32`.
- `Trace.StripAnsiCodes`: the test's literal example is covered by the general `Trace.StripRender` and `Trace.StripAppend` lemmas, not by a lemma about that literal.
- `Trace.ParseDenialOfLine`: covers lines whose process and operation are single words and whose target does not end in whitespace. Other lines are described only by the contract of `Trace.FormatViolation`.

## Source discrepancies

- `src/cli/commands.rs:315` builds `SandboxParams` with an `allow_list_dirs` field, which `src/sandbox/seatbelt.rs:7-22` does not declare. `Commands.BuildSandboxParams` returns the list-only paths beside the parameters, and the generator has no list-only section.
- `src/cli/commands.rs:119-120` treats the generator's result as a `Result` (`.context(...)?`), but `generate_seatbelt_profile` returns a plain `String`. The model follows the generator: no error path, no path validation, no rejection of quotes.
- The generator emits deny-read rules before allow-read rules (`src/sandbox/seatbelt.rs:54-70`). The model follows the code.
- `Violation::parse` first returns `None` when a line has neither "sandboxd" nor "deny" (`src/sandbox/violations.rs:23-25`). A result also needs an operation or a path, and both are read only after "deny" (lines 35-50, 61-65). So a line with "sandboxd" but no "deny" also gives `None`, and the "sandboxd" test never changes the outcome. `Violations.ParsedViolation` states that every parsed violation contains "deny".
- `merge_unique` (`src/config/profile.rs:285-293`) deduplicates against a snapshot of the target taken before the loop, so repeats inside the source survive. `merge_unique_strings` (`src/config/merge.rs:75-84`) does not keep them. `Profiles.MergeSnapshotKeepsRepeats` exhibits the difference.
- An unknown profile name falls back to the built-in `online` profile (`src/config/profile.rs:228-242`). The model follows that code rather than expecting the name to be dropped.
