/** The configuration data model of src/config/schema.rs: the network mode, the
    four configuration sections and their `Default` values. Every section is
    `#[serde(default)]`, so a missing key takes the value given here. */
module Schema {
  import opened Common

  /** Network access mode; serialised in lower case. */
  datatype NetworkMode = Offline | Online | Localhost

  /** `NetworkMode::default()`. */
  function DefaultNetworkMode(): (m: NetworkMode)
    ensures m == Offline
  {
    Offline
  }

  /** The serde name of a mode (`rename_all = "lowercase"`). */
  function NetworkModeName(m: NetworkMode): (name: string)
    ensures name in {"offline", "online", "localhost"}
  {
    match m
    case Offline => "offline"
    case Online => "online"
    case Localhost => "localhost"
  }

  /** Deserialising a mode from its name; any other string is rejected. */
  function ParseNetworkMode(name: string): (r: Option<NetworkMode>)
    ensures r.Some? <==> name in {"offline", "online", "localhost"}
  {
    if name == "offline" then Some(Offline)
    else if name == "online" then Some(Online)
    else if name == "localhost" then Some(Localhost)
    else None
  }

  /** The names and the variants are in one-to-one correspondence. */
  lemma NetworkModeNameBijection(m: NetworkMode, name: string)
    ensures ParseNetworkMode(NetworkModeName(m)) == Some(m)
    ensures ParseNetworkMode(name) == Some(m) <==> NetworkModeName(m) == name
  {
  }

  /** `[sandbox]`. */
  datatype SandboxConfig = SandboxConfig(
    defaultNetwork: NetworkMode,
    defaultProfiles: seq<string>,
    shell: Option<string>,
    promptIndicator: bool,
    logFile: Option<string>,
    inheritGlobal: bool,
    inheritBase: bool,
    profiles: seq<string>,
    network: Option<NetworkMode>)

  /** `[filesystem]`. */
  datatype FilesystemConfig = FilesystemConfig(
    allowRead: seq<string>,
    denyRead: seq<string>,
    allowWrite: seq<string>,
    allowListDirs: seq<string>)

  /** `[shell]`. */
  datatype ShellConfig = ShellConfig(
    passEnv: seq<string>,
    denyEnv: seq<string>,
    setEnv: map<string, string>)

  /** `[profiles]`: automatic detection and the detection rules (profile name to
      marker file names). */
  datatype ProfilesConfig = ProfilesConfig(
    autoDetect: bool,
    detect: map<string, seq<string>>)

  /** A whole configuration file. */
  datatype Config = Config(
    sandbox: SandboxConfig,
    filesystem: FilesystemConfig,
    shell: ShellConfig,
    profiles: ProfilesConfig)

  /** `SandboxConfig::default()`. */
  function DefaultSandboxConfig(): (c: SandboxConfig)
    ensures c.defaultNetwork == Offline && c.defaultProfiles == ["base"]
    ensures c.promptIndicator && c.inheritGlobal && c.inheritBase
    ensures c.shell.None? && c.logFile.None? && c.network.None? && c.profiles == []
  {
    SandboxConfig(DefaultNetworkMode(), ["base"], None, true, None, true, true, [], None)
  }

  /** `Config::default()`: the derived defaults of the other sections are empty
      lists and maps, with detection switched off. */
  function DefaultConfig(): (c: Config)
    ensures c.sandbox == DefaultSandboxConfig()
    ensures c.filesystem.allowRead == [] && c.filesystem.denyRead == []
    ensures c.filesystem.allowWrite == [] && c.filesystem.allowListDirs == []
    ensures c.shell.passEnv == [] && c.shell.denyEnv == [] && c.shell.setEnv == map[]
    ensures !c.profiles.autoDetect && c.profiles.detect == map[]
  {
    Config(
      DefaultSandboxConfig(),
      FilesystemConfig([], [], [], []),
      ShellConfig([], [], map[]),
      ProfilesConfig(false, map[]))
  }
}
