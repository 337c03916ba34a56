/** The command-line options of src/cli/args.rs that the modelled core reads.
    Parsing itself (clap) is not modelled: an `Args` value is what the parser
    produced. */
module Cli {
  import opened Common
  import opened Schema

  datatype Args = Args(
    noConfig: bool,
    config: Option<string>,
    offline: bool,
    online: bool,
    localhost: bool,
    allowRead: seq<string>,
    allowWrite: seq<string>,
    denyRead: seq<string>,
    profiles: seq<string>)

  /** The three network flags belong to one clap argument group, so the parser
      accepts at most one of them. */
  predicate NetworkFlagsExclusive(a: Args)
  {
    !(a.offline && a.online) && !(a.offline && a.localhost) && !(a.online && a.localhost)
  }

  /** Some network flag was given on the command line. */
  predicate AnyNetworkFlag(a: Args)
  {
    a.online || a.localhost || a.offline
  }

  /** `Args::network_mode`: `--online` wins over `--localhost`; anything else,
      `--offline` or no flag at all, is offline. */
  function NetworkModeOf(a: Args): (m: NetworkMode)
    ensures m == Online <==> a.online
    ensures m == Localhost <==> !a.online && a.localhost
    ensures m == Offline <==> !a.online && !a.localhost
  {
    if a.online then Online
    else if a.localhost then Localhost
    else Offline
  }

  /** For any arguments the parser accepts, the mode is the one flag given, and
      offline when none is. */
  lemma NetworkModeOfExclusive(a: Args)
    requires NetworkFlagsExclusive(a)
    ensures a.online ==> NetworkModeOf(a) == Online
    ensures a.localhost ==> NetworkModeOf(a) == Localhost
    ensures a.offline || !AnyNetworkFlag(a) ==> NetworkModeOf(a) == Offline
    ensures NetworkModeOf(a) == Offline ==> !a.online && !a.localhost
  {
  }
}
