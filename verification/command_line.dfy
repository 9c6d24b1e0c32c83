/**
  The tokenised command line: what the commons-cli parser hands back once it
  has matched the arguments against the loader's option table.
*/
module CommandLine {

  /** Options that take no value; only their presence matters. */
  datatype Switch = Help | Verbose | NoProgress

  /** Options that carry a value; the parser guarantees the value is there. */
  datatype ValueOption =
    | Port | Username | Password | Nodes | Ignore | ConnectionsPerHost | ConfPath | Throttle
    | Truststore | TruststorePassword | Keystore | KeystorePassword
    | SslProtocol | SslAlgorithm | StoreType | SslCiphers

  /** A parsed command: switches present, option values, and positional arguments in order. */
  datatype Command = Command(switches: set<Switch>, values: map<ValueOption, string>, args: seq<string>)

  /** The long name under which each switch is registered. */
  function SwitchName(s: Switch): string
  {
    match s
    case Help => "help"
    case Verbose => "verbose"
    case NoProgress => "no-progress"
  }

  /** The long name under which each value option is registered. */
  function OptionName(o: ValueOption): string
  {
    match o
    case Port => "port"
    case Username => "username"
    case Password => "password"
    case Nodes => "nodes"
    case Ignore => "ignore"
    case ConnectionsPerHost => "connections-per-host"
    case ConfPath => "conf-path"
    case Throttle => "throttle"
    case Truststore => "truststore"
    case TruststorePassword => "truststore-password"
    case Keystore => "keystore"
    case KeystorePassword => "keystore-password"
    case SslProtocol => "ssl-protocol"
    case SslAlgorithm => "ssl-alg"
    case StoreType => "store-type"
    case SslCiphers => "ssl-ciphers"
  }

  /**
    No two options share a long name, so looking options up by constructor
    instead of by name loses nothing.
  */
  lemma LongNamesDistinct(o1: ValueOption, o2: ValueOption, s1: Switch, s2: Switch)
    ensures OptionName(o1) == OptionName(o2) ==> o1 == o2
    ensures SwitchName(s1) == SwitchName(s2) ==> s1 == s2
    ensures SwitchName(s1) != OptionName(o1)
  {
  }

  /** The value of `o` when it was given, `fallback` otherwise. */
  function ValueOr(cmd: Command, o: ValueOption, fallback: string): string
  {
    if o in cmd.values then cmd.values[o] else fallback
  }
}
