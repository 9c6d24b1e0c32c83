/**
  `LoaderOptions.Builder`, its setters, and the sealing constructor
  `LoaderOptions(Builder)` reached through `build()`.
*/
module Loader {
  import opened Wrappers
  import opened Java
  import opened CassandraConfig

  /** The mutable accumulator, as an immutable record; `None` stands for a Java null. */
  datatype Builder = Builder(
    directory: Option<string>,
    debug: bool,
    verbose: bool,
    noProgress: bool,
    nativePort: Int32,
    user: Option<string>,
    passwd: Option<string>,
    throttle: Int32,
    storagePort: Int32,
    sslStoragePort: Int32,
    encOptions: EncryptionOptions,
    connectionsPerHost: Int32,
    serverEncOptions: EncryptionOptions,
    hosts: set<InetAddress>,
    ignores: set<InetAddress>)

  /** The sealed options handed to the bulk loader. */
  datatype LoaderOptions = LoaderOptions(
    directory: Option<string>,
    debug: bool,
    verbose: bool,
    noProgress: bool,
    nativePort: Int32,
    user: Option<string>,
    passwd: Option<string>,
    throttle: Int32,
    storagePort: Int32,
    sslStoragePort: Int32,
    encOptions: EncryptionOptions,
    connectionsPerHost: Int32,
    serverEncOptions: EncryptionOptions,
    hosts: set<InetAddress>,
    ignores: set<InetAddress>)

  /** The native protocol port used when `-p` is absent. */
  const DefaultNativePort: Int32 := 9042

  /**
    A fresh builder. Fields without an initialiser take Java's zero values;
    the two encryption records are whatever the `EncryptionOptions`
    constructors produce, which are passed in.
  */
  function NewBuilder(clientDefaults: EncryptionOptions, serverDefaults: EncryptionOptions): (r: Builder)
    ensures r.directory.None? && r.user.None? && r.passwd.None?
    ensures !r.debug && !r.verbose && !r.noProgress
    ensures r.nativePort == DefaultNativePort && r.connectionsPerHost == 1
    ensures r.throttle == 0 && r.storagePort == 0 && r.sslStoragePort == 0
    ensures r.encOptions == clientDefaults && r.serverEncOptions == serverDefaults
    ensures r.hosts == {} && r.ignores == {}
  {
    Builder(None, false, false, false, DefaultNativePort, None, None, 0, 0, 0,
            clientDefaults, 1, serverDefaults, {}, {})
  }

  /** The builder's fields, to say which one an update touches. */
  datatype Field =
    | DirectoryField | DebugField | VerboseField | NoProgressField | NativePortField
    | UserField | PasswdField | ThrottleField | StoragePortField | SslStoragePortField
    | EncOptionsField | ConnectionsPerHostField | ServerEncOptionsField | HostsField | IgnoresField

  /** `a` and `b` hold the same value in field `f`. */
  predicate Agree(a: Builder, b: Builder, f: Field)
  {
    match f
    case DirectoryField => a.directory == b.directory
    case DebugField => a.debug == b.debug
    case VerboseField => a.verbose == b.verbose
    case NoProgressField => a.noProgress == b.noProgress
    case NativePortField => a.nativePort == b.nativePort
    case UserField => a.user == b.user
    case PasswdField => a.passwd == b.passwd
    case ThrottleField => a.throttle == b.throttle
    case StoragePortField => a.storagePort == b.storagePort
    case SslStoragePortField => a.sslStoragePort == b.sslStoragePort
    case EncOptionsField => a.encOptions == b.encOptions
    case ConnectionsPerHostField => a.connectionsPerHost == b.connectionsPerHost
    case ServerEncOptionsField => a.serverEncOptions == b.serverEncOptions
    case HostsField => a.hosts == b.hosts
    case IgnoresField => a.ignores == b.ignores
  }

  /** `a` and `b` agree on every field but `f`. */
  predicate SameExcept(a: Builder, b: Builder, f: Field)
  {
    forall g: Field :: g != f ==> Agree(a, b, g)
  }

  /** The sealed options hold the builder's value in field `f`. */
  predicate Carries(b: Builder, o: LoaderOptions, f: Field)
  {
    match f
    case DirectoryField => o.directory == b.directory
    case DebugField => o.debug == b.debug
    case VerboseField => o.verbose == b.verbose
    case NoProgressField => o.noProgress == b.noProgress
    case NativePortField => o.nativePort == b.nativePort
    case UserField => o.user == b.user
    case PasswdField => o.passwd == b.passwd
    case ThrottleField => o.throttle == b.throttle
    case StoragePortField => o.storagePort == b.storagePort
    case SslStoragePortField => o.sslStoragePort == b.sslStoragePort
    case EncOptionsField => o.encOptions == b.encOptions
    case ConnectionsPerHostField => o.connectionsPerHost == b.connectionsPerHost
    case ServerEncOptionsField => o.serverEncOptions == b.serverEncOptions
    case HostsField => o.hosts == b.hosts
    case IgnoresField => o.ignores == b.ignores
  }

  /**
    `build()`: the sealing constructor copies every builder field except the
    ignore list; the sealed `ignores` is a fresh empty set.
  */
  function Build(b: Builder): (o: LoaderOptions)
    ensures forall f: Field :: f != IgnoresField ==> Carries(b, o, f)
    ensures o.ignores == {}
  {
    LoaderOptions(b.directory, b.debug, b.verbose, b.noProgress, b.nativePort, b.user, b.passwd,
                  b.throttle, b.storagePort, b.sslStoragePort, b.encOptions, b.connectionsPerHost,
                  b.serverEncOptions, b.hosts, {})
  }

  /** Whatever ignore list the builder collected, sealing forgets it. */
  lemma BuildForgetsIgnores(b: Builder, ignores: set<InetAddress>)
    ensures Build(b.(ignores := ignores)) == Build(b)
    ensures Build(b).ignores == {}
  {
  }

  function SetDirectory(b: Builder, directory: string): (r: Builder)
    ensures r.directory == Some(directory) && SameExcept(b, r, DirectoryField)
  {
    b.(directory := Some(directory))
  }

  function SetDebug(b: Builder, debug: bool): (r: Builder)
    ensures r.debug == debug && SameExcept(b, r, DebugField)
  {
    b.(debug := debug)
  }

  function SetVerbose(b: Builder, verbose: bool): (r: Builder)
    ensures r.verbose == verbose && SameExcept(b, r, VerboseField)
  {
    b.(verbose := verbose)
  }

  function SetNoProgress(b: Builder, noProgress: bool): (r: Builder)
    ensures r.noProgress == noProgress && SameExcept(b, r, NoProgressField)
  {
    b.(noProgress := noProgress)
  }

  function SetNativePort(b: Builder, nativePort: Int32): (r: Builder)
    ensures r.nativePort == nativePort && SameExcept(b, r, NativePortField)
  {
    b.(nativePort := nativePort)
  }

  function SetUser(b: Builder, user: string): (r: Builder)
    ensures r.user == Some(user) && SameExcept(b, r, UserField)
  {
    b.(user := Some(user))
  }

  function SetPassword(b: Builder, passwd: string): (r: Builder)
    ensures r.passwd == Some(passwd) && SameExcept(b, r, PasswdField)
  {
    b.(passwd := Some(passwd))
  }

  function SetThrottle(b: Builder, throttle: Int32): (r: Builder)
    ensures r.throttle == throttle && SameExcept(b, r, ThrottleField)
  {
    b.(throttle := throttle)
  }

  function SetStoragePort(b: Builder, storagePort: Int32): (r: Builder)
    ensures r.storagePort == storagePort && SameExcept(b, r, StoragePortField)
  {
    b.(storagePort := storagePort)
  }

  function SetSslStoragePort(b: Builder, sslStoragePort: Int32): (r: Builder)
    ensures r.sslStoragePort == sslStoragePort && SameExcept(b, r, SslStoragePortField)
  {
    b.(sslStoragePort := sslStoragePort)
  }

  function SetEncOptions(b: Builder, encOptions: EncryptionOptions): (r: Builder)
    ensures r.encOptions == encOptions && SameExcept(b, r, EncOptionsField)
  {
    b.(encOptions := encOptions)
  }

  function SetConnectionsPerHost(b: Builder, connectionsPerHost: Int32): (r: Builder)
    ensures r.connectionsPerHost == connectionsPerHost && SameExcept(b, r, ConnectionsPerHostField)
  {
    b.(connectionsPerHost := connectionsPerHost)
  }

  function SetServerEncOptions(b: Builder, serverEncOptions: EncryptionOptions): (r: Builder)
    ensures r.serverEncOptions == serverEncOptions && SameExcept(b, r, ServerEncOptionsField)
  {
    b.(serverEncOptions := serverEncOptions)
  }

  /** `hosts(Set)` replaces the whole host set. */
  function SetHosts(b: Builder, hosts: set<InetAddress>): (r: Builder)
    ensures r.hosts == hosts && SameExcept(b, r, HostsField)
  {
    b.(hosts := hosts)
  }

  /** `host(InetAddress)` adds one address and keeps the others. */
  function AddHost(b: Builder, host: InetAddress): (r: Builder)
    ensures host in r.hosts && b.hosts <= r.hosts && r.hosts - b.hosts <= {host}
    ensures SameExcept(b, r, HostsField)
  {
    b.(hosts := b.hosts + {host})
  }

  /** `ignore(Set)` replaces the whole ignore set. */
  function SetIgnores(b: Builder, ignores: set<InetAddress>): (r: Builder)
    ensures r.ignores == ignores && SameExcept(b, r, IgnoresField)
  {
    b.(ignores := ignores)
  }

  /** `ignore(InetAddress)` adds one address and keeps the others. */
  function AddIgnore(b: Builder, ignore: InetAddress): (r: Builder)
    ensures ignore in r.ignores && b.ignores <= r.ignores && r.ignores - b.ignores <= {ignore}
    ensures SameExcept(b, r, IgnoresField)
  {
    b.(ignores := b.ignores + {ignore})
  }
}
