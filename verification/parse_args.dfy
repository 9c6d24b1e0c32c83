/**
  `Builder.parseArgs`: the staged pipeline that turns a tokenised command
  line into a populated builder, or into a terminal outcome. Every stage that
  fails ends the pipeline; in the code that is a `System.exit` call.
*/
module OptionResolution {
  import opened Wrappers
  import opened Java
  import opened CassandraConfig
  import opened CommandLine
  import opened HostResolution
  import opened Loader

  /** The errors reported on the error stream before the usage text and exit status 1. */
  datatype LoadError =
    | MissingDirectoryArgument
    | TooManyArguments
    | UnknownDirectory(dir: string)
    | NotADirectory(dir: string)
    | MissingInitialHosts
    | UnknownHost(reason: string)
    | ConfigFileNotFound
    | ConfigurationFailure(reason: string)

  /**
    The line printed for each error. It names the offending directory or the
    lookup failure, and passes the configuration loader's own message through.
  */
  function Message(e: LoadError): (r: string)
    ensures e.UnknownDirectory? ==> |e.dir| < |r| && r[|r| - |e.dir|..] == e.dir
    ensures e.NotADirectory? ==> |e.dir| < |r| && r[..|e.dir|] == e.dir
    ensures e.UnknownHost? ==> |e.reason| < |r| && r[|r| - |e.reason|..] == e.reason
    ensures e.ConfigurationFailure? ==> r == e.reason
    ensures !e.ConfigurationFailure? ==> |r| > 0
  {
    match e
    case MissingDirectoryArgument => "Missing sstable directory argument"
    case TooManyArguments => "Too many arguments"
    case UnknownDirectory(dir) => "Unknown directory: " + dir
    case NotADirectory(dir) => dir + " is not a directory"
    case MissingInitialHosts => "Initial hosts must be specified (-d)"
    case UnknownHost(reason) => "Unknown host: " + reason
    case ConfigFileNotFound => "Config file not found"
    case ConfigurationFailure(reason) => reason
  }

  /**
    A `NumberFormatException` from `Integer.parseInt`. The pipeline does not
    catch it, so it leaves `parseArgs` as an exception rather than as a usage error.
  */
  datatype Crash = NumberFormat(option: ValueOption, text: string)

  /**
    How a run ends: help shown (exit 0), an error reported (exit 1), an
    uncaught exception, or a value handed to the next stage.
  */
  datatype Outcome<+T> = HelpShown | Failed(error: LoadError) | Crashed(crash: Crash) | Done(value: T)
  {
    predicate IsFailure() {
      !Done?
    }

    function PropagateFailure<U>(): Outcome<U>
      requires !Done?
    {
      match this
      case HelpShown => HelpShown
      case Failed(e) => Failed(e)
      case Crashed(c) => Crashed(c)
    }

    function Extract(): T
      requires Done?
    {
      value
    }
  }

  /**
    Everything the pipeline asks of the outside world: the file system, the
    name service, `Integer.parseInt`, and the configuration loader (with the
    record `new Config()` yields when no file is named).
  */
  datatype Env = Env(
    pathExists: string -> bool,
    isDirectory: string -> bool,
    resolve: Resolver,
    parseInt: string -> Option<Int32>,
    defaultConfig: Config,
    loadConfig: string -> Result<Config, string>)

  /** Exactly one positional argument, the sstable directory. */
  function CheckArity(args: seq<string>): (r: Outcome<string>)
    ensures !r.HelpShown?
    ensures r.Done? ==> |args| == 1 && r.value == args[0]
  {
    if |args| == 0 then Failed(MissingDirectoryArgument)
    else if |args| > 1 then Failed(TooManyArguments)
    else Done(args[0])
  }

  /** The directory must exist and be a directory. */
  function CheckDirectory(dir: string, env: Env): (r: Outcome<string>)
    ensures !r.HelpShown?
    ensures r.Done? ==> env.pathExists(dir) && env.isDirectory(dir) && r.value == dir
  {
    if !env.pathExists(dir) then Failed(UnknownDirectory(dir))
    else if !env.isDirectory(dir) then Failed(NotADirectory(dir))
    else Done(dir)
  }

  /** The number given for `o`, `fallback` when `o` is absent. */
  function IntOption(cmd: Command, o: ValueOption, env: Env, fallback: Int32): (r: Outcome<Int32>)
    ensures !r.HelpShown? && !r.Failed?
    ensures r.Done? <==> o !in cmd.values || env.parseInt(cmd.values[o]).Some?
    ensures r.Done? ==> if o in cmd.values then env.parseInt(cmd.values[o]) == Some(r.value) else r.value == fallback
    ensures r.Crashed? ==> o in cmd.values && r.crash == NumberFormat(o, cmd.values[o])
  {
    if o in cmd.values then
      match env.parseInt(cmd.values[o])
      case Some(n) => Done(n)
      case None => Crashed(NumberFormat(o, cmd.values[o]))
    else Done(fallback)
  }

  /** `-d`: required; every listed host is added to the builder's hosts. */
  function AddInitialHosts(b: Builder, cmd: Command, env: Env): (r: Outcome<Builder>)
    ensures !r.HelpShown?
    ensures r.Done? ==> Nodes in cmd.values && r.value == b.(hosts := r.value.hosts)
    ensures r.Done? <==> Nodes in cmd.values && ResolveList(cmd.values[Nodes], env.resolve).Success?
    ensures r.Done? ==> r.value.hosts == b.hosts + ResolveList(cmd.values[Nodes], env.resolve).value
    ensures Nodes !in cmd.values ==> r == Failed(MissingInitialHosts)
    ensures Nodes in cmd.values && ResolveList(cmd.values[Nodes], env.resolve).Failure? ==>
      r == Failed(UnknownHost(ResolveList(cmd.values[Nodes], env.resolve).error))
  {
    if Nodes in cmd.values then
      match ResolveList(cmd.values[Nodes], env.resolve)
      case Failure(m) => Failed(UnknownHost(m))
      case Success(s) => Done(b.(hosts := b.hosts + s))
    else Failed(MissingInitialHosts)
  }

  /** `-i`: optional; every listed host is added to the builder's ignore set. */
  function AddIgnoredHosts(b: Builder, cmd: Command, env: Env): (r: Outcome<Builder>)
    ensures !r.HelpShown?
    ensures r.Done? ==> r.value == b.(ignores := r.value.ignores)
    ensures r.Done? <==> Ignore !in cmd.values || ResolveList(cmd.values[Ignore], env.resolve).Success?
    ensures r.Done? && Ignore !in cmd.values ==> r.value == b
    ensures r.Done? && Ignore in cmd.values ==>
      r.value.ignores == b.ignores + ResolveList(cmd.values[Ignore], env.resolve).value
    ensures !r.Done? ==>
      Ignore in cmd.values && r == Failed(UnknownHost(ResolveList(cmd.values[Ignore], env.resolve).error))
  {
    if Ignore in cmd.values then
      match ResolveList(cmd.values[Ignore], env.resolve)
      case Failure(m) => Failed(UnknownHost(m))
      case Success(s) => Done(b.(ignores := b.ignores + s))
    else Done(b)
  }

  /** `-f`: the named file, which must exist, or the default configuration. */
  function ReadConfig(cmd: Command, env: Env): (r: Outcome<Config>)
    ensures !r.HelpShown? && !r.Crashed?
    ensures ConfPath !in cmd.values ==> r == Done(env.defaultConfig)
    ensures ConfPath in cmd.values ==>
      var path := cmd.values[ConfPath];
      && (!env.pathExists(path) ==> r == Failed(ConfigFileNotFound))
      && (env.pathExists(path) && env.loadConfig(path).Failure? ==>
            r == Failed(ConfigurationFailure(env.loadConfig(path).error)))
      && (env.pathExists(path) && env.loadConfig(path).Success? ==> r == Done(env.loadConfig(path).value))
  {
    if ConfPath in cmd.values then
      var path := cmd.values[ConfPath];
      if !env.pathExists(path) then Failed(ConfigFileNotFound)
      else
        match env.loadConfig(path)
        case Success(c) => Done(c)
        case Failure(m) => Failed(ConfigurationFailure(m))
    else Done(env.defaultConfig)
  }

  /** The configuration record's values, taken unconditionally. */
  function ApplyConfig(b: Builder, c: Config): (r: Builder)
    ensures r.storagePort == c.storagePort && r.sslStoragePort == c.sslStoragePort
    ensures r.throttle == c.streamThroughputOutboundMegabitsPerSec
    ensures r.encOptions == c.clientEncryptionOptions && r.serverEncOptions == c.serverEncryptionOptions
    ensures r == b.(storagePort := r.storagePort, sslStoragePort := r.sslStoragePort, throttle := r.throttle,
                    encOptions := r.encOptions, serverEncOptions := r.serverEncOptions)
  {
    b.(storagePort := c.storagePort,
       sslStoragePort := c.sslStoragePort,
       throttle := c.streamThroughputOutboundMegabitsPerSec,
       encOptions := c.clientEncryptionOptions,
       serverEncOptions := c.serverEncryptionOptions)
  }

  /** The value-taking options that override the client encryption record. */
  predicate IsSslOption(o: ValueOption)
  {
    o in {Truststore, TruststorePassword, Keystore, KeystorePassword,
          SslProtocol, SslAlgorithm, StoreType, SslCiphers}
  }

  /**
    The client-side TLS overrides, applied in the code's fixed order. Each
    option overwrites its own field; a keystore also demands client
    authentication; the cipher list is the comma-split value, untrimmed.
  */
  function ApplySslOverrides(e: EncryptionOptions, cmd: Command): (r: EncryptionOptions)
    ensures r.truststore == ValueOr(cmd, Truststore, e.truststore)
    ensures r.truststorePassword == ValueOr(cmd, TruststorePassword, e.truststorePassword)
    ensures r.keystore == ValueOr(cmd, Keystore, e.keystore)
    ensures r.keystorePassword == ValueOr(cmd, KeystorePassword, e.keystorePassword)
    ensures r.protocol == ValueOr(cmd, SslProtocol, e.protocol)
    ensures r.algorithm == ValueOr(cmd, SslAlgorithm, e.algorithm)
    ensures r.storeType == ValueOr(cmd, StoreType, e.storeType)
    ensures r.cipherSuites ==
      (if SslCiphers in cmd.values then Split(cmd.values[SslCiphers], ',') else e.cipherSuites)
    ensures r.requireClientAuth <==> Keystore in cmd.values || e.requireClientAuth
  {
    var e1 := e.(truststore := ValueOr(cmd, Truststore, e.truststore));
    var e2 := e1.(truststorePassword := ValueOr(cmd, TruststorePassword, e1.truststorePassword));
    var e3 := if Keystore in cmd.values then e2.(keystore := cmd.values[Keystore], requireClientAuth := true) else e2;
    var e4 := e3.(keystorePassword := ValueOr(cmd, KeystorePassword, e3.keystorePassword));
    var e5 := e4.(protocol := ValueOr(cmd, SslProtocol, e4.protocol));
    var e6 := e5.(algorithm := ValueOr(cmd, SslAlgorithm, e5.algorithm));
    var e7 := e6.(storeType := ValueOr(cmd, StoreType, e6.storeType));
    if SslCiphers in cmd.values then e7.(cipherSuites := Split(cmd.values[SslCiphers], ',')) else e7
  }

  /** The checked directory, the two switches, `-p`, `-u` and `-pw`. */
  function ApplyBasics(b: Builder, cmd: Command, env: Env, dir: string): (r: Outcome<Builder>)
    ensures !r.HelpShown?
    ensures r.Done? ==> r.value.directory == Some(dir) && r.value.debug == b.debug
    ensures r.Done? <==> Port !in cmd.values || env.parseInt(cmd.values[Port]).Some?
  {
    var b1 := b.(directory := Some(dir),
                 verbose := Verbose in cmd.switches,
                 noProgress := NoProgress in cmd.switches);
    var port :- IntOption(cmd, Port, env, b1.nativePort);
    Done(b1.(nativePort := port,
             user := if Username in cmd.values then Some(cmd.values[Username]) else b1.user,
             passwd := if Password in cmd.values then Some(cmd.values[Password]) else b1.passwd))
  }

  /** `-d`, then `-i`. */
  function ApplyHostLists(b: Builder, cmd: Command, env: Env): (r: Outcome<Builder>)
    ensures !r.HelpShown?
    ensures r.Done? ==> Nodes in cmd.values && r.value == b.(hosts := r.value.hosts, ignores := r.value.ignores)
  {
    var b1 :- AddInitialHosts(b, cmd, env);
    AddIgnoredHosts(b1, cmd, env)
  }

  /** `-cph`, the configuration record, `-t`, then the TLS options. */
  function ApplySettings(b: Builder, cmd: Command, env: Env): (r: Outcome<Builder>)
    ensures !r.HelpShown?
    ensures r.Done? ==> r.value.directory == b.directory && r.value.debug == b.debug
  {
    var connections :- IntOption(cmd, ConnectionsPerHost, env, b.connectionsPerHost);
    var config :- ReadConfig(cmd, env);
    var b1 := ApplyConfig(b.(connectionsPerHost := connections), config);
    var throttle :- IntOption(cmd, Throttle, env, b1.throttle);
    var b2 := b1.(throttle := throttle);
    Done(b2.(encOptions := ApplySslOverrides(b2.encOptions, cmd)))
  }

  /**
    `parseArgs` run on builder `b`. Help wins over everything; a run only
    completes when the arity and directory checks passed, the directory is
    the one positional argument, and `-d` was given; `debug` is never touched.
  */
  function ParseArgs(b: Builder, cmd: Command, env: Env): (r: Outcome<Builder>)
    ensures r.HelpShown? <==> Help in cmd.switches
    ensures r.Done? ==>
      && |cmd.args| == 1
      && env.pathExists(cmd.args[0]) && env.isDirectory(cmd.args[0])
      && r.value.directory == Some(cmd.args[0])
    ensures r.Done? ==> Nodes in cmd.values
    ensures r.Done? ==> r.value.debug == b.debug
  {
    if Help in cmd.switches then HelpShown
    else
      var name :- CheckArity(cmd.args);
      var dir :- CheckDirectory(name, env);
      var b1 :- ApplyBasics(b, cmd, env, dir);
      var b2 :- ApplyHostLists(b1, cmd, env);
      ApplySettings(b2, cmd, env)
  }
}
