/**
  What `parseArgs` promises, stated against the pipeline: the order in which
  its checks fire, which values win, what a completed run holds, and what
  sealing keeps.
*/
module ResolutionProperties {
  import opened Wrappers
  import opened Java
  import opened CassandraConfig
  import opened CommandLine
  import opened HostResolution
  import opened Loader
  import opened OptionResolution

  /** Help absent, one positional argument, naming an existing directory. */
  predicate DirectoryAccepted(cmd: Command, env: Env)
  {
    && Help !in cmd.switches
    && |cmd.args| == 1
    && env.pathExists(cmd.args[0])
    && env.isDirectory(cmd.args[0])
  }

  /** Option `o`, when given, holds a number `Integer.parseInt` accepts. */
  predicate Parses(cmd: Command, o: ValueOption, env: Env)
  {
    o in cmd.values ==> env.parseInt(cmd.values[o]).Some?
  }

  /** Host list `o`, when given, resolves completely. */
  predicate ListResolves(cmd: Command, o: ValueOption, env: Env)
  {
    o in cmd.values ==> ResolveList(cmd.values[o], env.resolve).Success?
  }

  /** The configuration file, when named, exists and loads. */
  predicate ConfigReadable(cmd: Command, env: Env)
  {
    ConfPath in cmd.values ==>
      env.pathExists(cmd.values[ConfPath]) && env.loadConfig(cmd.values[ConfPath]).Success?
  }

  /** The configuration record in force: the loaded file, or the default record. */
  function EffectiveConfig(cmd: Command, env: Env): Config
    requires ConfigReadable(cmd, env)
  {
    if ConfPath in cmd.values then env.loadConfig(cmd.values[ConfPath]).value else env.defaultConfig
  }

  /** The number given for `o`, or `fallback` when `o` is absent. */
  function NumberOr(cmd: Command, o: ValueOption, env: Env, fallback: Int32): Int32
    requires Parses(cmd, o, env)
  {
    if o in cmd.values then env.parseInt(cmd.values[o]).value else fallback
  }

  /** The addresses of the comma-separated list given for `o`. */
  predicate Listed(cmd: Command, o: ValueOption, env: Env, a: InetAddress)
  {
    o in cmd.values && ResolvesTo(Split(cmd.values[o], ','), env.resolve, a)
  }

  /** Every stage of the pipeline passes. */
  predicate Accepts(cmd: Command, env: Env)
  {
    && DirectoryAccepted(cmd, env)
    && Parses(cmd, Port, env)
    && Nodes in cmd.values
    && ListResolves(cmd, Nodes, env)
    && ListResolves(cmd, Ignore, env)
    && Parses(cmd, ConnectionsPerHost, env)
    && ConfigReadable(cmd, env)
    && Parses(cmd, Throttle, env)
  }

  /** The first stage sets the directory, the switches, `-p`, `-u` and `-pw`, and nothing else. */
  lemma BasicsStage(b: Builder, cmd: Command, env: Env, dir: string)
    requires Parses(cmd, Port, env)
    ensures ApplyBasics(b, cmd, env, dir).Done?
    ensures var nb := ApplyBasics(b, cmd, env, dir).value;
      && nb.directory == Some(dir)
      && nb.verbose == (Verbose in cmd.switches)
      && nb.noProgress == (NoProgress in cmd.switches)
      && nb.nativePort == NumberOr(cmd, Port, env, b.nativePort)
      && nb.user == (if Username in cmd.values then Some(cmd.values[Username]) else b.user)
      && nb.passwd == (if Password in cmd.values then Some(cmd.values[Password]) else b.passwd)
      && nb == b.(directory := nb.directory, verbose := nb.verbose, noProgress := nb.noProgress,
                  nativePort := nb.nativePort, user := nb.user, passwd := nb.passwd)
  {
  }

  /**
    The host stage adds exactly the listed addresses to the builder's hosts
    and ignores, and leaves every other field alone.
  */
  lemma HostListStage(b: Builder, cmd: Command, env: Env)
    requires Nodes in cmd.values && ListResolves(cmd, Nodes, env) && ListResolves(cmd, Ignore, env)
    ensures ApplyHostLists(b, cmd, env).Done?
    ensures var nb := ApplyHostLists(b, cmd, env).value;
      nb == b.(hosts := nb.hosts, ignores := nb.ignores)
    ensures var nb := ApplyHostLists(b, cmd, env).value;
      forall a :: a in nb.hosts <==> a in b.hosts || Listed(cmd, Nodes, env, a)
    ensures var nb := ApplyHostLists(b, cmd, env).value;
      forall a :: a in nb.ignores <==> a in b.ignores || Listed(cmd, Ignore, env, a)
  {
    var nodes := Split(cmd.values[Nodes], ',');
    var b1 := b.(hosts := b.hosts + ResolveAll(nodes, env.resolve).value);
    assert AddInitialHosts(b, cmd, env) == Done(b1);
    forall a
      ensures a in b1.hosts <==> a in b.hosts || Listed(cmd, Nodes, env, a)
    {
      ResolveAllContents(nodes, env.resolve, a);
    }
    if Ignore in cmd.values {
      var ignored := Split(cmd.values[Ignore], ',');
      var b2 := b1.(ignores := b1.ignores + ResolveAll(ignored, env.resolve).value);
      assert AddIgnoredHosts(b1, cmd, env) == Done(b2);
      forall a
        ensures a in b2.ignores <==> a in b.ignores || Listed(cmd, Ignore, env, a)
      {
        ResolveAllContents(ignored, env.resolve, a);
      }
    } else {
      assert AddIgnoredHosts(b1, cmd, env) == Done(b1);
    }
  }

  /**
    The last stage: connections-per-host from the command line, ports and
    server encryption from the configuration record, throttle from `-t` over
    the record, client encryption from the record with the TLS options on top.
  */
  lemma SettingsStage(b: Builder, cmd: Command, env: Env)
    requires Parses(cmd, ConnectionsPerHost, env) && ConfigReadable(cmd, env) && Parses(cmd, Throttle, env)
    ensures ApplySettings(b, cmd, env).Done?
    ensures var nb := ApplySettings(b, cmd, env).value; var cfg := EffectiveConfig(cmd, env);
      && nb.connectionsPerHost == NumberOr(cmd, ConnectionsPerHost, env, b.connectionsPerHost)
      && nb.storagePort == cfg.storagePort
      && nb.sslStoragePort == cfg.sslStoragePort
      && nb.throttle == NumberOr(cmd, Throttle, env, cfg.streamThroughputOutboundMegabitsPerSec)
      && nb.encOptions == ApplySslOverrides(cfg.clientEncryptionOptions, cmd)
      && nb.serverEncOptions == cfg.serverEncryptionOptions
      && nb == b.(connectionsPerHost := nb.connectionsPerHost, storagePort := nb.storagePort,
                  sslStoragePort := nb.sslStoragePort, throttle := nb.throttle,
                  encOptions := nb.encOptions, serverEncOptions := nb.serverEncOptions)
  {
    assert ReadConfig(cmd, env) == Done(EffectiveConfig(cmd, env));
  }

  /** A run that passes the directory checks is the three stages in sequence. */
  lemma Stages(b: Builder, cmd: Command, env: Env)
    requires DirectoryAccepted(cmd, env)
    ensures ParseArgs(b, cmd, env) ==
      match ApplyBasics(b, cmd, env, cmd.args[0])
      case Done(b1) => (
        match ApplyHostLists(b1, cmd, env)
        case Done(b2) => ApplySettings(b2, cmd, env)
        case HelpShown => HelpShown
        case Failed(e) => Failed(e)
        case Crashed(c) => Crashed(c))
      case HelpShown => HelpShown
      case Failed(e) => Failed(e)
      case Crashed(c) => Crashed(c)
  {
    assert CheckArity(cmd.args) == Done(cmd.args[0]);
    assert CheckDirectory(cmd.args[0], env) == Done(cmd.args[0]);
  }

  /** The first stage fails only on a `-p` that does not parse. */
  lemma BasicsDoneIff(b: Builder, cmd: Command, env: Env, dir: string)
    ensures ApplyBasics(b, cmd, env, dir).Done? <==> Parses(cmd, Port, env)
  {
  }

  /** The host stage fails only on a missing `-d` or a host that does not resolve. */
  lemma HostListsDoneIff(b: Builder, cmd: Command, env: Env)
    ensures ApplyHostLists(b, cmd, env).Done? <==>
      Nodes in cmd.values && ListResolves(cmd, Nodes, env) && ListResolves(cmd, Ignore, env)
  {
    if Nodes in cmd.values && ListResolves(cmd, Nodes, env) {
      var b1 := b.(hosts := b.hosts + ResolveList(cmd.values[Nodes], env.resolve).value);
      assert AddInitialHosts(b, cmd, env) == Done(b1);
    }
  }

  /** The last stage fails only on a bad number or an unreadable configuration file. */
  lemma SettingsDoneIff(b: Builder, cmd: Command, env: Env)
    ensures ApplySettings(b, cmd, env).Done? <==>
      Parses(cmd, ConnectionsPerHost, env) && ConfigReadable(cmd, env) && Parses(cmd, Throttle, env)
  {
    if Parses(cmd, ConnectionsPerHost, env) && ConfigReadable(cmd, env) {
      assert ReadConfig(cmd, env) == Done(EffectiveConfig(cmd, env));
    }
  }

  /** A run completes exactly when every stage passes. */
  lemma CompletesIff(b: Builder, cmd: Command, env: Env)
    ensures ParseArgs(b, cmd, env).Done? <==> Accepts(cmd, env)
  {
    if DirectoryAccepted(cmd, env) {
      Stages(b, cmd, env);
      BasicsDoneIff(b, cmd, env, cmd.args[0]);
      if Parses(cmd, Port, env) {
        var b1 := ApplyBasics(b, cmd, env, cmd.args[0]).value;
        HostListsDoneIff(b1, cmd, env);
        if ApplyHostLists(b1, cmd, env).Done? {
          SettingsDoneIff(ApplyHostLists(b1, cmd, env).value, cmd, env);
        }
      }
    }
  }

  /**
    The builder a completed run yields, field by field: the directory, the
    switches, numbers from the command line or the builder's previous value,
    hosts and ignores added to the builder's own, configuration values with
    `-t` and the TLS options on top, and `debug` untouched.
  */
  lemma CompletedBuilder(b: Builder, cmd: Command, env: Env)
    requires Accepts(cmd, env)
    ensures ParseArgs(b, cmd, env).Done?
    ensures var nb := ParseArgs(b, cmd, env).value; var cfg := EffectiveConfig(cmd, env);
      && nb.directory == Some(cmd.args[0])
      && nb.debug == b.debug
      && nb.verbose == (Verbose in cmd.switches)
      && nb.noProgress == (NoProgress in cmd.switches)
      && nb.nativePort == NumberOr(cmd, Port, env, b.nativePort)
      && nb.user == (if Username in cmd.values then Some(cmd.values[Username]) else b.user)
      && nb.passwd == (if Password in cmd.values then Some(cmd.values[Password]) else b.passwd)
      && nb.connectionsPerHost == NumberOr(cmd, ConnectionsPerHost, env, b.connectionsPerHost)
      && nb.storagePort == cfg.storagePort
      && nb.sslStoragePort == cfg.sslStoragePort
      && nb.throttle == NumberOr(cmd, Throttle, env, cfg.streamThroughputOutboundMegabitsPerSec)
      && nb.encOptions == ApplySslOverrides(cfg.clientEncryptionOptions, cmd)
      && nb.serverEncOptions == cfg.serverEncryptionOptions
    ensures var nb := ParseArgs(b, cmd, env).value;
      forall a :: a in nb.hosts <==> a in b.hosts || Listed(cmd, Nodes, env, a)
    ensures var nb := ParseArgs(b, cmd, env).value;
      forall a :: a in nb.ignores <==> a in b.ignores || Listed(cmd, Ignore, env, a)
  {
    Stages(b, cmd, env);
    BasicsStage(b, cmd, env, cmd.args[0]);
    var b1 := ApplyBasics(b, cmd, env, cmd.args[0]).value;
    HostListStage(b1, cmd, env);
    var b2 := ApplyHostLists(b1, cmd, env).value;
    SettingsStage(b2, cmd, env);
    assert ParseArgs(b, cmd, env) == ApplySettings(b2, cmd, env);
  }

  /**
    A completed run's hosts are the builder's hosts plus the resolved `-d`
    list, and its ignores the builder's ignores plus the resolved `-i` list.
  */
  lemma CompletedHostSets(b: Builder, cmd: Command, env: Env)
    requires Accepts(cmd, env)
    ensures ParseArgs(b, cmd, env).Done?
    ensures ParseArgs(b, cmd, env).value.hosts == b.hosts + ResolveList(cmd.values[Nodes], env.resolve).value
    ensures ParseArgs(b, cmd, env).value.ignores ==
      b.ignores + (if Ignore in cmd.values then ResolveList(cmd.values[Ignore], env.resolve).value else {})
  {
    Stages(b, cmd, env);
    BasicsStage(b, cmd, env, cmd.args[0]);
    var b1 := ApplyBasics(b, cmd, env, cmd.args[0]).value;
    var b2 := b1.(hosts := b1.hosts + ResolveList(cmd.values[Nodes], env.resolve).value);
    assert AddInitialHosts(b1, cmd, env) == Done(b2);
    if Ignore in cmd.values {
      var b3 := b2.(ignores := b2.ignores + ResolveList(cmd.values[Ignore], env.resolve).value);
      assert ApplyHostLists(b1, cmd, env) == Done(b3);
      SettingsStage(b3, cmd, env);
    } else {
      assert ApplyHostLists(b1, cmd, env) == Done(b2);
      SettingsStage(b2, cmd, env);
      assert b2.ignores + {} == b2.ignores;
    }
  }

  /** Help ends the run before any other check, whatever else was given. */
  lemma HelpFirst(b: Builder, cmd: Command, env: Env)
    requires Help in cmd.switches
    ensures ParseArgs(b, cmd, env) == HelpShown
  {
  }

  /** The positional-argument count is checked before anything else but help. */
  lemma ArityChecked(b: Builder, cmd: Command, env: Env)
    requires Help !in cmd.switches
    ensures |cmd.args| == 0 ==> ParseArgs(b, cmd, env) == Failed(MissingDirectoryArgument)
    ensures |cmd.args| > 1 ==> ParseArgs(b, cmd, env) == Failed(TooManyArguments)
  {
  }

  /** A missing path and a path that is not a directory are told apart. */
  lemma DirectoryChecked(b: Builder, cmd: Command, env: Env)
    requires Help !in cmd.switches && |cmd.args| == 1
    ensures !env.pathExists(cmd.args[0]) ==>
      ParseArgs(b, cmd, env) == Failed(UnknownDirectory(cmd.args[0]))
    ensures env.pathExists(cmd.args[0]) && !env.isDirectory(cmd.args[0]) ==>
      ParseArgs(b, cmd, env) == Failed(NotADirectory(cmd.args[0]))
  {
  }

  /** `-p` is parsed before the host list is looked at; a bad number escapes as an exception. */
  lemma PortParsedBeforeHosts(b: Builder, cmd: Command, env: Env)
    requires DirectoryAccepted(cmd, env) && !Parses(cmd, Port, env)
    ensures ParseArgs(b, cmd, env) == Crashed(NumberFormat(Port, cmd.values[Port]))
  {
  }

  /** Without `-d` the run fails; it never completes with an empty host set. */
  lemma InitialHostsRequired(b: Builder, cmd: Command, env: Env)
    requires Nodes !in cmd.values
    ensures !ParseArgs(b, cmd, env).Done?
    ensures DirectoryAccepted(cmd, env) && Parses(cmd, Port, env) ==>
      ParseArgs(b, cmd, env) == Failed(MissingInitialHosts)
  {
  }

  /**
    One unresolvable token anywhere in the `-d` list fails the run, reporting
    the first unresolvable token of the list.
  */
  lemma UnknownInitialHost(b: Builder, cmd: Command, env: Env, i: nat) returns (k: nat)
    requires DirectoryAccepted(cmd, env) && Parses(cmd, Port, env) && Nodes in cmd.values
    requires var tokens := Split(cmd.values[Nodes], ',');
      i < |tokens| && env.resolve(Trim(tokens[i])).Failure?
    ensures var tokens := Split(cmd.values[Nodes], ',');
      && k <= i
      && env.resolve(Trim(tokens[k])).Failure?
      && ParseArgs(b, cmd, env) == Failed(UnknownHost(env.resolve(Trim(tokens[k])).error))
      && forall j :: 0 <= j < k ==> env.resolve(Trim(tokens[j])).Success?
  {
    var tokens := Split(cmd.values[Nodes], ',');
    k := ResolveAllFirstFailure(tokens, env.resolve);
    Stages(b, cmd, env);
    BasicsStage(b, cmd, env, cmd.args[0]);
    var b1 := ApplyBasics(b, cmd, env, cmd.args[0]).value;
    assert AddInitialHosts(b1, cmd, env) == Failed(UnknownHost(env.resolve(Trim(tokens[k])).error));
  }

  /**
    The `-i` list is resolved after `-d` and before connections-per-host and
    the configuration file: one unresolvable token fails the run whatever
    those hold.
  */
  lemma UnknownIgnoredHost(b: Builder, cmd: Command, env: Env, i: nat) returns (k: nat)
    requires DirectoryAccepted(cmd, env) && Parses(cmd, Port, env)
    requires Nodes in cmd.values && ListResolves(cmd, Nodes, env) && Ignore in cmd.values
    requires var tokens := Split(cmd.values[Ignore], ',');
      i < |tokens| && env.resolve(Trim(tokens[i])).Failure?
    ensures var tokens := Split(cmd.values[Ignore], ',');
      && k <= i
      && env.resolve(Trim(tokens[k])).Failure?
      && ParseArgs(b, cmd, env) == Failed(UnknownHost(env.resolve(Trim(tokens[k])).error))
      && forall j :: 0 <= j < k ==> env.resolve(Trim(tokens[j])).Success?
  {
    var tokens := Split(cmd.values[Ignore], ',');
    k := ResolveAllFirstFailure(tokens, env.resolve);
    Stages(b, cmd, env);
    BasicsStage(b, cmd, env, cmd.args[0]);
    var b1 := ApplyBasics(b, cmd, env, cmd.args[0]).value;
    var nodes := Split(cmd.values[Nodes], ',');
    var b2 := b1.(hosts := b1.hosts + ResolveAll(nodes, env.resolve).value);
    assert AddInitialHosts(b1, cmd, env) == Done(b2);
    assert AddIgnoredHosts(b2, cmd, env) == Failed(UnknownHost(env.resolve(Trim(tokens[k])).error));
  }

  /** `-cph` is parsed before the configuration file is looked for. */
  lemma ConnectionsParsedBeforeConfig(b: Builder, cmd: Command, env: Env)
    requires DirectoryAccepted(cmd, env) && Parses(cmd, Port, env)
    requires Nodes in cmd.values && ListResolves(cmd, Nodes, env) && ListResolves(cmd, Ignore, env)
    requires !Parses(cmd, ConnectionsPerHost, env)
    ensures ParseArgs(b, cmd, env) ==
      Crashed(NumberFormat(ConnectionsPerHost, cmd.values[ConnectionsPerHost]))
  {
  }

  /** A named configuration file must exist and load; `-t` is parsed only after it. */
  lemma ConfigFileChecked(b: Builder, cmd: Command, env: Env)
    requires DirectoryAccepted(cmd, env) && Parses(cmd, Port, env)
    requires Nodes in cmd.values && ListResolves(cmd, Nodes, env) && ListResolves(cmd, Ignore, env)
    requires Parses(cmd, ConnectionsPerHost, env) && ConfPath in cmd.values
    ensures var path := cmd.values[ConfPath];
      !env.pathExists(path) ==> ParseArgs(b, cmd, env) == Failed(ConfigFileNotFound)
    ensures var path := cmd.values[ConfPath];
      env.pathExists(path) && env.loadConfig(path).Failure? ==>
        ParseArgs(b, cmd, env) == Failed(ConfigurationFailure(env.loadConfig(path).error))
  {
  }

  /** A throttle `Integer.parseInt` rejects escapes as an exception, after every other check. */
  lemma ThrottleParsedLast(b: Builder, cmd: Command, env: Env)
    requires DirectoryAccepted(cmd, env) && Parses(cmd, Port, env)
    requires Nodes in cmd.values && ListResolves(cmd, Nodes, env) && ListResolves(cmd, Ignore, env)
    requires Parses(cmd, ConnectionsPerHost, env) && ConfigReadable(cmd, env)
    requires !Parses(cmd, Throttle, env)
    ensures ParseArgs(b, cmd, env) == Crashed(NumberFormat(Throttle, cmd.values[Throttle]))
  {
  }

  /**
    Storage ports and server encryption always come from the configuration
    record, the default one when `-f` is absent; `-t` beats the configured
    throughput, which is used otherwise.
  */
  lemma ConfigPrecedence(b: Builder, cmd: Command, env: Env)
    requires Accepts(cmd, env)
    ensures ParseArgs(b, cmd, env).Done?
    ensures ConfPath !in cmd.values ==> EffectiveConfig(cmd, env) == env.defaultConfig
    ensures var nb := ParseArgs(b, cmd, env).value; var cfg := EffectiveConfig(cmd, env);
      && nb.storagePort == cfg.storagePort
      && nb.sslStoragePort == cfg.sslStoragePort
      && nb.serverEncOptions == cfg.serverEncryptionOptions
      && (Throttle in cmd.values ==> env.parseInt(cmd.values[Throttle]) == Some(nb.throttle))
      && (Throttle !in cmd.values ==> nb.throttle == cfg.streamThroughputOutboundMegabitsPerSec)
  {
    CompletedBuilder(b, cmd, env);
  }

  /**
    `-ks` sets the keystore and demands client authentication; without it the
    configured demand stands. The other TLS fields follow their own option.
  */
  lemma KeystoreImpliesClientAuth(b: Builder, cmd: Command, env: Env)
    requires Accepts(cmd, env)
    ensures ParseArgs(b, cmd, env).Done?
    ensures var e := ParseArgs(b, cmd, env).value.encOptions;
      Keystore in cmd.values ==> e.keystore == cmd.values[Keystore] && e.requireClientAuth
    ensures var e := ParseArgs(b, cmd, env).value.encOptions;
      Keystore !in cmd.values ==> e.requireClientAuth == EffectiveConfig(cmd, env).clientEncryptionOptions.requireClientAuth
  {
    CompletedBuilder(b, cmd, env);
  }

  /** Without any TLS option the client encryption record is the configured one. */
  lemma NoTlsOptionKeepsRecord(e: EncryptionOptions, cmd: Command)
    requires forall o :: IsSslOption(o) ==> o !in cmd.values
    ensures ApplySslOverrides(e, cmd) == e
  {
    assert Truststore !in cmd.values && TruststorePassword !in cmd.values;
    assert Keystore !in cmd.values && KeystorePassword !in cmd.values;
    assert SslProtocol !in cmd.values && SslAlgorithm !in cmd.values;
    assert StoreType !in cmd.values && SslCiphers !in cmd.values;
  }

  /** Applying the TLS options a second time changes nothing. */
  lemma TlsOverridesIdempotent(e: EncryptionOptions, cmd: Command)
    ensures ApplySslOverrides(ApplySslOverrides(e, cmd), cmd) == ApplySslOverrides(e, cmd)
  {
  }

  /**
    On a fresh builder: native port 9042 and one connection per host unless
    given, no credentials unless given, `debug` off, and exactly the listed
    hosts and ignored hosts.
  */
  lemma FreshBuilderDefaults(client: EncryptionOptions, server: EncryptionOptions, cmd: Command, env: Env)
    requires Accepts(cmd, env)
    ensures var nb := ParseArgs(NewBuilder(client, server), cmd, env).value;
      && (Port !in cmd.values ==> nb.nativePort == 9042)
      && (Port in cmd.values ==> env.parseInt(cmd.values[Port]) == Some(nb.nativePort))
      && (ConnectionsPerHost !in cmd.values ==> nb.connectionsPerHost == 1)
      && (ConnectionsPerHost in cmd.values ==> env.parseInt(cmd.values[ConnectionsPerHost]) == Some(nb.connectionsPerHost))
      && (nb.user.Some? <==> Username in cmd.values)
      && (nb.passwd.Some? <==> Password in cmd.values)
      && !nb.debug
    ensures var nb := ParseArgs(NewBuilder(client, server), cmd, env).value;
      forall a :: a in nb.hosts <==> Listed(cmd, Nodes, env, a)
    ensures var nb := ParseArgs(NewBuilder(client, server), cmd, env).value;
      forall a :: a in nb.ignores <==> Listed(cmd, Ignore, env, a)
  {
    CompletedBuilder(NewBuilder(client, server), cmd, env);
  }

  /**
    The resolved ignore list never reaches the sealed options: `build()`
    yields an empty `ignores` even when `-i` listed hosts that resolved.
  */
  lemma SealedIgnoresAlwaysEmpty(b: Builder, cmd: Command, env: Env, a: InetAddress)
    requires Accepts(cmd, env)
    requires Listed(cmd, Ignore, env, a)
    ensures a in ParseArgs(b, cmd, env).value.ignores
    ensures Build(ParseArgs(b, cmd, env).value).ignores == {}
  {
    CompletedBuilder(b, cmd, env);
  }

  /**
    The code does not insist on a non-empty host set: `-d ","` splits into no
    token at all, so a fresh builder completes with no hosts.
  */
  lemma CommaOnlyHostListGivesNoHosts(client: EncryptionOptions, server: EncryptionOptions, cmd: Command, env: Env)
    requires Accepts(cmd, env) && cmd.values[Nodes] == ","
    ensures ParseArgs(NewBuilder(client, server), cmd, env).Done?
    ensures ParseArgs(NewBuilder(client, server), cmd, env).value.hosts == {}
  {
    SplitEmptyIff(",", ',');
    CompletedBuilder(NewBuilder(client, server), cmd, env);
  }
}
