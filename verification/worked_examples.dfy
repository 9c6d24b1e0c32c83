/** The host list of the first sample invocation, taken apart by `split` and `trim`. */
module HostListText {
  import opened Java

  /** The sample host list, as the value of `-d`. */
  const HostList: string := "10.0.0.1, 10.0.0.2"

  /** Its two tokens, the second with the blank that follows the comma. */
  const HostTokens: seq<string> := ["10.0.0.1", " 10.0.0.2"]

  lemma JoinedHostList()
    ensures Join(HostTokens, ',') == HostList
  {
    assert HostTokens[1..] == [" 10.0.0.2"];
  }

  lemma NoCommaInHosts()
    ensures forall i :: 0 <= i < |HostTokens| ==> ',' !in HostTokens[i]
  {
    assert ',' !in HostTokens[0] && ',' !in HostTokens[1];
  }

  lemma NoTrailingEmptyHost()
    ensures KeptCount(HostTokens) == |HostTokens|
  {
    assert HostTokens[|HostTokens| - 1] != "";
  }

  /** Cutting the host list at its comma gives the two tokens back. */
  lemma HostListCut()
    ensures Pieces(HostList, ',') == HostTokens
  {
    JoinedHostList();
    NoCommaInHosts();
    PiecesJoin(HostTokens, ',');
  }

  /** The host list splits on the comma only. */
  lemma HostListPieces()
    ensures Split(HostList, ',') == HostTokens
  {
    HostListCut();
    NoTrailingEmptyHost();
    assert HostList[8] == ',';
  }

  /** Trimming removes the blank before the second host and leaves the first alone. */
  lemma HostListTrimmed()
    ensures Trim("10.0.0.1") == "10.0.0.1" && Trim(" 10.0.0.2") == "10.0.0.2"
  {
    assert " 10.0.0.2"[1..] == "10.0.0.2";
    assert LeadingCount("10.0.0.1") == 0 && LeadingCount(" 10.0.0.2") == 1;
    assert TrailingStart("10.0.0.1") == 8 && TrailingStart("10.0.0.2") == 8;
  }
}

/**
  Two sample invocations, taken through every stage of the model by lemmas,
  in any environment where the directory exists, the hosts resolve and the
  numbers parse.
*/
module WorkedExamples {
  import HostListText
  import opened Wrappers
  import opened Java
  import opened CassandraConfig
  import opened CommandLine
  import opened HostResolution
  import opened Loader
  import opened OptionResolution
  import opened ResolutionProperties

  /** `dir` is an existing directory and `10.0.0.1` resolves to `x`. */
  predicate ExampleEnv(env: Env, dir: string, x: InetAddress)
  {
    && env.pathExists(dir) && env.isDirectory(dir)
    && env.resolve("10.0.0.1") == Success(x)
  }

  /** The first sample's environment: also `10.0.0.2` resolves to `y` and `50` parses. */
  predicate ThrottleEnv(env: Env, x: InetAddress, y: InetAddress)
  {
    && ExampleEnv(env, "/data/ks/table", x)
    && env.resolve("10.0.0.2") == Success(y)
    && env.parseInt("50") == Some(50)
  }

  /** A one-token list whose token trims to a resolvable name. */
  lemma OneTokenResolves(t: string, resolve: Resolver, y: InetAddress)
    requires resolve(Trim(t)) == Success(y)
    ensures ResolveAll([t], resolve) == Success({y})
  {
    assert [t][1..] == [];
    assert ResolveAll([t][1..], resolve) == Success({});
    assert {y} + {} == {y};
  }

  /** A two-token list whose tokens trim to resolvable names. */
  lemma TwoTokensResolve(s: string, t: string, resolve: Resolver, x: InetAddress, y: InetAddress)
    requires resolve(Trim(s)) == Success(x) && resolve(Trim(t)) == Success(y)
    ensures ResolveAll([s, t], resolve) == Success({x, y})
  {
    OneTokenResolves(t, resolve, y);
    assert [s, t][1..] == [t];
    assert [s, t][0] == s;
    assert ResolveAll([s, t], resolve) == Success({x} + {y});
    assert {x} + {y} == {x, y};
  }

  /** `-d "10.0.0.1, 10.0.0.2" -t 50 /data/ks/table`. */
  function ThrottleCommand(): Command
  {
    Command({}, map[Nodes := "10.0.0.1, 10.0.0.2", Throttle := "50"], ["/data/ks/table"])
  }

  /** The first sample's host list resolves to both addresses. */
  lemma ThrottleCommandHosts(env: Env, x: InetAddress, y: InetAddress)
    requires ThrottleEnv(env, x, y)
    ensures ResolveList(ThrottleCommand().values[Nodes], env.resolve) == Success({x, y})
  {
    var v := ThrottleCommand().values[Nodes];
    assert v == HostListText.HostList;
    var tokens := HostListText.HostTokens;
    HostListText.HostListPieces();
    HostListText.HostListTrimmed();
    TwoTokensResolve(tokens[0], tokens[1], env.resolve, x, y);
  }

  /** The first sample passes the directory check and its numbers parse. */
  lemma ThrottleCommandChecks(env: Env, x: InetAddress, y: InetAddress)
    requires ThrottleEnv(env, x, y)
    ensures DirectoryAccepted(ThrottleCommand(), env)
    ensures Parses(ThrottleCommand(), Port, env)
    ensures Parses(ThrottleCommand(), ConnectionsPerHost, env)
    ensures Parses(ThrottleCommand(), Throttle, env)
    ensures ConfigReadable(ThrottleCommand(), env)
    ensures ListResolves(ThrottleCommand(), Ignore, env)
  {
  }

  /** Every stage of the first sample passes. */
  lemma ThrottleCommandAccepted(env: Env, x: InetAddress, y: InetAddress)
    requires ThrottleEnv(env, x, y)
    ensures Accepts(ThrottleCommand(), env)
  {
    ThrottleCommandHosts(env, x, y);
    ThrottleCommandChecks(env, x, y);
  }

  /**
    Without `-f`: both hosts, throttle 50, the directory as given, and the
    default record's storage port.
  */
  lemma ThrottleAndHostsExample(client: EncryptionOptions, server: EncryptionOptions, env: Env, x: InetAddress, y: InetAddress)
    requires ThrottleEnv(env, x, y)
    ensures ParseArgs(NewBuilder(client, server), ThrottleCommand(), env).Done?
    ensures var o := Build(ParseArgs(NewBuilder(client, server), ThrottleCommand(), env).value);
      && o.throttle == 50
      && o.hosts == {x, y}
      && o.directory == Some("/data/ks/table")
      && o.storagePort == env.defaultConfig.storagePort
  {
    ThrottleCommandAccepted(env, x, y);
    CompletedBuilder(NewBuilder(client, server), ThrottleCommand(), env);
    ThrottleExampleHosts(client, server, env, x, y);
  }

  /** The first sample's builder holds exactly the two addresses. */
  lemma ThrottleExampleHosts(client: EncryptionOptions, server: EncryptionOptions, env: Env, x: InetAddress, y: InetAddress)
    requires ThrottleEnv(env, x, y)
    requires Accepts(ThrottleCommand(), env)
    ensures ParseArgs(NewBuilder(client, server), ThrottleCommand(), env).value.hosts == {x, y}
  {
    CompletedHostSets(NewBuilder(client, server), ThrottleCommand(), env);
    ThrottleCommandHosts(env, x, y);
    assert {} + {x, y} == {x, y};
  }

  /** `-ks /etc/keystore -d 10.0.0.1 /data`. */
  function KeystoreCommand(): Command
  {
    Command({}, map[Keystore := "/etc/keystore", Nodes := "10.0.0.1"], ["/data"])
  }

  /** Every stage of the second sample passes. */
  lemma KeystoreCommandAccepted(env: Env, x: InetAddress)
    requires ExampleEnv(env, "/data", x)
    ensures Accepts(KeystoreCommand(), env)
  {
    KeystoreCommandHosts(env, x);
    KeystoreCommandChecks(env, x);
  }

  /** The second sample's single host resolves. */
  lemma KeystoreCommandHosts(env: Env, x: InetAddress)
    requires ExampleEnv(env, "/data", x)
    ensures ResolveList(KeystoreCommand().values[Nodes], env.resolve) == Success({x})
  {
    var v := KeystoreCommand().values[Nodes];
    assert v == "10.0.0.1";
    assert ',' !in v;
    HostListText.HostListTrimmed();
    OneTokenResolves(v, env.resolve, x);
  }

  /** The second sample passes the directory check and names no file and no number. */
  lemma KeystoreCommandChecks(env: Env, x: InetAddress)
    requires ExampleEnv(env, "/data", x)
    ensures DirectoryAccepted(KeystoreCommand(), env)
    ensures Parses(KeystoreCommand(), Port, env)
    ensures Parses(KeystoreCommand(), ConnectionsPerHost, env)
    ensures Parses(KeystoreCommand(), Throttle, env)
    ensures ConfigReadable(KeystoreCommand(), env)
    ensures ListResolves(KeystoreCommand(), Ignore, env)
  {
  }

  /** The keystore is set and client authentication demanded. */
  lemma KeystoreExample(client: EncryptionOptions, server: EncryptionOptions, env: Env, x: InetAddress)
    requires ExampleEnv(env, "/data", x)
    ensures ParseArgs(NewBuilder(client, server), KeystoreCommand(), env).Done?
    ensures var e := ParseArgs(NewBuilder(client, server), KeystoreCommand(), env).value.encOptions;
      e.keystore == "/etc/keystore" && e.requireClientAuth
  {
    KeystoreCommandAccepted(env, x);
    CompletedBuilder(NewBuilder(client, server), KeystoreCommand(), env);
  }
}
