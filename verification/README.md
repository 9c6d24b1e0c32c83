# sstableloader options: a Dafny model

This project models how Cassandra's bulk loader (`sstableloader`) turns its
command line into a sealed `LoaderOptions` record. That covers
`LoaderOptions.Builder`, its setters, `build()` and `Builder.parseArgs`. The
model runs the same checks in the same order as the code:

1. help;
2. the number of positional arguments;
3. the existence and kind of the sstable directory;
4. `-p`;
5. the initial host list `-d`;
6. the ignore list `-i`;
7. `-cph`;
8. the configuration file `-f`;
9. `-t`;
10. the client TLS overrides.

It also models how configuration values and command-line values take
precedence over one another.

The modules follow the structure of the code:

- `Wrappers` (`wrappers.dfy`): `Option` and `Result`.
- `Java` (`java_strings.dfy`): the two `java.lang.String` operations the
  parser relies on.
  - `Trim` removes leading and trailing characters `<= ' '`.
  - `Split(s, ',')` follows `String.split`. With no comma it gives `[s]`, so
    `""` gives `[""]`. Otherwise it gives the comma-separated pieces with
    trailing empty pieces removed, so `","` gives `[]`.
- `CassandraConfig` (`config.dfy`): the parts of `Config` and
  `EncryptionOptions` that `parseArgs` reads or writes.
- `CommandLine` (`command_line.dfy`): a command line already tokenised by
  commons-cli. It holds the switches present, the value of each option given,
  and the positional arguments.
- `Loader` (`builder.dfy`): `Builder`, `LoaderOptions`, every setter, and
  `build()`.
- `HostResolution` (`host_resolution.dfy`): turning a comma-separated host list
  into addresses. Tokens are resolved in order, and the first unknown host
  stops the loop.
- `OptionResolution` (`parse_args.dfy`): `parseArgs` itself. A run ends in one
  of four outcomes:
  - `HelpShown`: usage was printed and the process exits with status 0.
  - `Failed(e)`: a message was printed and the process exits with status 1.
    `Message(e)` gives the exact text.
  - `Crashed(NumberFormat(...))`: `Integer.parseInt` threw an exception that
    `parseArgs` does not catch.
  - `Done(builder)`: the run completed.
- `ResolutionProperties` (`resolution_properties.dfy`): the properties of the
  whole pipeline.
- `HostListText` and `WorkedExamples` (`worked_examples.dfy`): two sample
  command lines, taken through every stage of the model by lemmas.

The outside world is passed in as an `Env` of oracle functions:

- whether a path exists, and whether it is a directory;
- host-name resolution;
- `Integer.parseInt`;
- the default `Config`;
- the YAML loader.

The file `src/java/org/apache/cassandra/tools/BulkLoader.java` (the
`CmdLineOptions` class) and the encryption, YAML and `Config` classes are not
part of this model.

## Model

| member | source | states |
|---|---|---|
| Java.LeadingCount | src/java/org/apache/cassandra/tools/LoaderOptions.java:272 | the length of the run of characters `<= ' '` that `trim` removes from the front of a token: everything before it is such a character and the character at it is not |
| Java.TrailingStart | src/java/org/apache/cassandra/tools/LoaderOptions.java:293 | where the run of characters `<= ' '` that `trim` removes from the back of a token starts: everything from it on is such a character and the character before it is not |
| Java.Trim | src/java/org/apache/cassandra/tools/LoaderOptions.java:272 | `node.trim()` is never longer than the token and neither starts nor ends with a character `<= ' '`; `TrimIsCore` pins it down completely |
| Java.TrimIsCore | src/java/org/apache/cassandra/tools/LoaderOptions.java:272 | `node.trim()` is the contiguous core of the token; only characters `<= ' '` lie outside it on either side; the core's first and last characters are above `' '` |
| Java.TrimIdempotent | src/java/org/apache/cassandra/tools/LoaderOptions.java:293 | trimming an already trimmed host token changes nothing |
| Java.IndexOf | src/java/org/apache/cassandra/tools/LoaderOptions.java:267 | the position of the first comma in the value, or its length when it has none |
| Java.Pieces | src/java/org/apache/cassandra/tools/LoaderOptions.java:267 | cutting the value at every comma yields at least one piece, and no piece contains a comma |
| Java.JoinPieces | src/java/org/apache/cassandra/tools/LoaderOptions.java:267 | joining the pieces back with commas gives the original text, so splitting loses nothing but the separators |
| Java.PiecesJoin | src/java/org/apache/cassandra/tools/LoaderOptions.java:288 | any non-empty list of comma-free tokens is recovered exactly by cutting their comma-joined text |
| Java.KeptCount | src/java/org/apache/cassandra/tools/LoaderOptions.java:374 | how many pieces `split` keeps: every piece after them is empty and the last kept piece is not |
| Java.Split | src/java/org/apache/cassandra/tools/LoaderOptions.java:267 | `split(",")`: no token holds a comma; a value without a comma comes back as one token; otherwise the last token is never empty; `SplitIsPiecesPrefix` and `SplitEmptyIff` characterise it |
| Java.SplitIsPiecesPrefix | src/java/org/apache/cassandra/tools/LoaderOptions.java:267 | the tokens of a host or cipher list are a prefix of its comma pieces and contain no comma |
| Java.SplitEmptyIff | src/java/org/apache/cassandra/tools/LoaderOptions.java:267 | the list splits into no tokens at all exactly when it is non-empty and made only of commas |
| CommandLine.LongNamesDistinct | src/java/org/apache/cassandra/tools/LoaderOptions.java:16-37 | the long option names are pairwise distinct, so each option is looked up unambiguously |
| Loader.NewBuilder | src/java/org/apache/cassandra/tools/LoaderOptions.java:75-89 | a fresh builder: no directory, user or password, all three flags off, native port 9042, one connection per host, throttle and both storage ports 0, the default encryption records, and empty host and ignore sets |
| Loader.Build | src/java/org/apache/cassandra/tools/LoaderOptions.java:55-71 | `build()` copies every builder field into the sealed options except the ignore set, which the sealed options always hold empty |
| Loader.BuildForgetsIgnores | src/java/org/apache/cassandra/tools/LoaderOptions.java:53 | the sealed options do not depend on the builder's ignore set at all |
| Loader.SetDirectory | src/java/org/apache/cassandra/tools/LoaderOptions.java:101-105 | the directory becomes the one given and every other field is unchanged |
| Loader.SetDebug | src/java/org/apache/cassandra/tools/LoaderOptions.java:107-111 | the debug flag becomes the one given and every other field is unchanged |
| Loader.SetVerbose | src/java/org/apache/cassandra/tools/LoaderOptions.java:113-117 | the verbose flag becomes the one given and every other field is unchanged |
| Loader.SetNoProgress | src/java/org/apache/cassandra/tools/LoaderOptions.java:119-123 | the no-progress flag becomes the one given and every other field is unchanged |
| Loader.SetNativePort | src/java/org/apache/cassandra/tools/LoaderOptions.java:125-129 | the native port becomes the one given and every other field is unchanged |
| Loader.SetUser | src/java/org/apache/cassandra/tools/LoaderOptions.java:131-135 | the user name becomes the one given and every other field is unchanged |
| Loader.SetPassword | src/java/org/apache/cassandra/tools/LoaderOptions.java:137-141 | the password becomes the one given and every other field is unchanged |
| Loader.SetThrottle | src/java/org/apache/cassandra/tools/LoaderOptions.java:143-147 | the throttle becomes the one given and every other field is unchanged |
| Loader.SetStoragePort | src/java/org/apache/cassandra/tools/LoaderOptions.java:149-153 | the storage port becomes the one given and every other field is unchanged |
| Loader.SetSslStoragePort | src/java/org/apache/cassandra/tools/LoaderOptions.java:155-159 | the SSL storage port becomes the one given and every other field is unchanged |
| Loader.SetEncOptions | src/java/org/apache/cassandra/tools/LoaderOptions.java:161-165 | the client encryption options become the ones given and every other field is unchanged |
| Loader.SetConnectionsPerHost | src/java/org/apache/cassandra/tools/LoaderOptions.java:167-171 | connections-per-host becomes the value given and every other field is unchanged |
| Loader.SetServerEncOptions | src/java/org/apache/cassandra/tools/LoaderOptions.java:173-177 | the server encryption options become the ones given and every other field is unchanged |
| Loader.SetHosts | src/java/org/apache/cassandra/tools/LoaderOptions.java:179-183 | the host set is replaced by the one given and every other field is unchanged |
| Loader.AddHost | src/java/org/apache/cassandra/tools/LoaderOptions.java:185-189 | the host is added; the old hosts remain; nothing else joins the set; every other field is unchanged |
| Loader.SetIgnores | src/java/org/apache/cassandra/tools/LoaderOptions.java:191-195 | the ignore set is replaced by the one given and every other field is unchanged |
| Loader.AddIgnore | src/java/org/apache/cassandra/tools/LoaderOptions.java:197-201 | the address is added to the ignores; the old ignores remain; nothing else joins the set; every other field is unchanged |
| HostResolution.ResolveAll | src/java/org/apache/cassandra/tools/LoaderOptions.java:267-277 | the host loop completes exactly when every trimmed token resolves |
| HostResolution.ResolveAllContents | src/java/org/apache/cassandra/tools/LoaderOptions.java:270-273 | when the loop completes, an address is collected exactly when some trimmed token resolves to it |
| HostResolution.ResolveAllFirstFailure | src/java/org/apache/cassandra/tools/LoaderOptions.java:270-277 | when the loop stops, the reported error is that of the first token that fails to resolve, and every token before it resolved |
| HostResolution.UnresolvableTokenAnywhereFails | src/java/org/apache/cassandra/tools/LoaderOptions.java:267-277 | a single unknown host anywhere in the list makes the whole list fail |
| HostResolution.ResolveList | src/java/org/apache/cassandra/tools/LoaderOptions.java:267-277 | a `-d` or `-i` value resolves exactly when every trimmed token of its comma split resolves |
| OptionResolution.Message | src/java/org/apache/cassandra/tools/LoaderOptions.java:220-381 | each error's line names the unknown directory at its end, the non-directory at its start, the host lookup failure at its end; the configuration loader's message is printed as it is; every other error has a fixed non-empty text |
| OptionResolution.CheckArity | src/java/org/apache/cassandra/tools/LoaderOptions.java:217-232 | argument handling continues only with exactly one positional argument, and that argument is the directory name |
| OptionResolution.CheckDirectory | src/java/org/apache/cassandra/tools/LoaderOptions.java:232-245 | the directory is accepted only if it exists and is a directory |
| OptionResolution.IntOption | src/java/org/apache/cassandra/tools/LoaderOptions.java:250-253 | an absent option keeps its fallback; a given one completes exactly when `Integer.parseInt` accepts it and then holds that number; otherwise a number-format exception naming the option and its text escapes (also at lines 301-304 and 329-332) |
| OptionResolution.AddInitialHosts | src/java/org/apache/cassandra/tools/LoaderOptions.java:265-284 | `-d` completes exactly when given and fully resolvable, adding the resolved addresses to the hosts and nothing else; absent, it fails as missing; an unknown host fails with that lookup's message |
| OptionResolution.AddIgnoredHosts | src/java/org/apache/cassandra/tools/LoaderOptions.java:286-299 | `-i` is optional: absent, the builder is unchanged; given, it completes exactly when fully resolvable and adds the addresses to the ignores only; otherwise it fails with the lookup's message |
| OptionResolution.ReadConfig | src/java/org/apache/cassandra/tools/LoaderOptions.java:309-322 | without `-f` the default configuration; with it, a missing file fails as not found, a load failure carries the loader's message, and a loaded file is the configuration |
| OptionResolution.ApplyConfig | src/java/org/apache/cassandra/tools/LoaderOptions.java:323-327 | storage port, SSL storage port, throughput and both encryption records come from the configuration and nothing else in the builder changes |
| OptionResolution.ApplyBasics | src/java/org/apache/cassandra/tools/LoaderOptions.java:245-263 | the directory is recorded, `debug` is untouched, and the stage completes exactly when `-p` is absent or parses; `BasicsStage` gives every field |
| OptionResolution.ApplyHostLists | src/java/org/apache/cassandra/tools/LoaderOptions.java:265-299 | a completed host stage had `-d` and changed only the host and ignore sets; `HostListStage` gives their contents |
| OptionResolution.ApplySettings | src/java/org/apache/cassandra/tools/LoaderOptions.java:301-375 | the last stage never touches the directory or `debug`; `SettingsStage` gives every field it sets |
| OptionResolution.ApplySslOverrides | src/java/org/apache/cassandra/tools/LoaderOptions.java:334-375 | each client TLS field takes the command-line value when one is given and keeps the configured one otherwise; the cipher list is the comma split; client authentication is required exactly when a keystore is given or the configuration already required it |
| OptionResolution.ParseArgs | src/java/org/apache/cassandra/tools/LoaderOptions.java:203-384 | help is shown exactly when requested; a completed run had one positional argument naming an existing directory, which it records; it had an initial host list; and it leaves the debug flag alone |
| ResolutionProperties.BasicsStage | src/java/org/apache/cassandra/tools/LoaderOptions.java:245-263 | with a parsable `-p` this stage completes, sets the directory, verbose, no-progress, port, user and password, and touches nothing else |
| ResolutionProperties.HostListStage | src/java/org/apache/cassandra/tools/LoaderOptions.java:265-299 | with both lists resolvable, the hosts and ignores gain exactly the listed addresses and nothing else changes |
| ResolutionProperties.SettingsStage | src/java/org/apache/cassandra/tools/LoaderOptions.java:301-375 | the final stage sets connections, storage ports, throttle and encryption options from the effective configuration overlaid with the command line |
| ResolutionProperties.Stages | src/java/org/apache/cassandra/tools/LoaderOptions.java:232-377 | once the directory is accepted, the run is the basics stage, then the host lists, then the settings |
| ResolutionProperties.BasicsDoneIff | src/java/org/apache/cassandra/tools/LoaderOptions.java:250-253 | the basics stage completes exactly when `-p` is absent or parses |
| ResolutionProperties.HostListsDoneIff | src/java/org/apache/cassandra/tools/LoaderOptions.java:265-299 | the host stage completes exactly when `-d` is given and both lists resolve |
| ResolutionProperties.SettingsDoneIff | src/java/org/apache/cassandra/tools/LoaderOptions.java:301-332 | the settings stage completes exactly when `-cph` and `-t` parse and the configuration file is readable |
| ResolutionProperties.CompletesIff | src/java/org/apache/cassandra/tools/LoaderOptions.java:203-384 | `parseArgs` returns a builder exactly when every check passes |
| ResolutionProperties.CompletedBuilder | src/java/org/apache/cassandra/tools/LoaderOptions.java:245-375 | every field of the returned builder, in terms of the command line, the configuration and the incoming builder, including membership of both host sets |
| ResolutionProperties.CompletedHostSets | src/java/org/apache/cassandra/tools/LoaderOptions.java:265-299 | the returned hosts (ignores) are the incoming ones plus the resolved `-d` (`-i`) list |
| ResolutionProperties.HelpFirst | src/java/org/apache/cassandra/tools/LoaderOptions.java:211-215 | `-h` wins over every other argument and every error |
| ResolutionProperties.ArityChecked | src/java/org/apache/cassandra/tools/LoaderOptions.java:217-230 | no positional argument fails as missing; more than one fails as too many |
| ResolutionProperties.DirectoryChecked | src/java/org/apache/cassandra/tools/LoaderOptions.java:235-243 | a missing directory is reported as unknown; an existing non-directory is reported as not a directory |
| ResolutionProperties.PortParsedBeforeHosts | src/java/org/apache/cassandra/tools/LoaderOptions.java:250-253 | an unparsable `-p` escapes as a number-format exception before the host list is even looked at |
| ResolutionProperties.InitialHostsRequired | src/java/org/apache/cassandra/tools/LoaderOptions.java:279-284 | without `-d` the run never completes, and once the earlier checks pass it fails with the missing-hosts error |
| ResolutionProperties.UnknownInitialHost | src/java/org/apache/cassandra/tools/LoaderOptions.java:265-277 | an unresolvable `-d` token fails the run with the error of the first bad token |
| ResolutionProperties.UnknownIgnoredHost | src/java/org/apache/cassandra/tools/LoaderOptions.java:286-299 | an unresolvable `-i` token fails the run with the error of the first bad token, after the initial hosts resolved |
| ResolutionProperties.ConnectionsParsedBeforeConfig | src/java/org/apache/cassandra/tools/LoaderOptions.java:301-304 | an unparsable `-cph` escapes before the configuration file is checked |
| ResolutionProperties.ConfigFileChecked | src/java/org/apache/cassandra/tools/LoaderOptions.java:310-318 | a missing configuration file fails with "Config file not found"; an existing one that does not load fails with the loader's message |
| ResolutionProperties.ThrottleParsedLast | src/java/org/apache/cassandra/tools/LoaderOptions.java:329-332 | an unparsable `-t` escapes only after the configuration has been read |
| ResolutionProperties.ConfigPrecedence | src/java/org/apache/cassandra/tools/LoaderOptions.java:309-332 | the default configuration is used when no file is named; ports and server encryption come from the configuration; `-t` overrides the configured throughput, which is used otherwise |
| ResolutionProperties.KeystoreImpliesClientAuth | src/java/org/apache/cassandra/tools/LoaderOptions.java:344-350 | after a completed run, giving a keystore forces client authentication and records the keystore path |
| ResolutionProperties.NoTlsOptionKeepsRecord | src/java/org/apache/cassandra/tools/LoaderOptions.java:334-375 | without any TLS option the configured client encryption options pass through unchanged |
| ResolutionProperties.TlsOverridesIdempotent | src/java/org/apache/cassandra/tools/LoaderOptions.java:334-375 | applying the TLS overrides twice gives the same result as applying them once |
| ResolutionProperties.FreshBuilderDefaults | src/java/org/apache/cassandra/tools/LoaderOptions.java:79-89 | on a fresh builder, absent `-p` and `-cph` leave 9042 and 1, debug stays false, and hosts and ignores hold only what was listed |
| ResolutionProperties.SealedIgnoresAlwaysEmpty | src/java/org/apache/cassandra/tools/LoaderOptions.java:286-299 | an address given with `-i` does reach the builder's ignores, yet the sealed options' ignores are empty |
| ResolutionProperties.CommaOnlyHostListGivesNoHosts | src/java/org/apache/cassandra/tools/LoaderOptions.java:265-284 | `-d ","` completes successfully with an empty host set on a fresh builder |
| HostListText.HostListPieces | src/java/org/apache/cassandra/tools/LoaderOptions.java:267 | `"10.0.0.1, 10.0.0.2"` splits into `"10.0.0.1"` and `" 10.0.0.2"` |
| HostListText.HostListTrimmed | src/java/org/apache/cassandra/tools/LoaderOptions.java:272 | trimming those two tokens yields the bare addresses |
| WorkedExamples.ThrottleAndHostsExample | src/java/org/apache/cassandra/tools/LoaderOptions.java:265-332 | `-d "10.0.0.1, 10.0.0.2" -t 50 /data/ks/table` seals to throttle 50, both hosts, that directory and the default storage port |
| WorkedExamples.KeystoreExample | src/java/org/apache/cassandra/tools/LoaderOptions.java:344-350 | `-d 10.0.0.1 -ks /etc/keystore /data` records the keystore and turns on client authentication |

## Behaviour of the code worth knowing

The model follows the code. In these places the code does something other
than what one would expect from the tool's description:

- **Order of work.** The host lists are resolved before the configuration
  file is looked at, and `-p` is parsed before `-d` is checked. A run with both
  a bad host and a missing configuration file reports the host. A run with a
  bad `-p` and no `-d` crashes on the number. See `PortParsedBeforeHosts` and
  `Stages`.
- **Empty host list.** `-d` is required, but the code never checks that the
  resulting host set is non-empty. `-d ","` splits into no tokens and
  completes with no initial hosts (`CommaOnlyHostListGivesNoHosts`).
- **Ignored hosts are dropped.** `-i` fills the builder's ignore set, but
  `LoaderOptions(Builder)` never copies it. The sealed options' `ignores` is
  always the fresh empty set (`Build`, `SealedIgnoresAlwaysEmpty`).
- **No range checks.** Ports, throttle and connections-per-host take whatever
  `Integer.parseInt` returns, including zero and negative values.
- **Number errors are not caught.** A malformed `-p`, `-cph` or `-t` raises a
  `NumberFormatException`, which the `catch` at line 379 does not name. It is
  modelled as `Crashed`, which is distinct from the orderly `Failed`.

## Left out

- Tokenisation by commons-cli (`GnuParser`) and the option table: the model
  starts from an already parsed `Command`. The `ParseException` path at line
  379 (unknown option, missing option value) is therefore not modelled.
- `printUsage` and the help text: only the fact that usage was printed and the
  exit status are modelled, as `HelpShown` and `Failed`.
- `System.exit` and printing to stderr: modelled as returned `Outcome` values,
  and `Message` gives the text printed for each error.
- `java.io.File`: path normalisation is not modelled. The directory is kept as
  the string given, and `exists` and `isDirectory` are oracles.
- DNS: `InetAddress.getByName` is the `resolve` oracle. What an empty token
  resolves to (the loopback address, in Java) is left to the oracle.
- `Integer.parseInt` is an oracle returning a 32-bit value or nothing.
- YAML loading and the defaults of `Config` and `EncryptionOptions` are
  inputs. `MalformedURLException` from `toURI().toURL()` is folded into the
  loader's failure.
- Aliasing: the model treats the builder, the sealed options, their sets and
  the encryption records as values, while the code shares mutable objects.
  - `LoaderOptions(Builder)` keeps the builder's own `hosts` set and
    encryption objects (lines 67-70). After `o = b.build(); b.host(a)`, `a`
    is in `o.hosts` in Java, but not in the model's `Build(b)`.
  - `hosts(Set)` and `ignore(Set)` store the caller's set (lines 181, 193).
    `host`, `ignore(InetAddress)` and `parseArgs` then add to that very set
    (lines 187, 199, 272, 293).
  - `parseArgs` writes the TLS overrides into the configuration's own
    `client_encryption_options` object (lines 336-374), which the builder then
    holds.

  Treating these as values is sound when the builder is no longer changed after
  `build()` and the sets handed to the setters are not used elsewhere.
  Changes made through a shared object after that point are not modelled.
- Fields of `EncryptionOptions` that `parseArgs` neither reads nor writes are
  not modelled.
- `LoaderOptions.builder()` is not modelled separately: `NewBuilder` takes the
  default encryption records as parameters.
