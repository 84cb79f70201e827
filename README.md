# Jar signing: the signing service's `JarSigner` and the Maven `sign` goal

This project models two pieces of the Eclipse CBI jar signing tools in Dafny. It proves
properties about both.

1. **The signing service's `JarSigner`** (module `WebserviceJarSigner`, file `jar_signer.dfy`).
   This is a validated configuration of the native `jarsigner` command:
   - the builder and its defaults, and `build` with its checks;
   - the first-entry "already signed" heuristic;
   - the dispatch between the resigning strategy and `doSign`;
   - the exit-code check and the command line.

   An archive is the sequence of entries its reader yields. Each entry carries an optional
   array of code signers. The process executor and the resigning strategy are function
   parameters. Both are opaque.
2. **The Maven `sign` goal** (module `SignMojo`, file `sign_mojo.dfy`).
   - It resolves the deprecated and current parameters into the plugin signer's
     configuration.
   - It visits the main artifact, then the attached artifacts in order.
   - It hands each artifact's file to the plugin's signer, and warns about each artifact
     without a file.

   The plugin's own `JarSigner` class is not part of this model. It is an opaque function
   that either returns or throws a `MojoExecutionException`. A run is described by a
   `Trace`: the files handed to the signer, the log lines and the outcome.

There are two supporting modules:
- `JavaText` (`java_text.dfy`) models the decimal text of Java `int`s. String concatenation
  uses it for the proxy ports and exit values, and `Integer.parseInt` uses it for the default
  constants.
- `Wrappers` (`wrappers.dfy`) uses `Option` for `null` and `Result` for a thrown exception.

One quirk of the command line is kept exactly as written. The HTTPS proxy options are guarded
by the HTTP proxy host, so a configuration with only an HTTPS proxy emits no proxy options.
With an HTTP proxy set, the HTTPS pair is always emitted, even when the HTTPS host is empty.

## Model

| member | source | states |
|---|---|---|
| `WebserviceJarSigner.NewBuilder` | webservice/signing/jar/src/main/java/org/eclipse/cbi/webservice/signing/jar/JarSigner.java:105-112 | a fresh builder leaves exactly jarSigner, keystore, keystorePassword, keystoreAlias, timestampingAuthority and timeout unset, and its digest algorithm is null |
| `WebserviceJarSigner.FreshBuilderPassesProxyChecks` | webservice/signing/jar/src/main/java/org/eclipse/cbi/webservice/signing/jar/JarSigner.java:105-112 | a fresh builder given only its required properties builds iff the timeout is positive: the default empty hosts and zero ports pass both proxy checks and are kept, with a null digest |
| `WebserviceJarSigner.Missing` | webservice/signing/jar/src/main/java/org/eclipse/cbi/webservice/signing/jar/JarSigner.java:184-185 | the list of unset required properties is empty iff the builder is complete |
| `WebserviceJarSigner.Build` | webservice/signing/jar/src/main/java/org/eclipse/cbi/webservice/signing/jar/JarSigner.java:184-194 | `build` succeeds iff every property is set, the timeout is > 0 and each proxy host that is non-empty has a port > 0; the result holds the builder's values and is valid; a missing property, a timeout <= 0 or an HTTP host without a positive port fails with its own error, in that order |
| `WebserviceJarSigner.BuildChecksHttpsPortLast` | webservice/signing/jar/src/main/java/org/eclipse/cbi/webservice/signing/jar/JarSigner.java:190-192 | once the other checks pass, `build` fails iff the HTTPS host is non-empty with a port <= 0, and then with the HTTPS message |
| `WebserviceJarSigner.IsAlreadySigned` | webservice/signing/jar/src/main/java/org/eclipse/cbi/webservice/signing/jar/JarSigner.java:256-272 | true iff the archive has a first entry whose signer array is non-null and non-empty |
| `WebserviceJarSigner.EmptyArchiveIsNotSigned` | webservice/signing/jar/src/main/java/org/eclipse/cbi/webservice/signing/jar/JarSigner.java:267-269 | an archive without entries is not reported as signed |
| `WebserviceJarSigner.LaterEntriesIgnored` | webservice/signing/jar/src/main/java/org/eclipse/cbi/webservice/signing/jar/JarSigner.java:259-266 | entries after the first never change the verdict |
| `WebserviceJarSigner.AlreadySignedImpliesSomeEntrySigned` | webservice/signing/jar/src/main/java/org/eclipse/cbi/webservice/signing/jar/JarSigner.java:256-272 | the heuristic never reports a signature that no entry carries |
| `WebserviceJarSigner.UnsignedFirstEntryHidesLaterSignature` | webservice/signing/jar/src/main/java/org/eclipse/cbi/webservice/signing/jar/JarSigner.java:259-263 | the converse fails: an unsigned first entry hides a signed third entry |
| `WebserviceJarSigner.CommandLine` | webservice/signing/jar/src/main/java/org/eclipse/cbi/webservice/signing/jar/JarSigner.java:297-320 | the command, position by position: the jarsigner binary first; the four proxy options iff the HTTP proxy host is non-empty; `-digestalg name` iff a non-default algorithm is given; it ends with `-tsa uri -verbose -keystore ks -storepass pw jar alias`; its length is 10 + 4 + 2 for those parts |
| `WebserviceJarSigner.CreateCommand` | webservice/signing/jar/src/main/java/org/eclipse/cbi/webservice/signing/jar/JarSigner.java:297-320 | appending option after option yields exactly `CommandLine` |
| `WebserviceJarSigner.CreateCommandAsWritten` | webservice/signing/jar/src/main/java/org/eclipse/cbi/webservice/signing/jar/JarSigner.java:308-310 | as written, the command fails to build (`NullPointerException`) iff the algorithm is null; otherwise it equals `CommandLine` |
| `WebserviceJarSigner.NullDigestAlgorithmThrows` | webservice/signing/jar/src/main/java/org/eclipse/cbi/webservice/signing/jar/JarSigner.java:308-309 | a null algorithm throws as written, while the corrected command simply has no digest option |
| `WebserviceJarSigner.DigestOptionIffRequested` | webservice/signing/jar/src/main/java/org/eclipse/cbi/webservice/signing/jar/JarSigner.java:308-310 | `-digestalg` appears among the options between the binary and the fixed tail iff an algorithm other than the default is given |
| `WebserviceJarSigner.HttpsProxyIgnoredWithoutHttpHost` | webservice/signing/jar/src/main/java/org/eclipse/cbi/webservice/signing/jar/JarSigner.java:300-306 | with no HTTP proxy host, the HTTPS host and port do not affect the command, which has no proxy options |
| `WebserviceJarSigner.ExitMessageDeterminesExitValueAndOutput` | webservice/signing/jar/src/main/java/org/eclipse/cbi/webservice/signing/jar/JarSigner.java:278-281 | the failure message carries the exit value and the output: two failures of the same binary with equal messages have equal exit values and equal outputs |
| `WebserviceJarSigner.DoSign` | webservice/signing/jar/src/main/java/org/eclipse/cbi/webservice/signing/jar/JarSigner.java:274-284 | runs `CommandLine` under the configured timeout; returns the same jar path iff the exit value is 0, and otherwise throws an `IOException` whose message names the binary, the exit value and the output |
| `WebserviceJarSigner.SignJar` | webservice/signing/jar/src/main/java/org/eclipse/cbi/webservice/signing/jar/JarSigner.java:246-254 | an already-signed archive gets the strategy's result and no command is run; any other archive runs exactly one command and gets `doSign`'s result |
| `WebserviceJarSigner.SignJarWithDefaultDigest` | webservice/signing/jar/src/main/java/org/eclipse/cbi/webservice/signing/jar/JarSigner.java:207-209 | the one-argument overload signs an unsigned archive with the single command `CommandLine` for the default algorithm, which has no `-digestalg` option; it returns the jar iff that command exits with 0, and otherwise throws the `doSign` message |
| `JavaText.IntToString` | webservice/signing/jar/src/main/java/org/eclipse/cbi/webservice/signing/jar/JarSigner.java:301 | the text of an `int` is non-empty digits, preceded by `-` iff the value is negative |
| `JavaText.ParseInt` | maven-plugins/eclipse-jarsigner-plugin/src/main/java/org/eclipse/cbi/maven/plugins/jarsigner/SignMojo.java:51 | a parsed value always fits a Java `int`, and an empty text never parses |
| `JavaText.ParseIntOfIntToString` | maven-plugins/eclipse-jarsigner-plugin/src/main/java/org/eclipse/cbi/maven/plugins/jarsigner/SignMojo.java:50-54 | parsing the text of any `int` gives that `int` back |
| `JavaText.IntToStringInjective` | webservice/signing/jar/src/main/java/org/eclipse/cbi/webservice/signing/jar/JarSigner.java:279 | distinct integers have distinct texts |
| `SignMojo.DefaultsAreParsedTexts` | maven-plugins/eclipse-jarsigner-plugin/src/main/java/org/eclipse/cbi/maven/plugins/jarsigner/SignMojo.java:50-54 | the default retry timer is 30 and the default retry limit is 3, the parsed values of their string constants |
| `SignMojo.Precedence` | maven-plugins/eclipse-jarsigner-plugin/src/main/java/org/eclipse/cbi/maven/plugins/jarsigner/SignMojo.java:225-235 | the "deprecated wins only if changed while current is at default" rule equals: the current value when it is not the default, else the deprecated value |
| `SignMojo.CreateJarSigner` | maven-plugins/eclipse-jarsigner-plugin/src/main/java/org/eclipse/cbi/maven/plugins/jarsigner/SignMojo.java:219-248 | the signer gets the URL and part name; retry limit and retry wait follow the precedence rule with defaults 3 and 30; continue-on-fail is on iff either flag is set; the depth is in {0, 1} and is 0 iff inner jars are excluded |
| `SignMojo.DefaultParametersResolve` | maven-plugins/eclipse-jarsigner-plugin/src/main/java/org/eclipse/cbi/maven/plugins/jarsigner/SignMojo.java:79-170 | with every parameter at its default, the signer gets 3 retries, a 30 s wait, no continue-on-fail and depth 1 |
| `SignMojo.DeprecatedRetryLimitHonouredUnlessOverridden` | maven-plugins/eclipse-jarsigner-plugin/src/main/java/org/eclipse/cbi/maven/plugins/jarsigner/SignMojo.java:225-229 | the resolved retry limit is one of the two values: the deprecated one when the current one is at the default, else the current one |
| `SignMojo.SignArtifact` | maven-plugins/eclipse-jarsigner-plugin/src/main/java/org/eclipse/cbi/maven/plugins/jarsigner/SignMojo.java:204-211 | an artifact with a file hands exactly that file to the signer and takes its outcome; one without a file only logs a warning naming the artifact |
| `SignMojo.Execute` | maven-plugins/eclipse-jarsigner-plugin/src/main/java/org/eclipse/cbi/maven/plugins/jarsigner/SignMojo.java:186-202 | with `skip`, no signer is built, nothing is signed and one info line is logged; otherwise the signer is built from the parameters, and the run is `SignArtifacts` over the main artifact (if any) followed by the attached ones |
| `SignMojo.AttemptsArePrefixOfFiles` | maven-plugins/eclipse-jarsigner-plugin/src/main/java/org/eclipse/cbi/maven/plugins/jarsigner/SignMojo.java:194-201 | the files handed to the signer are a prefix of the artifacts' files, in artifact order |
| `SignMojo.PassSignsEveryFile` | maven-plugins/eclipse-jarsigner-plugin/src/main/java/org/eclipse/cbi/maven/plugins/jarsigner/SignMojo.java:194-211 | a run ends without exception iff the signer accepts every file; such a run hands over every file in order and warns once per artifact without a file |
| `SignMojo.FailureIsLastAttempt` | maven-plugins/eclipse-jarsigner-plugin/src/main/java/org/eclipse/cbi/maven/plugins/jarsigner/SignMojo.java:199-201 | a run that throws stops at the file the signer rejected, after the signer accepted each earlier file |
| `SignMojo.MainArtifactFirst` | maven-plugins/eclipse-jarsigner-plugin/src/main/java/org/eclipse/cbi/maven/plugins/jarsigner/SignMojo.java:194-201 | the files visited are the main artifact's file, if it has one, followed by the attached artifacts' files in their order |
| `SignMojo.AttemptsComeFromArtifactFiles` | maven-plugins/eclipse-jarsigner-plugin/src/main/java/org/eclipse/cbi/maven/plugins/jarsigner/SignMojo.java:204-211 | every file handed to the signer is the file of one of the artifacts, so an artifact without a file never reaches it |

## Findings

| source | as written | input that shows it | evidently intended | confidence | as-written member | corrected member |
|---|---|---|---|---|---|---|
| webservice/signing/jar/src/main/java/org/eclipse/cbi/webservice/signing/jar/JarSigner.java:308-309 | a `null` digest algorithm passes `digestAlg != DEFAULT`; then `digestAlg.standardName()` throws `NullPointerException` | `signJar(jar, null)` on an archive whose first entry has no signers | no `-digestalg` option, so jarsigner uses its own default; the Javadoc at lines 218-219 and 292-293 allows `null` with that meaning | high; not executed | `WebserviceJarSigner.CreateCommandAsWritten` (`NullDigestAlgorithmThrows`) | `WebserviceJarSigner.CreateCommand` (`CommandLine`, `DigestOptionIffRequested`) |

`DoSign`, `SignJar` and `SignJarWithDefaultDigest` use the corrected command.

## Left out

- `ProcessExecutor.exec` is process I/O. It is a function parameter that returns an exit value and the captured output. The model does not cover the exceptions it can throw itself, or how it enforces the timeout.
- The executor is not a builder property in the model, because it is passed as a parameter. So `Missing` never lists `processExecutor`.
- ZIP parsing by `JarInputStream` is a JDK call. The archive is the sequence of entries that the reader yields, after the manifest, with their signers as the model is given them. Failing to open or read the archive (`IOException`) is not modelled.
- The JDK's rule that an entry's signers are only known once its data has been read to the end is not modelled.
- The internals of `ResigningStrategy` are not shown. The strategy is an opaque function from a path to a result.
- `signJar(jar, digestAlg)` (lines 225-227) only sets the strategy to `ResigningStrategy.resign(this, DEFAULT)`. It is modelled by `SignJar`, with that strategy passed in.
- The `digestAlgorithm` property is stored by `build`, but the code shown never reads it. Signing uses the algorithm passed to `signJar`.
- Proxy hosts are never null in the model. The generated builder rejects a null for a non-nullable property, so `isNullOrEmpty(h)` is `h == ""`.
- `WebserviceJarSigner.Build`: the builder-generated null checks on setters are not modelled.
- `WebserviceJarSigner.DoSign`: the `StringBuffer` that the executor fills is modelled as the output string returned by the executor.
- `JavaText.ParseInt`: accepts only ASCII digits. `Integer.parseInt` also accepts other Unicode decimal digits.
- The plugin's `JarSigner` (retries, waits, continue-on-fail, inner jars, which file types it signs) is not part of this model. It is an opaque function from the resolved configuration and a path to an outcome. Its builder's own defaults are unknown, so `continueOnFail` false in `SignerConfig` means "not switched on".
- `URI.create`, `ApacheHttpClientFileProcessor`, `MavenLogger`, `logOn` and `getLog` are transport and logging. Log lines are values in the run's `Trace`. A malformed signer URL (`IllegalArgumentException`) is not modelled.
- An artifact's `toString()` is an identifier string in the model.
- The deprecated, unused parameters `workdir` and `supportedProjectTypes` are left out.
- Java `int` parameters are unbounded integers in the model. The code shown does no arithmetic on them, only comparisons and printing.
