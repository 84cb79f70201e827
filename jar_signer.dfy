/**
 * The signing service's `JarSigner`: a validated configuration of the
 * native `jarsigner` command, the already-signed heuristic, the
 * resign-or-sign dispatch, the exit-code check and the command line.
 */
module WebserviceJarSigner {
  import opened Wrappers
  import JavaText

  type Path = string

  /** A message digest algorithm; `Default` leaves the choice to jarsigner. */
  datatype MessageDigestAlgorithm = Default | Algorithm(standardName: string)

  /** The identity a code signer attests. */
  datatype CodeSigner = CodeSigner(identity: string)

  /**
   * An archive entry as the JAR reader reports it; `codeSigners` is `None`
   * where the reader reports no signer array at all.
   */
  datatype JarEntry = JarEntry(name: string, codeSigners: Option<seq<CodeSigner>>)

  /** An archive, as the sequence of entries its reader yields. */
  type Archive = seq<JarEntry>

  /** What a `JarSigner` is built from. `digestAlgorithm` is nullable. */
  datatype JarSigner = JarSigner(
    jarSigner: Path,
    keystore: Path,
    keystorePassword: string,
    keystoreAlias: string,
    timestampingAuthority: string,
    httpProxyHost: string,
    httpProxyPort: int,
    httpsProxyHost: string,
    httpsProxyPort: int,
    digestAlgorithm: Option<MessageDigestAlgorithm>,
    timeout: int)

  /**
   * The builder: every non-nullable property is `None` until it is set;
   * `digestAlgorithm` is nullable and `None` is its `null`.
   */
  datatype Builder = Builder(
    jarSigner: Option<Path>,
    keystore: Option<Path>,
    keystorePassword: Option<string>,
    keystoreAlias: Option<string>,
    timestampingAuthority: Option<string>,
    httpProxyHost: Option<string>,
    httpProxyPort: Option<int>,
    httpsProxyHost: Option<string>,
    httpsProxyPort: Option<int>,
    digestAlgorithm: Option<MessageDigestAlgorithm>,
    timeout: Option<int>)

  datatype BuildError =
    | MissingProperties(names: seq<string>)  // autoBuild: required properties never set
    | IllegalState(message: string)          // a failed checkState in build

  /** What signing can throw. */
  datatype SignError = IOException(message: string) | NullPointerException

  const TimeoutMessage := "The timeout must be strictly positive"
  const HttpPortMessage := "The HTTP proxy port must be specified and stricly positive when HTTP proxy host is"
  const HttpsPortMessage := "The HTTPS proxy port must be specified and stricly positive when HTTPS proxy host is"

  // ---------------------------------------------------------------------------
  // Configuration

  /** The invariant every built `JarSigner` keeps. */
  predicate Valid(js: JarSigner) {
    && js.timeout > 0
    && (js.httpProxyHost != "" ==> js.httpProxyPort > 0)
    && (js.httpsProxyHost != "" ==> js.httpsProxyPort > 0)
  }

  predicate Complete(b: Builder) {
    && b.jarSigner.Some? && b.keystore.Some? && b.keystorePassword.Some?
    && b.keystoreAlias.Some? && b.timestampingAuthority.Some?
    && b.httpProxyHost.Some? && b.httpProxyPort.Some?
    && b.httpsProxyHost.Some? && b.httpsProxyPort.Some?
    && b.timeout.Some?
  }

  /** The names of the required properties not yet set, in declaration order. */
  function Missing(b: Builder): (names: seq<string>)
    ensures names == [] <==> Complete(b)
  {
    (if b.jarSigner.None? then ["jarSigner"] else [])
    + (if b.keystore.None? then ["keystore"] else [])
    + (if b.keystorePassword.None? then ["keystorePassword"] else [])
    + (if b.keystoreAlias.None? then ["keystoreAlias"] else [])
    + (if b.timestampingAuthority.None? then ["timestampingAuthority"] else [])
    + (if b.httpProxyHost.None? then ["httpProxyHost"] else [])
    + (if b.httpProxyPort.None? then ["httpProxyPort"] else [])
    + (if b.httpsProxyHost.None? then ["httpsProxyHost"] else [])
    + (if b.httpsProxyPort.None? then ["httpsProxyPort"] else [])
    + (if b.timeout.None? then ["timeout"] else [])
  }

  /** The value a complete builder holds. */
  function Assemble(b: Builder): JarSigner
    requires Complete(b)
  {
    JarSigner(b.jarSigner.value, b.keystore.value, b.keystorePassword.value,
              b.keystoreAlias.value, b.timestampingAuthority.value,
              b.httpProxyHost.value, b.httpProxyPort.value,
              b.httpsProxyHost.value, b.httpsProxyPort.value,
              b.digestAlgorithm, b.timeout.value)
  }

  /**
   * `JarSigner.builder()`: empty proxy hosts, proxy ports 0 and a null
   * digest algorithm, so only the properties without a default remain to be set.
   */
  function NewBuilder(): (b: Builder)
    ensures Missing(b) == ["jarSigner", "keystore", "keystorePassword", "keystoreAlias",
                           "timestampingAuthority", "timeout"]
    ensures b.digestAlgorithm.None?
  {
    Builder(None, None, None, None, None, Some(""), Some(0), Some(""), Some(0), None, None)
  }

  /**
   * `Builder.build`: the missing properties first, then the timeout, the
   * HTTP proxy port and the HTTPS proxy port, in that order. It succeeds
   * exactly when every property is set and the result is valid.
   */
  function Build(b: Builder): (r: Result<JarSigner, BuildError>)
    ensures r.Ok? <==> Complete(b) && Valid(Assemble(b))
    ensures r.Ok? ==> r.value == Assemble(b) && Valid(r.value)
    ensures !Complete(b) ==> r == Err(MissingProperties(Missing(b)))
    ensures b.timeout.Some? && b.timeout.value <= 0 ==> r.Err?
    ensures Complete(b) && b.timeout.value <= 0 ==> r == Err(IllegalState(TimeoutMessage))
    ensures Complete(b) && b.timeout.value > 0 && b.httpProxyHost.value != "" && b.httpProxyPort.value <= 0
            ==> r == Err(IllegalState(HttpPortMessage))
  {
    if !Complete(b) then Err(MissingProperties(Missing(b)))
    else
      var js := Assemble(b);
      if !(js.timeout > 0) then Err(IllegalState(TimeoutMessage))
      else if js.httpProxyHost != "" && !(js.httpProxyPort > 0) then Err(IllegalState(HttpPortMessage))
      else if js.httpsProxyHost != "" && !(js.httpsProxyPort > 0) then Err(IllegalState(HttpsPortMessage))
      else Ok(js)
  }

  /** The HTTPS rule is checked last: it decides only when the others pass. */
  lemma BuildChecksHttpsPortLast(b: Builder)
    requires Complete(b) && b.timeout.value > 0
    requires b.httpProxyHost.value != "" ==> b.httpProxyPort.value > 0
    ensures Build(b).Err? <==> b.httpsProxyHost.value != "" && b.httpsProxyPort.value <= 0
    ensures Build(b).Err? ==> Build(b) == Err(IllegalState(HttpsPortMessage))
  {
  }

  /**
   * A fresh builder given only the properties without a default builds
   * exactly when the timeout is positive: its proxy defaults pass both
   * proxy checks and are kept.
   */
  lemma FreshBuilderPassesProxyChecks(jarSigner: Path, keystore: Path, password: string,
                                      alias: string, tsa: string, timeout: int)
    ensures var b := NewBuilder().(jarSigner := Some(jarSigner), keystore := Some(keystore),
                                   keystorePassword := Some(password), keystoreAlias := Some(alias),
                                   timestampingAuthority := Some(tsa), timeout := Some(timeout));
            && (Build(b).Ok? <==> timeout > 0)
            && (Build(b).Ok? ==>
                  var js := Build(b).value;
                  js.httpProxyHost == "" && js.httpProxyPort == 0 && js.httpsProxyHost == ""
                  && js.httpsProxyPort == 0 && js.digestAlgorithm.None?)
  {
  }

  // ---------------------------------------------------------------------------
  // Already-signed heuristic

  /** The entry carries a non-null, non-empty signer array. */
  predicate SignedEntry(e: JarEntry) {
    e.codeSigners.Some? && |e.codeSigners.value| > 0
  }

  /** A reference notion the heuristic does not implement: some entry is signed. */
  predicate SomeEntrySigned(archive: Archive) {
    exists i :: 0 <= i < |archive| && SignedEntry(archive[i])
  }

  /** `isAlreadySigned`: only the first entry the reader yields is looked at. */
  function IsAlreadySigned(archive: Archive): (signed: bool)
    ensures signed <==> |archive| > 0 && SignedEntry(archive[0])
  {
    if |archive| > 0 then
      match archive[0].codeSigners
      case Some(signers) => |signers| > 0
      case None => false
    else false
  }

  lemma EmptyArchiveIsNotSigned()
    ensures !IsAlreadySigned([])
  {
  }

  /** Entries after the first never change the verdict. */
  lemma LaterEntriesIgnored(first: JarEntry, rest: Archive)
    ensures IsAlreadySigned([first] + rest) == IsAlreadySigned([first]) == SignedEntry(first)
  {
  }

  /** The heuristic never reports a signature no entry carries. */
  lemma AlreadySignedImpliesSomeEntrySigned(archive: Archive)
    ensures IsAlreadySigned(archive) ==> SomeEntrySigned(archive)
  {
    if IsAlreadySigned(archive) {
      assert SignedEntry(archive[0]);
    }
  }

  /** The converse fails: a first entry without signers hides a signed third entry. */
  lemma UnsignedFirstEntryHidesLaterSignature(signer: CodeSigner)
    ensures var archive := [JarEntry("a", None), JarEntry("b", Some([])), JarEntry("c", Some([signer]))];
            SomeEntrySigned(archive) && !IsAlreadySigned(archive)
  {
    var archive := [JarEntry("a", None), JarEntry("b", Some([])), JarEntry("c", Some([signer]))];
    assert SignedEntry(archive[2]);
  }

  // ---------------------------------------------------------------------------
  // Command line

  /** A `-digestalg` option is wanted: a non-null algorithm other than the default. */
  predicate DigestRequested(digestAlg: Option<MessageDigestAlgorithm>) {
    digestAlg.Some? && digestAlg.value != Default
  }

  /**
   * The proxy options. Both pairs are guarded by the HTTP proxy host: the
   * HTTPS pair too: `createCommand`'s HTTPS branch tests `httpProxyHost`.
   */
  function ProxyArguments(js: JarSigner): seq<string> {
    (if js.httpProxyHost != "" then
       ["-J-Dhttp.proxyHost=" + js.httpProxyHost, "-J-Dhttp.proxyPort=" + JavaText.IntToString(js.httpProxyPort)]
     else [])
    + (if js.httpProxyHost != "" then
         ["-J-Dhttps.proxyHost=" + js.httpsProxyHost, "-J-Dhttps.proxyPort=" + JavaText.IntToString(js.httpsProxyPort)]
       else [])
  }

  function TrailingArguments(js: JarSigner, jar: Path): seq<string> {
    ["-tsa", js.timestampingAuthority, "-verbose", "-keystore", js.keystore,
     "-storepass", js.keystorePassword, jar, js.keystoreAlias]
  }

  function ProxyArgumentCount(js: JarSigner): nat {
    if js.httpProxyHost != "" then 4 else 0
  }

  function DigestArgumentCount(digestAlg: Option<MessageDigestAlgorithm>): nat {
    if DigestRequested(digestAlg) then 2 else 0
  }

  /**
   * The jarsigner command line, position by position: the binary, the four
   * proxy options when an HTTP proxy host is set, `-digestalg name` when an
   * algorithm is requested, then the fixed tail ending with the jar and the
   * key alias. A null algorithm adds no option (see `CreateCommandAsWritten`).
   */
  function CommandLine(js: JarSigner, jar: Path, digestAlg: Option<MessageDigestAlgorithm>): (cmd: seq<string>)
    ensures |cmd| == 10 + ProxyArgumentCount(js) + DigestArgumentCount(digestAlg)
    ensures cmd[0] == js.jarSigner
    ensures js.httpProxyHost != "" ==>
              cmd[1..5] == ["-J-Dhttp.proxyHost=" + js.httpProxyHost,
                            "-J-Dhttp.proxyPort=" + JavaText.IntToString(js.httpProxyPort),
                            "-J-Dhttps.proxyHost=" + js.httpsProxyHost,
                            "-J-Dhttps.proxyPort=" + JavaText.IntToString(js.httpsProxyPort)]
    ensures DigestRequested(digestAlg) ==>
              cmd[|cmd| - 11..|cmd| - 9] == ["-digestalg", digestAlg.value.standardName]
    ensures cmd[|cmd| - 9..] == ["-tsa", js.timestampingAuthority, "-verbose", "-keystore", js.keystore,
                                 "-storepass", js.keystorePassword, jar, js.keystoreAlias]
  {
    [js.jarSigner]
    + ProxyArguments(js)
    + (if DigestRequested(digestAlg) then ["-digestalg", digestAlg.value.standardName] else [])
    + TrailingArguments(js, jar)
  }

  /**
   * `createCommand`, appending one option after another. A null
   * algorithm is treated as jarsigner's default.
   */
  method CreateCommand(js: JarSigner, jar: Path, digestAlg: Option<MessageDigestAlgorithm>)
    returns (command: seq<string>)
    ensures command == CommandLine(js, jar, digestAlg)
  {
    command := [js.jarSigner];
    if js.httpProxyHost != "" {
      command := command + ["-J-Dhttp.proxyHost=" + js.httpProxyHost,
                            "-J-Dhttp.proxyPort=" + JavaText.IntToString(js.httpProxyPort)];
    }
    // the HTTPS pair is guarded by httpProxyHost too, as createCommand does
    if js.httpProxyHost != "" {
      command := command + ["-J-Dhttps.proxyHost=" + js.httpsProxyHost,
                            "-J-Dhttps.proxyPort=" + JavaText.IntToString(js.httpsProxyPort)];
    }
    assert command == [js.jarSigner] + ProxyArguments(js);
    if digestAlg.Some? && digestAlg.value != Default {
      command := command + ["-digestalg", digestAlg.value.standardName];
    }
    ghost var options := command;
    command := command + ["-tsa", js.timestampingAuthority];
    command := command + ["-verbose"];
    command := command + ["-keystore", js.keystore];
    command := command + ["-storepass", js.keystorePassword];
    command := command + [jar];
    command := command + [js.keystoreAlias];
    assert command == options + TrailingArguments(js, jar);
  }

  /**
   * `createCommand` as written: a null algorithm passes the `!= DEFAULT`
   * test and is then dereferenced, which throws.
   */
  function CreateCommandAsWritten(js: JarSigner, jar: Path, digestAlg: Option<MessageDigestAlgorithm>)
    : (r: Result<seq<string>, SignError>)
    ensures r.Err? <==> digestAlg.None?
    ensures r.Err? ==> r.error == NullPointerException
    ensures r.Ok? ==> r.value == CommandLine(js, jar, digestAlg)
  {
    var head := [js.jarSigner] + ProxyArguments(js);
    if digestAlg != Some(Default) then
      match digestAlg
      case None => Err(NullPointerException)
      case Some(alg) => Ok(head + ["-digestalg", alg.standardName] + TrailingArguments(js, jar))
    else Ok(head + TrailingArguments(js, jar))
  }

  /** A null algorithm, documented as allowed, makes the command fail to build. */
  lemma NullDigestAlgorithmThrows(js: JarSigner, jar: Path)
    ensures CreateCommandAsWritten(js, jar, None) == Err(NullPointerException)
    ensures |CommandLine(js, jar, None)| == 10 + ProxyArgumentCount(js)
  {
  }

  /** `-digestalg` is among the options exactly when an algorithm is requested. */
  lemma DigestOptionIffRequested(js: JarSigner, jar: Path, digestAlg: Option<MessageDigestAlgorithm>)
    ensures var cmd := CommandLine(js, jar, digestAlg);
            "-digestalg" in cmd[1..|cmd| - 9] <==> DigestRequested(digestAlg)
  {
    var cmd := CommandLine(js, jar, digestAlg);
    var options := cmd[1..|cmd| - 9];
    if !DigestRequested(digestAlg) {
      assert options == ProxyArguments(js) by {
        assert cmd == [js.jarSigner] + ProxyArguments(js) + TrailingArguments(js, jar);
      }
      forall k | 0 <= k < |options| ensures options[k] != "-digestalg" {
        assert options[k][1] == 'J';
      }
    } else {
      assert options[|options| - 2] == "-digestalg";
    }
  }

  /** Without an HTTP proxy host the HTTPS proxy settings never reach the command. */
  lemma HttpsProxyIgnoredWithoutHttpHost(js: JarSigner, jar: Path, digestAlg: Option<MessageDigestAlgorithm>,
                                         httpsHost: string, httpsPort: int)
    requires js.httpProxyHost == ""
    ensures CommandLine(js, jar, digestAlg)
            == CommandLine(js.(httpsProxyHost := httpsHost, httpsProxyPort := httpsPort), jar, digestAlg)
    ensures |CommandLine(js, jar, digestAlg)| == 10 + DigestArgumentCount(digestAlg)
  {
  }

  // ---------------------------------------------------------------------------
  // Invoking jarsigner

  /** What the process executor reports: the exit value and the captured output. */
  datatype ExecResult = ExecResult(exitValue: int, output: string)

  /** The process executor: runs a command under a timeout in seconds. */
  type ProcessExecutor = (seq<string>, int) -> ExecResult

  /** The opaque strategy applied to an archive that is already signed. */
  type ResigningStrategy = Path -> Result<Path, SignError>

  function ExitPrefix(jarSigner: Path): string {
    "The '" + jarSigner + "' command exited with value '"
  }

  /** Closes the quote around the exit value, then gives the heading line of the output. */
  function AfterExitValue(jarSigner: Path): string {
    "'" + "\n" + "'" + jarSigner + "' output:" + "\n"
  }

  /**
   * The exception message thrown on a non-zero exit value: the line naming
   * the command and its exit value, a heading line, then the output.
   */
  function ExitMessage(jarSigner: Path, exitValue: int, output: string): string {
    ExitPrefix(jarSigner) + JavaText.IntToString(exitValue) + AfterExitValue(jarSigner) + output
  }

  predicate NoQuote(s: string) {
    forall i :: 0 <= i < |s| ==> s[i] != '\''
  }

  /** The index of the first quote character, or the length when there is none. */
  function QuoteIndex(s: string): nat {
    if |s| == 0 || s[0] == '\'' then 0 else 1 + QuoteIndex(s[1..])
  }

  lemma {:induction false} QuoteIndexAfter(a: string, r: string)
    requires NoQuote(a) && |r| > 0 && r[0] == '\''
    ensures QuoteIndex(a + r) == |a|
    decreases |a|
  {
    if |a| > 0 {
      assert (a + r)[1..] == a[1..] + r;
      QuoteIndexAfter(a[1..], r);
    }
  }

  /** Text without quotes ends where the first quote begins. */
  lemma SplitAtQuote(a: string, r1: string, b: string, r2: string)
    requires NoQuote(a) && NoQuote(b)
    requires |r1| > 0 && r1[0] == '\'' && |r2| > 0 && r2[0] == '\''
    requires a + r1 == b + r2
    ensures a == b && r1 == r2
  {
    var m := a + r1;
    QuoteIndexAfter(a, r1);
    QuoteIndexAfter(b, r2);
    assert a == m[..|a|];
    assert b == m[..|b|];
  }

  lemma IntTextHasNoQuote(v: int)
    ensures NoQuote(JavaText.IntToString(v))
  {
    var t := JavaText.IntToString(v);
    if v < 0 {
      forall i | 1 <= i < |t| ensures t[i] != '\'' {
        assert t[1..][i - 1] == t[i];
      }
    }
  }

  /** The message carries the exit value and the output: it determines both. */
  lemma ExitMessageDeterminesExitValueAndOutput(jarSigner: Path, v1: int, out1: string, v2: int, out2: string)
    requires ExitMessage(jarSigner, v1, out1) == ExitMessage(jarSigner, v2, out2)
    ensures v1 == v2 && out1 == out2
  {
    var prefix, heading := ExitPrefix(jarSigner), AfterExitValue(jarSigner);
    var t1, t2 := JavaText.IntToString(v1), JavaText.IntToString(v2);
    var m1, m2 := prefix + (t1 + (heading + out1)), prefix + (t2 + (heading + out2));
    assert m1 == ExitMessage(jarSigner, v1, out1);
    assert m2 == ExitMessage(jarSigner, v2, out2);
    assert t1 + (heading + out1) == m1[|prefix|..];
    assert t2 + (heading + out2) == m2[|prefix|..];
    IntTextHasNoQuote(v1);
    IntTextHasNoQuote(v2);
    SplitAtQuote(t1, heading + out1, t2, heading + out2);
    JavaText.IntToStringInjective(v1, v2);
    assert out1 == (heading + out1)[|heading|..];
    assert out2 == (heading + out2)[|heading|..];
  }

  /**
   * `doSign`: runs the command and returns the jar when jarsigner exits
   * with 0; otherwise throws an `IOException` whose message carries the
   * exit value and the output.
   */
  method DoSign(js: JarSigner, jar: Path, digestAlg: Option<MessageDigestAlgorithm>, exec: ProcessExecutor)
    returns (r: Result<Path, SignError>, command: seq<string>)
    ensures command == CommandLine(js, jar, digestAlg)
    ensures var e := exec(command, js.timeout);
            && (r.Ok? <==> e.exitValue == 0)
            && (r.Ok? ==> r.value == jar)
            && (r.Err? ==> r.error == IOException(ExitMessage(js.jarSigner, e.exitValue, e.output)))
  {
    var output := "";
    command := CreateCommand(js, jar, digestAlg);
    var result := exec(command, js.timeout);
    output := output + result.output;
    if result.exitValue != 0 {
      r := Err(IOException(ExitMessage(js.jarSigner, result.exitValue, output)));
      return;
    }
    r := Ok(jar);
  }

  /**
   * `signJar` with a strategy: an archive already signed goes to the
   * strategy and no command runs; any other archive is signed by `doSign`.
   * `commands` lists the commands handed to the executor.
   */
  method SignJar(js: JarSigner, jar: Path, archive: Archive, digestAlg: Option<MessageDigestAlgorithm>,
                 resigningStrategy: ResigningStrategy, exec: ProcessExecutor)
    returns (r: Result<Path, SignError>, commands: seq<seq<string>>)
    ensures IsAlreadySigned(archive) ==> r == resigningStrategy(jar) && commands == []
    ensures !IsAlreadySigned(archive) ==>
              && commands == [CommandLine(js, jar, digestAlg)]
              && var e := exec(commands[0], js.timeout);
              && (r.Ok? <==> e.exitValue == 0)
              && (r.Ok? ==> r.value == jar)
              && (r.Err? ==> r.error == IOException(ExitMessage(js.jarSigner, e.exitValue, e.output)))
  {
    var alreadySigned := IsAlreadySigned(archive);
    if alreadySigned {
      r := resigningStrategy(jar);
      commands := [];
    } else {
      var command;
      r, command := DoSign(js, jar, digestAlg, exec);
      commands := [command];
    }
  }

  /**
   * `signJar(jar)`: the default algorithm, so an unsigned archive is signed
   * by a command without `-digestalg`. The resign strategy the overload
   * builds is passed in.
   */
  method SignJarWithDefaultDigest(js: JarSigner, jar: Path, archive: Archive,
                                  resignWithDefault: ResigningStrategy, exec: ProcessExecutor)
    returns (r: Result<Path, SignError>, commands: seq<seq<string>>)
    ensures IsAlreadySigned(archive) ==> r == resignWithDefault(jar) && commands == []
    ensures !IsAlreadySigned(archive) ==>
              && commands == [CommandLine(js, jar, Some(Default))]
              && |commands[0]| == 10 + ProxyArgumentCount(js)
              && "-digestalg" !in commands[0][1..|commands[0]| - 9]
              && var e := exec(commands[0], js.timeout);
              && (r.Ok? <==> e.exitValue == 0)
              && (r.Ok? ==> r.value == jar)
              && (r.Err? ==> r.error == IOException(ExitMessage(js.jarSigner, e.exitValue, e.output)))
  {
    DigestOptionIffRequested(js, jar, Some(Default));
    r, commands := SignJar(js, jar, archive, Some(Default), resignWithDefault, exec);
  }
}
