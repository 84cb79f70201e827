/**
 * The Maven `sign` goal: resolving its deprecated and current parameters
 * into the signer's configuration, and signing the main artifact and then
 * the attached artifacts, one after the other.
 */
module SignMojo {
  import opened Wrappers
  import JavaText

  type Path = string

  /** The name of the multipart part sent to the signing server. */
  const PartName := "file"

  const DefaultRetryTimerString := "30"
  const DefaultRetryTimer: int := 30
  const DefaultRetryLimitString := "3"
  const DefaultRetryLimit: int := 3
  const DefaultSignerUrl := "http://build.eclipse.org:31338/sign"
  const SkipMessage := "Skipping Jar signing"

  /** The numeric defaults are the parsed texts of the parameters' default values. */
  lemma DefaultsAreParsedTexts()
    ensures JavaText.ParseInt(DefaultRetryTimerString) == Some(DefaultRetryTimer)
    ensures JavaText.ParseInt(DefaultRetryLimitString) == Some(DefaultRetryLimit)
  {
    assert DefaultRetryTimerString[..1] == "3";
  }

  /** The goal's parameters, as Maven injects them. */
  datatype Parameters = Parameters(
    signerUrl: string,
    skip: bool,
    deprecatedContinueOnFail: bool,
    continueOnFail: bool,
    deprecatedRetryLimit: int,
    retryLimit: int,
    deprecatedRetryTimer: int,
    retryTimer: int,
    excludeInnerJars: bool)

  /** The parameters when none is given on the command line or in the POM. */
  function DefaultParameters(): Parameters {
    Parameters(DefaultSignerUrl, false, false, false, DefaultRetryLimit, DefaultRetryLimit,
               DefaultRetryTimer, DefaultRetryTimer, false)
  }

  /**
   * What the goal sets on the plugin's jar signer builder. `continueOnFail`
   * false means the builder's own setting is left alone.
   */
  datatype SignerConfig = SignerConfig(
    signerUrl: string,
    partName: string,
    maxRetry: int,
    waitBeforeRetrySeconds: int,
    continueOnFail: bool,
    maxDepth: int)

  /**
   * The rule between a deprecated parameter and its replacement: the
   * deprecated value is taken only when it was changed from the default and
   * the current one was not. Put simply: the current value wins unless it is
   * still the default, in which case the deprecated value stands.
   */
  function Precedence(deprecated: int, current: int, default: int): (r: int)
    ensures current != default ==> r == current
    ensures current == default ==> r == deprecated
  {
    if deprecated != default && current == default then deprecated else current
  }

  /** What `createJarSigner` promises about the configuration it builds. */
  predicate ResolvedFrom(p: Parameters, cfg: SignerConfig) {
    && cfg.signerUrl == p.signerUrl
    && cfg.partName == PartName
    && cfg.maxRetry == Precedence(p.deprecatedRetryLimit, p.retryLimit, DefaultRetryLimit)
    && cfg.waitBeforeRetrySeconds == Precedence(p.deprecatedRetryTimer, p.retryTimer, DefaultRetryTimer)
    && (cfg.continueOnFail <==> p.deprecatedContinueOnFail || p.continueOnFail)
    && 0 <= cfg.maxDepth <= 1
    && (cfg.maxDepth == 0 <==> p.excludeInnerJars)
  }

  /** `createJarSigner`: sets the builder's fields one decision at a time. */
  method CreateJarSigner(p: Parameters) returns (cfg: SignerConfig)
    ensures ResolvedFrom(p, cfg)
  {
    cfg := SignerConfig(p.signerUrl, PartName, 0, 0, false, 0);
    if p.deprecatedRetryLimit != DefaultRetryLimit && p.retryLimit == DefaultRetryLimit {
      cfg := cfg.(maxRetry := p.deprecatedRetryLimit);
    } else {
      cfg := cfg.(maxRetry := p.retryLimit);
    }
    if p.deprecatedRetryTimer != DefaultRetryTimer && p.retryTimer == DefaultRetryTimer {
      cfg := cfg.(waitBeforeRetrySeconds := p.deprecatedRetryTimer);
    } else {
      cfg := cfg.(waitBeforeRetrySeconds := p.retryTimer);
    }
    if p.deprecatedContinueOnFail || p.continueOnFail {
      cfg := cfg.(continueOnFail := true);
    }
    if p.excludeInnerJars {
      cfg := cfg.(maxDepth := 0);
    } else {
      cfg := cfg.(maxDepth := 1);
    }
  }

  /** With every parameter at its default: three retries, 30 seconds, stop on failure, inner jars signed. */
  lemma DefaultParametersResolve(cfg: SignerConfig)
    requires ResolvedFrom(DefaultParameters(), cfg)
    ensures cfg == SignerConfig(DefaultSignerUrl, PartName, 3, 30, false, 1)
  {
  }

  /** Setting only the deprecated parameter is honoured; setting the current one overrides it. */
  lemma DeprecatedRetryLimitHonouredUnlessOverridden(p: Parameters, cfg: SignerConfig)
    requires ResolvedFrom(p, cfg)
    ensures p.retryLimit == DefaultRetryLimit ==> cfg.maxRetry == p.deprecatedRetryLimit
    ensures p.retryLimit != DefaultRetryLimit ==> cfg.maxRetry == p.retryLimit
    ensures cfg.maxRetry == p.deprecatedRetryLimit || cfg.maxRetry == p.retryLimit
  {
  }

  // ---------------------------------------------------------------------------
  // Signing the artifacts

  /** A build artifact: its identifier and its file, which may be missing. */
  datatype Artifact = Artifact(id: string, file: Option<Path>)

  datatype MavenProject = MavenProject(artifact: Option<Artifact>, attachedArtifacts: seq<Artifact>)

  datatype LogLine = Info(message: string) | Warn(message: string)

  /** `Fail` stands for a `MojoExecutionException`. */
  datatype Outcome = Pass | Fail(message: string)

  /** The plugin's jar signer, whose signing is opaque here. */
  type JarSigner = (SignerConfig, Path) -> Outcome

  /** What a run did: the files handed to the signer, in order, the log, and the outcome. */
  datatype Trace = Trace(attempted: seq<Path>, log: seq<LogLine>, outcome: Outcome)

  function NoFileWarning(a: Artifact): LogLine {
    Warn("Can't find associated file with artifact '" + a.id + "'")
  }

  /** The artifacts in the order the goal visits them: the main one, if any, then the attached ones. */
  function Candidates(project: MavenProject): seq<Artifact> {
    (if project.artifact.Some? then [project.artifact.value] else []) + project.attachedArtifacts
  }

  /** One artifact: its file goes to the signer; an artifact without a file only draws a warning. */
  function Step(signJar: JarSigner, cfg: SignerConfig, a: Artifact): Trace {
    match a.file
    case Some(f) => Trace([f], [], signJar(cfg, f))
    case None => Trace([], [NoFileWarning(a)], Pass)
  }

  /** `first` followed by `rest`: the outcome is the one of `rest`. */
  function Then(first: Trace, rest: Trace): Trace {
    Trace(first.attempted + rest.attempted, first.log + rest.log, rest.outcome)
  }

  /** Visiting the artifacts in order; the first exception ends the run. */
  function SignArtifacts(signJar: JarSigner, cfg: SignerConfig, arts: seq<Artifact>): Trace
    decreases |arts|
  {
    if arts == [] then Trace([], [], Pass)
    else
      var s := Step(signJar, cfg, arts[0]);
      if s.outcome.Fail? then s else Then(s, SignArtifacts(signJar, cfg, arts[1..]))
  }

  /** The files of the artifacts that have one, in order. */
  function SignableFiles(arts: seq<Artifact>): seq<Path>
    decreases |arts|
  {
    if arts == [] then []
    else (if arts[0].file.Some? then [arts[0].file.value] else []) + SignableFiles(arts[1..])
  }

  /** One warning per artifact without a file, in order. */
  function MissingFileWarnings(arts: seq<Artifact>): seq<LogLine>
    decreases |arts|
  {
    if arts == [] then []
    else (if arts[0].file.None? then [NoFileWarning(arts[0])] else []) + MissingFileWarnings(arts[1..])
  }

  /** `signArtifact`. */
  method SignArtifact(signJar: JarSigner, cfg: SignerConfig, a: Artifact) returns (t: Trace)
    ensures a.file.Some? ==> t == Trace([a.file.value], [], signJar(cfg, a.file.value))
    ensures a.file.None? ==> t == Trace([], [NoFileWarning(a)], Pass)
  {
    var artifactFile := a.file;
    if artifactFile.Some? {
      var outcome := signJar(cfg, artifactFile.value);
      t := Trace([artifactFile.value], [], outcome);
    } else {
      t := Trace([], [NoFileWarning(a)], Pass);
    }
  }

  /**
   * `execute`: with `skip` set, nothing is signed and no signer is built;
   * otherwise the signer is built and the artifacts are visited in order.
   */
  method Execute(p: Parameters, project: MavenProject, signJar: JarSigner)
    returns (signer: Option<SignerConfig>, t: Trace)
    ensures p.skip ==> signer == None && t == Trace([], [Info(SkipMessage)], Pass)
    ensures !p.skip ==> signer.Some? && ResolvedFrom(p, signer.value)
    ensures !p.skip ==> t == SignArtifacts(signJar, signer.value, Candidates(project))
  {
    if p.skip {
      signer := None;
      t := Trace([], [Info(SkipMessage)], Pass);
      return;
    }
    var cfg := CreateJarSigner(p);
    signer := Some(cfg);
    ghost var all := Candidates(project);
    var attempted: seq<Path> := [];
    var log: seq<LogLine> := [];
    var attached := project.attachedArtifacts;
    if project.artifact.Some? {
      var s := SignArtifact(signJar, cfg, project.artifact.value);
      assert all[1..] == attached;
      UnfoldAt(signJar, cfg, all, 0);
      if s.outcome.Fail? {
        t := s;
        return;
      }
      attempted, log := s.attempted, s.log;
    } else {
      assert all == attached[0..];
    }
    for i := 0 to |attached|
      invariant Then(Trace(attempted, log, Pass), SignArtifacts(signJar, cfg, attached[i..]))
                == SignArtifacts(signJar, cfg, all)
    {
      var s := SignArtifact(signJar, cfg, attached[i]);
      UnfoldAt(signJar, cfg, attached, i);
      if s.outcome.Fail? {
        t := Trace(attempted + s.attempted, log + s.log, s.outcome);
        return;
      }
      ThenAssociative(Trace(attempted, log, Pass), s, SignArtifacts(signJar, cfg, attached[i + 1..]));
      attempted, log := attempted + s.attempted, log + s.log;
    }
    assert attached[|attached|..] == [];
    t := Trace(attempted, log, Pass);
  }

  lemma UnfoldAt(signJar: JarSigner, cfg: SignerConfig, arts: seq<Artifact>, i: nat)
    requires i < |arts|
    ensures var s := Step(signJar, cfg, arts[i]);
            SignArtifacts(signJar, cfg, arts[i..])
            == if s.outcome.Fail? then s else Then(s, SignArtifacts(signJar, cfg, arts[i + 1..]))
  {
    assert arts[i..][0] == arts[i] && arts[i..][1..] == arts[i + 1..];
  }

  lemma ThenAssociative(a: Trace, b: Trace, c: Trace)
    ensures Then(a, Then(b, c)) == Then(Then(a, b), c)
  {
    assert a.attempted + (b.attempted + c.attempted) == (a.attempted + b.attempted) + c.attempted;
    assert a.log + (b.log + c.log) == (a.log + b.log) + c.log;
  }

  // ---------------------------------------------------------------------------
  // Properties of the run

  /** The files handed to the signer are a prefix of the files the artifacts have. */
  lemma {:induction false} AttemptsArePrefixOfFiles(signJar: JarSigner, cfg: SignerConfig, arts: seq<Artifact>)
    ensures SignArtifacts(signJar, cfg, arts).attempted <= SignableFiles(arts)
    decreases |arts|
  {
    if arts != [] {
      AttemptsArePrefixOfFiles(signJar, cfg, arts[1..]);
    }
  }

  /**
   * A run without exception hands every file to the signer, in order, and
   * warns once about each artifact without a file; it ends so exactly when
   * the signer accepts every file.
   */
  lemma {:induction false} PassSignsEveryFile(signJar: JarSigner, cfg: SignerConfig, arts: seq<Artifact>)
    ensures var t := SignArtifacts(signJar, cfg, arts);
            && (t.outcome.Pass? <==> AllAccepted(signJar, cfg, SignableFiles(arts)))
            && (t.outcome.Pass? ==> t.attempted == SignableFiles(arts) && t.log == MissingFileWarnings(arts))
    decreases |arts|
  {
    if arts != [] {
      PassSignsEveryFile(signJar, cfg, arts[1..]);
      var rest := SignableFiles(arts[1..]);
      match arts[0].file
      case None =>
        assert SignableFiles(arts) == rest;
      case Some(f) =>
        assert SignableFiles(arts) == [f] + rest;
        if signJar(cfg, f).Pass? {
          assert AllAccepted(signJar, cfg, [f] + rest) <==> AllAccepted(signJar, cfg, rest) by {
            forall k | 0 <= k < |rest| ensures ([f] + rest)[k + 1] == rest[k] { }
          }
        } else {
          assert ([f] + rest)[0] == f;
        }
    }
  }

  /** The signer accepts each of the files. */
  predicate AllAccepted(signJar: JarSigner, cfg: SignerConfig, files: seq<Path>) {
    forall k :: 0 <= k < |files| ==> signJar(cfg, files[k]).Pass?
  }

  /** A run that throws stops at the file the signer rejected, after accepting each earlier one. */
  lemma {:induction false} FailureIsLastAttempt(signJar: JarSigner, cfg: SignerConfig, arts: seq<Artifact>)
    ensures var t := SignArtifacts(signJar, cfg, arts);
            t.outcome.Fail? ==>
              && |t.attempted| > 0
              && t.outcome == signJar(cfg, t.attempted[|t.attempted| - 1])
              && forall k :: 0 <= k < |t.attempted| - 1 ==> signJar(cfg, t.attempted[k]).Pass?
    decreases |arts|
  {
    if arts != [] {
      FailureIsLastAttempt(signJar, cfg, arts[1..]);
    }
  }

  lemma {:induction false} SignableFilesAppend(a: seq<Artifact>, b: seq<Artifact>)
    ensures SignableFiles(a + b) == SignableFiles(a) + SignableFiles(b)
    decreases |a|
  {
    if a == [] {
      assert a + b == b;
    } else {
      assert (a + b)[0] == a[0] && (a + b)[1..] == a[1..] + b;
      SignableFilesAppend(a[1..], b);
    }
  }

  /** The main artifact's file, if it has one, comes before the attached artifacts' files. */
  lemma MainArtifactFirst(project: MavenProject)
    ensures SignableFiles(Candidates(project))
            == (if project.artifact.Some? && project.artifact.value.file.Some?
                then [project.artifact.value.file.value] else [])
               + SignableFiles(project.attachedArtifacts)
  {
    var main := if project.artifact.Some? then [project.artifact.value] else [];
    SignableFilesAppend(main, project.attachedArtifacts);
    if project.artifact.Some? {
      assert main[1..] == [];
    }
  }

  /** Each of the files is the file of one of the artifacts. */
  predicate FilesOf(files: seq<Path>, arts: seq<Artifact>) {
    forall k :: 0 <= k < |files| ==> exists a :: a in arts && a.file == Some(files[k])
  }

  /** Every file handed to the signer is the file of one of the artifacts: no artifact without a file reaches it. */
  lemma {:induction false} AttemptsComeFromArtifactFiles(signJar: JarSigner, cfg: SignerConfig, arts: seq<Artifact>)
    ensures FilesOf(SignArtifacts(signJar, cfg, arts).attempted, arts)
    decreases |arts|
  {
    if arts != [] {
      var t := SignArtifacts(signJar, cfg, arts);
      var s := Step(signJar, cfg, arts[0]);
      var t' := SignArtifacts(signJar, cfg, arts[1..]);
      AttemptsComeFromArtifactFiles(signJar, cfg, arts[1..]);
      assert FilesOf(t'.attempted, arts[1..]);
      assert arts[0] in arts;
      forall k | 0 <= k < |t.attempted| ensures exists a :: a in arts && a.file == Some(t.attempted[k]) {
        if k < |s.attempted| {
          assert arts[0].file == Some(t.attempted[k]);
        } else {
          var j := k - |s.attempted|;
          assert t == Then(s, t');
          assert 0 <= j < |t'.attempted| && t.attempted[k] == t'.attempted[j];
          var a :| a in arts[1..] && a.file == Some(t'.attempted[j]);
          assert a in arts;
        }
      }
    }
  }
}
