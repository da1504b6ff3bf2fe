/** The environment variables a runner hands to the reporter's container. */
module Environment {
  datatype Var =
    | IPPON_SCAN_ID | IPPON_ORG_ID | IPPON_REPO_ID | IPPON_CALLBACK_URL | IPPON_CALLBACK_SECRET
    | IPPON_SCAN_STARTED_AT | IPPON_LOG_LEVEL | IPPON_FAILED | IPPON_FAILED_STEP | IPPON_FAILED_REASON
    | CLICKHOUSE_URL | S3_ENDPOINT_URL | S3_BUCKET | AWS_ACCESS_KEY_ID | AWS_SECRET_ACCESS_KEY

  type Env = map<Var, string>
}

/** `DockerJobRunner.submit`: the container chain, its short circuit to the reporter, and its
    clean-up. */
module DockerRunner {
  import opened Common
  import opened Environment
  import Text

  datatype Stage = Clone | Syft | Grype | SecretScan | Reporter

  datatype Volume = Workspace | Artifacts

  datatype Effect = EnsureImage(stage: Stage) | CreateVolume(volume: Volume) | RunStep(stage: Stage) | DeleteVolume(volume: Volume)

  /** What the daemon answers a step: an exit code with the tail of its logs, or an exception. */
  datatype StepOutcome = Exited(code: int, logs: string) | Raised(exc: string)

  /** A `DockerError` while deleting a volume is only logged; anything else propagates. */
  datatype Deletion = Deleted | DockerError | OtherError(exc: string)

  /** The daemon's answers; None means a set-up call succeeds, Some the exception it raises. */
  datatype Daemon = Daemon(
    setup: Effect -> Option<string>, step: Stage -> StepOutcome, deletion: Volume -> Deletion)

  datatype Spec = Spec(
    scanId: string, orgId: string, repoId: string, callbackUrl: string, callbackSecret: string,
    reporterEnv: Env, secretScanEnabled: bool)

  const REASON_LIMIT := 1024

  function StageName(s: Stage): string {
    match s
    case Clone => "clone"
    case Syft => "syft"
    case Grype => "grype"
    case SecretScan => "secret-scan"
    case Reporter => "reporter"
  }

  /** The scanning stages, in order; the reporter comes after them. */
  function Stages(enabled: bool): seq<Stage> {
    if enabled then [Clone, Syft, Grype, SecretScan] else [Clone, Syft, Grype]
  }

  function SetupEffects(enabled: bool): seq<Effect> {
    [EnsureImage(Clone), EnsureImage(Syft), EnsureImage(Grype), EnsureImage(Reporter)]
    + (if enabled then [EnsureImage(SecretScan)] else [])
    + [CreateVolume(Workspace), CreateVolume(Artifacts)]
  }

  function Steps(stages: seq<Stage>): (r: seq<Effect>)
    ensures |r| == |stages| && forall i :: 0 <= i < |r| ==> r[i] == RunStep(stages[i])
  {
    seq(|stages|, i requires 0 <= i < |stages| => RunStep(stages[i]))
  }

  ghost predicate Clean(d: Daemon, s: Stage) {
    d.step(s).Exited? && d.step(s).code == 0
  }

  ghost predicate AllClean(d: Daemon, enabled: bool) {
    forall i :: 0 <= i < |Stages(enabled)| ==> Clean(d, Stages(enabled)[i])
  }

  /** The first stage that exits non-zero or raises; the number of stages if none does. */
  ghost function Stop(d: Daemon, enabled: bool): (n: nat)
    ensures n <= |Stages(enabled)|
    ensures forall i :: 0 <= i < n ==> Clean(d, Stages(enabled)[i])
    ensures n < |Stages(enabled)| ==> !Clean(d, Stages(enabled)[n])
    ensures n == |Stages(enabled)| <==> AllClean(d, enabled)
  {
    StopFrom(d, Stages(enabled), 0)
  }

  lemma StopIs(d: Daemon, enabled: bool, n: nat)
    requires n < |Stages(enabled)| && !Clean(d, Stages(enabled)[n])
    requires forall i :: 0 <= i < n ==> Clean(d, Stages(enabled)[i])
    ensures Stop(d, enabled) == n && !AllClean(d, enabled)
  {
  }

  ghost function StopFrom(d: Daemon, stages: seq<Stage>, i: nat): (n: nat)
    requires i <= |stages|
    ensures i <= n <= |stages|
    ensures forall j :: i <= j < n ==> Clean(d, stages[j])
    ensures n < |stages| ==> !Clean(d, stages[n])
    decreases |stages| - i
  {
    if i == |stages| || !Clean(d, stages[i]) then i else StopFrom(d, stages, i + 1)
  }

  ghost predicate SetupClean(d: Daemon, enabled: bool) {
    forall i :: 0 <= i < |SetupEffects(enabled)| ==> d.setup(SetupEffects(enabled)[i]).None?
  }

  function BaseEnv(spec: Spec, startedAt: string): Env {
    spec.reporterEnv + map[
      IPPON_SCAN_ID := spec.scanId,
      IPPON_ORG_ID := spec.orgId,
      IPPON_REPO_ID := spec.repoId,
      IPPON_CALLBACK_URL := spec.callbackUrl,
      IPPON_CALLBACK_SECRET := spec.callbackSecret,
      IPPON_SCAN_STARTED_AT := startedAt]
  }

  function FailedEnv(spec: Spec, startedAt: string, stage: Stage, logs: string): Env {
    BaseEnv(spec, startedAt) + map[
      IPPON_FAILED := "1",
      IPPON_FAILED_STEP := StageName(stage),
      IPPON_FAILED_REASON := Text.Clip(logs, REASON_LIMIT)]
  }

  /** The stage that stopped the chain, and whether by an exit code or an exception. */
  ghost function StopOutcome(d: Daemon, enabled: bool): StepOutcome
    requires !AllClean(d, enabled)
  {
    d.step(Stages(enabled)[Stop(d, enabled)])
  }

  ghost predicate ReporterStarts(d: Daemon, enabled: bool) {
    AllClean(d, enabled) || StopOutcome(d, enabled).Exited?
  }

  /** The environment the reporter is started with; None if it is never started. */
  ghost function ReporterEnv(spec: Spec, d: Daemon, startedAt: string): Option<Env> {
    var enabled := spec.secretScanEnabled;
    if AllClean(d, enabled) then Some(BaseEnv(spec, startedAt))
    else if StopOutcome(d, enabled).Exited? then
      Some(FailedEnv(spec, startedAt, Stages(enabled)[Stop(d, enabled)], StopOutcome(d, enabled).logs))
    else None
  }

  /** The shortest prefix of the stages ending at the first unclean one, or all of them, followed by
      exactly one reporter unless that last stage raised. */
  ghost function StepsRun(d: Daemon, enabled: bool): seq<Stage> {
    var n := Stop(d, enabled);
    (if n == |Stages(enabled)| then Stages(enabled) else Stages(enabled)[..n + 1])
    + if ReporterStarts(d, enabled) then [Reporter] else []
  }

  /** Nothing is run twice, and nothing after the reporter. */
  lemma StepsRunOnce(d: Daemon, enabled: bool, i: nat, j: nat)
    requires i < j < |StepsRun(d, enabled)|
    ensures StepsRun(d, enabled)[i] != StepsRun(d, enabled)[j] && StepsRun(d, enabled)[i] != Reporter
  {
  }

  /** The failure marks name the first stage that failed, and are there only when one did. */
  lemma FailureMarks(spec: Spec, d: Daemon, startedAt: string)
    requires IPPON_FAILED !in spec.reporterEnv && ReporterEnv(spec, d, startedAt).Some?
    ensures var env := ReporterEnv(spec, d, startedAt).value;
            && (IPPON_FAILED in env <==> !AllClean(d, spec.secretScanEnabled))
            && (IPPON_FAILED in env ==>
                  var stage := Stages(spec.secretScanEnabled)[Stop(d, spec.secretScanEnabled)];
                  && env[IPPON_FAILED] == "1"
                  && env[IPPON_FAILED_STEP] == StageName(stage)
                  && env[IPPON_FAILED_REASON] == Text.Clip(d.step(stage).logs, REASON_LIMIT))
  {
  }

  function Deletions(d: Daemon): seq<Effect> {
    if d.deletion(Workspace).OtherError? then [DeleteVolume(Workspace)]
    else [DeleteVolume(Workspace), DeleteVolume(Artifacts)]
  }

  function DeletionRaises(d: Daemon): Option<string> {
    if d.deletion(Workspace).OtherError? then Some(d.deletion(Workspace).exc)
    else if d.deletion(Artifacts).OtherError? then Some(d.deletion(Artifacts).exc)
    else None
  }

  /** The exception that ends the chain, if one does. */
  ghost function ChainRaises(d: Daemon, enabled: bool): Option<string> {
    if ReporterStarts(d, enabled) then Raising(d.step(Reporter)) else Raising(StopOutcome(d, enabled))
  }

  function Raising(o: StepOutcome): Option<string> {
    if o.Raised? then Some(o.exc) else None
  }

  /** An exception while cleaning up replaces the one being propagated. */
  function Propagated(d: Daemon, exc: Option<string>): Option<string> {
    if DeletionRaises(d).Some? then DeletionRaises(d) else exc
  }

  // ---- everything a submission does -----------------------------------------

  /** The first set-up call that raises; the number of calls if none does. */
  ghost function FirstRaising(d: Daemon, effects: seq<Effect>, i: nat): (n: nat)
    requires i <= |effects|
    ensures i <= n <= |effects|
    ensures forall j :: i <= j < n ==> d.setup(effects[j]).None?
    ensures n < |effects| ==> d.setup(effects[n]).Some?
    decreases |effects| - i
  {
    if i == |effects| || d.setup(effects[i]).Some? then i else FirstRaising(d, effects, i + 1)
  }

  /** The trace of `submit`: set-up up to its first exception, or else set-up, the steps, the clean-up. */
  ghost function SubmitTrace(d: Daemon, enabled: bool): seq<Effect> {
    var setup := SetupEffects(enabled);
    if SetupClean(d, enabled) then setup + Steps(StepsRun(d, enabled)) + Deletions(d)
    else
      var n := FirstRaising(d, setup, 0);
      if n < |setup| then setup[..n + 1] else setup
  }

  /** No stage that is reached, every one before it having exited zero, raises. */
  ghost predicate NoStageRaises(d: Daemon, enabled: bool) {
    forall i :: 0 <= i < |Stages(enabled)| && ReachedStage(d, enabled, i) ==> d.step(Stages(enabled)[i]).Exited?
  }

  ghost predicate ReachedStage(d: Daemon, enabled: bool, i: nat)
    requires i < |Stages(enabled)|
  {
    forall j :: 0 <= j < i ==> Clean(d, Stages(enabled)[j])
  }

  lemma StepInTrace(d: Daemon, enabled: bool, s: Stage)
    ensures RunStep(s) in SubmitTrace(d, enabled) <==> SetupClean(d, enabled) && s in StepsRun(d, enabled)
  {
    assert forall e :: e in SetupEffects(enabled) ==> !e.RunStep?;
    assert forall e :: e in Deletions(d) ==> !e.RunStep?;
    if SetupClean(d, enabled) && s in StepsRun(d, enabled) {
      var i :| 0 <= i < |StepsRun(d, enabled)| && StepsRun(d, enabled)[i] == s;
      assert Steps(StepsRun(d, enabled))[i] == RunStep(s);
    }
  }

  lemma ReporterStartsWhen(d: Daemon, enabled: bool)
    ensures ReporterStarts(d, enabled) <==> NoStageRaises(d, enabled)
  {
    var stages, n := Stages(enabled), Stop(d, enabled);
    if n < |stages| {
      assert ReachedStage(d, enabled, n);
    }
  }

  /** A stage is run exactly when set-up succeeds and every stage before it exits zero. */
  lemma StageRunsWhen(d: Daemon, enabled: bool, i: nat)
    requires i < |Stages(enabled)|
    ensures RunStep(Stages(enabled)[i]) in SubmitTrace(d, enabled) <==> SetupClean(d, enabled) && ReachedStage(d, enabled, i)
  {
    var stages, n, steps := Stages(enabled), Stop(d, enabled), StepsRun(d, enabled);
    StepInTrace(d, enabled, stages[i]);
    if i <= n {
      assert steps[i] == stages[i];
    } else {
      assert !Clean(d, stages[n]);
    }
  }

  /** The reporter is run exactly when set-up succeeds and no stage that is reached raises. */
  lemma ReporterRunsWhen(d: Daemon, enabled: bool)
    ensures RunStep(Reporter) in SubmitTrace(d, enabled) <==> SetupClean(d, enabled) && NoStageRaises(d, enabled)
  {
    var steps := StepsRun(d, enabled);
    StepInTrace(d, enabled, Reporter);
    ReporterStartsWhen(d, enabled);
    if ReporterStarts(d, enabled) {
      assert steps[|steps| - 1] == Reporter;
    }
  }

  /** So there are daemons under which no reporter is started: one that cannot pull its image although
      every step would exit zero, and one whose clone step raises. */
  lemma NoReporter(enabled: bool)
    ensures var unpulled := Daemon(e => if e == EnsureImage(Reporter) then Some("no such image") else None,
                                   _ => Exited(0, ""), _ => Deleted);
            RunStep(Reporter) !in SubmitTrace(unpulled, enabled)
    ensures var broken := Daemon(_ => None, s => if s == Clone then Raised("timeout") else Exited(0, ""), _ => Deleted);
            RunStep(Reporter) !in SubmitTrace(broken, enabled)
  {
    var unpulled := Daemon(e => if e == EnsureImage(Reporter) then Some("no such image") else None,
                           _ => Exited(0, ""), _ => Deleted);
    var broken := Daemon(_ => None, s => if s == Clone then Raised("timeout") else Exited(0, ""), _ => Deleted);
    ReporterRunsWhen(unpulled, enabled);
    assert SetupEffects(enabled)[3] == EnsureImage(Reporter);
    ReporterRunsWhen(broken, enabled);
    assert ReachedStage(broken, enabled, 0) && Stages(enabled)[0] == Clone;
  }

  // ---- the same, stage by stage ---------------------------------------------

  /** Every image and both volumes can be had; the secret scanner's image only where it is wanted. */
  ghost predicate SetsUp(d: Daemon, secrets: bool) {
    && d.setup(EnsureImage(Clone)).None? && d.setup(EnsureImage(Syft)).None? && d.setup(EnsureImage(Grype)).None?
    && d.setup(EnsureImage(Reporter)).None? && (secrets ==> d.setup(EnsureImage(SecretScan)).None?)
    && d.setup(CreateVolume(Workspace)).None? && d.setup(CreateVolume(Artifacts)).None?
  }

  /** The stage that ends the scan early: the clone, else syft, else grype, else the secret scan if wanted. */
  ghost function FirstUnclean(d: Daemon, secrets: bool): Option<Stage> {
    if !Clean(d, Clone) then Some(Clone)
    else if !Clean(d, Syft) then Some(Syft)
    else if !Clean(d, Grype) then Some(Grype)
    else if secrets && !Clean(d, SecretScan) then Some(SecretScan)
    else None
  }

  /** The clone, then syft on what was cloned, then grype on what syft made, then the secret scan; each
      only if the one before is clean; then the reporter, unless the last of them raised. */
  ghost function InOrder(d: Daemon, secrets: bool): seq<Stage> {
    [Clone]
    + (if !Clean(d, Clone) then ReporterAfter(d, Clone)
       else
         [Syft]
         + (if !Clean(d, Syft) then ReporterAfter(d, Syft)
            else
              [Grype]
              + (if !Clean(d, Grype) then ReporterAfter(d, Grype)
                 else if secrets then [SecretScan] + ReporterAfter(d, SecretScan)
                 else [Reporter])))
  }

  ghost function ReporterAfter(d: Daemon, s: Stage): seq<Stage> {
    if d.step(s).Exited? then [Reporter] else []
  }

  lemma SetsUpExactly(d: Daemon, secrets: bool)
    ensures SetupClean(d, secrets) <==> SetsUp(d, secrets)
  {
    var e := SetupEffects(secrets);
    assert e[0] == EnsureImage(Clone) && e[1] == EnsureImage(Syft) && e[2] == EnsureImage(Grype) && e[3] == EnsureImage(Reporter);
    if secrets {
      assert e[4] == EnsureImage(SecretScan) && e[5] == CreateVolume(Workspace) && e[6] == CreateVolume(Artifacts);
    } else {
      assert e[4] == CreateVolume(Workspace) && e[5] == CreateVolume(Artifacts);
    }
  }

  lemma StopsAtFirstUnclean(d: Daemon, secrets: bool)
    ensures AllClean(d, secrets) <==> FirstUnclean(d, secrets).None?
    ensures FirstUnclean(d, secrets).Some? ==>
              && Stages(secrets)[Stop(d, secrets)] == FirstUnclean(d, secrets).value
              && StopOutcome(d, secrets) == d.step(FirstUnclean(d, secrets).value)
    ensures ReporterStarts(d, secrets) <==>
            FirstUnclean(d, secrets).None? || d.step(FirstUnclean(d, secrets).value).Exited?
  {
    var stages := Stages(secrets);
    assert stages[0] == Clone && stages[1] == Syft && stages[2] == Grype && (secrets ==> stages[3] == SecretScan);
    if !Clean(d, Clone) {
      StopIs(d, secrets, 0);
    } else if !Clean(d, Syft) {
      StopIs(d, secrets, 1);
    } else if !Clean(d, Grype) {
      StopIs(d, secrets, 2);
    } else if secrets && !Clean(d, SecretScan) {
      StopIs(d, secrets, 3);
    }
  }

  /** The steps run, one after the other, by name. */
  lemma StepsInOrder(d: Daemon, secrets: bool)
    ensures StepsRun(d, secrets) == InOrder(d, secrets)
  {
    var stages, n := Stages(secrets), Stop(d, secrets);
    StopsAtFirstUnclean(d, secrets);
    assert stages[0] == Clone && stages[1] == Syft && stages[2] == Grype && (secrets ==> stages[3] == SecretScan);
    assert stages[..1] == [Clone] && stages[..2] == [Clone, Syft] && stages[..3] == [Clone, Syft, Grype];
    if AllClean(d, secrets) {
      assert n == |stages|;
    }
  }

  /** The whole submission by name, when set-up succeeds. */
  lemma TraceInOrder(d: Daemon, secrets: bool)
    requires SetsUp(d, secrets)
    ensures SubmitTrace(d, secrets)
         == [EnsureImage(Clone), EnsureImage(Syft), EnsureImage(Grype), EnsureImage(Reporter)]
            + (if secrets then [EnsureImage(SecretScan)] else [])
            + [CreateVolume(Workspace), CreateVolume(Artifacts)]
            + Steps(InOrder(d, secrets))
            + [DeleteVolume(Workspace)]
            + if d.deletion(Workspace).OtherError? then [] else [DeleteVolume(Artifacts)]
  {
    SetsUpExactly(d, secrets);
    StepsInOrder(d, secrets);
  }

  lemma WhoRuns(d: Daemon, secrets: bool)
    ensures var steps := InOrder(d, secrets);
            && Clone in steps && (Syft in steps <==> Clean(d, Clone)) && (Grype in steps <==> Clean(d, Clone) && Clean(d, Syft))
            && (SecretScan in steps <==> secrets && Clean(d, Clone) && Clean(d, Syft) && Clean(d, Grype))
            && (Reporter in steps <==> FirstUnclean(d, secrets).None? || d.step(FirstUnclean(d, secrets).value).Exited?)
  {
  }

  /** What each stage waits for. */
  lemma EachStageExactly(d: Daemon, secrets: bool)
    ensures RunStep(Clone) in SubmitTrace(d, secrets) <==> SetsUp(d, secrets)
    ensures RunStep(Syft) in SubmitTrace(d, secrets) <==> SetsUp(d, secrets) && Clean(d, Clone)
    ensures RunStep(Grype) in SubmitTrace(d, secrets) <==> SetsUp(d, secrets) && Clean(d, Clone) && Clean(d, Syft)
    ensures RunStep(SecretScan) in SubmitTrace(d, secrets) <==>
            SetsUp(d, secrets) && secrets && Clean(d, Clone) && Clean(d, Syft) && Clean(d, Grype)
    ensures RunStep(Reporter) in SubmitTrace(d, secrets) <==>
            SetsUp(d, secrets)
            && (FirstUnclean(d, secrets).None? || d.step(FirstUnclean(d, secrets).value).Exited?)
  {
    SetsUpExactly(d, secrets);
    WhoRuns(d, secrets);
    ForEachStep(d, secrets, Clone);
    ForEachStep(d, secrets, Syft);
    ForEachStep(d, secrets, Grype);
    ForEachStep(d, secrets, SecretScan);
    ForEachStep(d, secrets, Reporter);
  }

  lemma ForEachStep(d: Daemon, secrets: bool, s: Stage)
    ensures RunStep(s) in SubmitTrace(d, secrets) <==> SetupClean(d, secrets) && s in InOrder(d, secrets)
  {
    StepsInOrder(d, secrets);
    StepInTrace(d, secrets, s);
  }

  lemma NoneDeletedBefore(d: Daemon, secrets: bool, v: Volume)
    ensures DeleteVolume(v) !in SetupEffects(secrets) + Steps(StepsRun(d, secrets))
    ensures forall n :: 0 <= n <= |SetupEffects(secrets)| ==> DeleteVolume(v) !in SetupEffects(secrets)[..n]
  {
    assert forall e :: e in SetupEffects(secrets) ==> !e.DeleteVolume?;
  }

  /** Both volumes are deleted after any submission whose set-up succeeded, the second unless deleting the
      first raises something other than a daemon error; after a failed set-up neither is. */
  lemma DeletionsExactly(d: Daemon, secrets: bool)
    ensures DeleteVolume(Workspace) in SubmitTrace(d, secrets) <==> SetsUp(d, secrets)
    ensures DeleteVolume(Artifacts) in SubmitTrace(d, secrets) <==> SetsUp(d, secrets) && !d.deletion(Workspace).OtherError?
  {
    SetsUpExactly(d, secrets);
    NoneDeletedBefore(d, secrets, Workspace);
    NoneDeletedBefore(d, secrets, Artifacts);
    DeletedAfter(d, Workspace);
    DeletedAfter(d, Artifacts);
  }

  lemma DeletedAfter(d: Daemon, v: Volume)
    ensures DeleteVolume(v) in Deletions(d) <==> v == Workspace || !d.deletion(Workspace).OtherError?
  {
    assert Deletions(d)[0] == DeleteVolume(Workspace);
    if !d.deletion(Workspace).OtherError? {
      assert Deletions(d)[1] == DeleteVolume(Artifacts);
    }
  }

  /** The name the reporter is given for a failing stage. */
  function Name(s: Stage): string
    requires s != Reporter
  {
    match s
    case Clone => "clone"
    case Syft => "syft"
    case Grype => "grype"
    case SecretScan => "secret-scan"
  }

  /** The marks name the first unclean stage and carry its log, cut to 1024 characters. */
  lemma MarksExactly(spec: Spec, d: Daemon, startedAt: string)
    requires IPPON_FAILED !in spec.reporterEnv && ReporterEnv(spec, d, startedAt).Some?
    ensures var (env, first) := (ReporterEnv(spec, d, startedAt).value, FirstUnclean(d, spec.secretScanEnabled));
            if first.None? then IPPON_FAILED !in env
            else
              && IPPON_FAILED in env && IPPON_FAILED_STEP in env && IPPON_FAILED_REASON in env
              && env[IPPON_FAILED] == "1" && env[IPPON_FAILED_STEP] == Name(first.value)
              && d.step(first.value).Exited?
              && var logs := d.step(first.value).logs;
                 env[IPPON_FAILED_REASON] == if |logs| <= 1024 then logs else logs[..1024]
  {
    FailureMarks(spec, d, startedAt);
    StopsAtFirstUnclean(d, spec.secretScanEnabled);
  }

  lemma RaisingSetup(d: Daemon, enabled: bool, k: nat)
    requires k < |SetupEffects(enabled)| && d.setup(SetupEffects(enabled)[k]).Some?
    requires forall i :: 0 <= i < k ==> d.setup(SetupEffects(enabled)[i]).None?
    ensures !SetupClean(d, enabled) && SubmitTrace(d, enabled) == SetupEffects(enabled)[..k + 1]
  {
    assert FirstRaising(d, SetupEffects(enabled), 0) == k;
  }

  class Runner {
    const daemon: Daemon
    var trace: seq<Effect>

    constructor (daemon: Daemon)
      ensures this.daemon == daemon && trace == []
    {
      this.daemon, trace := daemon, [];
    }

    /** The first `k` set-up calls, and no other, were made and succeeded. */
    ghost predicate Prepared(enabled: bool, k: nat)
      reads this
    {
      && k <= |SetupEffects(enabled)| && trace == SetupEffects(enabled)[..k]
      && forall i :: 0 <= i < k ==> daemon.setup(SetupEffects(enabled)[i]).None?
    }

    /** An exception ends set-up with this call, and with it the whole submission. */
    method Prepare(effect: Effect, ghost enabled: bool, ghost k: nat) returns (exc: Option<string>)
      requires Prepared(enabled, k) && k < |SetupEffects(enabled)| && SetupEffects(enabled)[k] == effect
      modifies this`trace
      ensures exc == daemon.setup(effect) && exc == daemon.setup(SetupEffects(enabled)[k])
      ensures trace == SetupEffects(enabled)[..k + 1]
      ensures exc.None? ==> Prepared(enabled, k + 1)
      ensures exc.Some? ==> RaisedInSetup(enabled, exc)
    {
      trace := trace + [effect];
      exc := daemon.setup(effect);
      if exc.Some? {
        RaisingSetup(daemon, enabled, k);
      }
    }

    /** Set-up ended with the last call made, which raised `exc`. */
    ghost predicate RaisedInSetup(enabled: bool, exc: Option<string>)
      reads this
    {
      && exc.Some? && !SetupClean(daemon, enabled) && trace == SubmitTrace(daemon, enabled)
      && 0 < |trace| && trace <= SetupEffects(enabled) && exc == daemon.setup(trace[|trace| - 1])
    }

    /** The calls before the `try`: an exception here skips the clean-up altogether. */
    method Setup(enabled: bool) returns (exc: Option<string>)
      requires trace == []
      modifies this`trace
      ensures exc.None? ==> SetupClean(daemon, enabled) && trace == SetupEffects(enabled)
      ensures exc.Some? ==> RaisedInSetup(enabled, exc)
    {
      exc := Prepare(EnsureImage(Clone), enabled, 0);
      if exc.Some? { return; }
      exc := Prepare(EnsureImage(Syft), enabled, 1);
      if exc.Some? { return; }
      exc := Prepare(EnsureImage(Grype), enabled, 2);
      if exc.Some? { return; }
      exc := Prepare(EnsureImage(Reporter), enabled, 3);
      if exc.Some? { return; }
      if enabled {
        exc := Prepare(EnsureImage(SecretScan), enabled, 4);
        if exc.Some? { return; }
      }
      exc := Prepare(CreateVolume(Workspace), enabled, if enabled then 5 else 4);
      if exc.Some? { return; }
      exc := Prepare(CreateVolume(Artifacts), enabled, if enabled then 6 else 5);
    }

    method Step(stage: Stage) returns (o: StepOutcome)
      modifies this`trace
      ensures trace == old(trace) + [RunStep(stage)] && o == daemon.step(stage)
    {
      trace := trace + [RunStep(stage)];
      o := daemon.step(stage);
    }

    /** The stages: each runs only while nothing has failed, and the first failure is remembered. */
    method Chain(enabled: bool) returns (failed: Option<(Stage, string)>, exc: Option<string>)
      modifies this`trace
      ensures AllClean(daemon, enabled) ==>
                failed.None? && exc.None? && trace == old(trace) + Steps(Stages(enabled))
      ensures !AllClean(daemon, enabled) ==>
                && trace == old(trace) + Steps(Stages(enabled)[..Stop(daemon, enabled) + 1])
                && exc == Raising(StopOutcome(daemon, enabled))
                && (exc.None? ==> failed == Some((Stages(enabled)[Stop(daemon, enabled)], StopOutcome(daemon, enabled).logs)))
    {
      failed, exc := None, None;
      ghost var stages := Stages(enabled);
      var step := Step(Clone);
      assert trace == old(trace) + Steps(stages[..1]);
      if step.Raised? {
        exc := Some(step.exc);
        StopIs(daemon, enabled, 0);
        return;
      }
      if step.code != 0 {
        failed := Some((Clone, step.logs));
        StopIs(daemon, enabled, 0);
      }
      if failed.None? {
        step := Step(Syft);
        assert Clean(daemon, stages[0]);
        assert trace == old(trace) + Steps(stages[..2]);
        if step.Raised? {
          exc := Some(step.exc);
          StopIs(daemon, enabled, 1);
          return;
        }
        if step.code != 0 {
          failed := Some((Syft, step.logs));
          StopIs(daemon, enabled, 1);
        }
      }
      if failed.None? {
        step := Step(Grype);
        assert Clean(daemon, stages[1]);
        assert trace == old(trace) + Steps(stages[..3]);
        if step.Raised? {
          exc := Some(step.exc);
          StopIs(daemon, enabled, 2);
          return;
        }
        if step.code != 0 {
          failed := Some((Grype, step.logs));
          StopIs(daemon, enabled, 2);
        }
      }
      if failed.None? && enabled {
        step := Step(SecretScan);
        assert Clean(daemon, stages[2]);
        assert trace == old(trace) + Steps(stages[..4]);
        if step.Raised? {
          exc := Some(step.exc);
          StopIs(daemon, enabled, 3);
          return;
        }
        if step.code != 0 {
          failed := Some((SecretScan, step.logs));
          StopIs(daemon, enabled, 3);
        }
      }
      if failed.None? {
        assert stages[..|stages|] == stages;
      }
    }

    method CleanUp() returns (exc: Option<string>)
      modifies this`trace
      ensures trace == old(trace) + Deletions(daemon) && exc == DeletionRaises(daemon)
    {
      trace := trace + [DeleteVolume(Workspace)];
      if daemon.deletion(Workspace).OtherError? {
        return Some(daemon.deletion(Workspace).exc);
      }
      trace := trace + [DeleteVolume(Artifacts)];
      assert trace == old(trace) + Deletions(daemon);
      return if daemon.deletion(Artifacts).OtherError? then Some(daemon.deletion(Artifacts).exc) else None;
    }

    /** The body of the `try`: the stages, then the reporter with the marks of the first failure. */
    method RunSteps(spec: Spec, startedAt: string) returns (env: Option<Env>, exc: Option<string>)
      modifies this`trace
      ensures env == ReporterEnv(spec, daemon, startedAt)
      ensures exc == ChainRaises(daemon, spec.secretScanEnabled)
      ensures trace == old(trace) + Steps(StepsRun(daemon, spec.secretScanEnabled))
    {
      env := None;
      var failed: Option<(Stage, string)>;
      failed, exc := Chain(spec.secretScanEnabled);
      if exc.Some? {
        return;
      }
      var reporterEnv := BaseEnv(spec, startedAt);
      if failed.Some? {
        reporterEnv := reporterEnv + map[
          IPPON_FAILED := "1",
          IPPON_FAILED_STEP := StageName(failed.value.0),
          IPPON_FAILED_REASON := Text.Clip(failed.value.1, REASON_LIMIT)];
      }
      env := Some(reporterEnv);
      var step := Step(Reporter);
      exc := Raising(step);
    }

    /** `submit`: returns the environment the reporter was started with, and what it raised. */
    method Submit(spec: Spec, startedAt: string) returns (env: Option<Env>, exc: Option<string>)
      requires trace == []
      modifies this`trace
      ensures trace == SubmitTrace(daemon, spec.secretScanEnabled)
      ensures env.Some? <==> SetupClean(daemon, spec.secretScanEnabled) && NoStageRaises(daemon, spec.secretScanEnabled)
      ensures !SetupClean(daemon, spec.secretScanEnabled) ==> env.None? && RaisedInSetup(spec.secretScanEnabled, exc)
      ensures SetupClean(daemon, spec.secretScanEnabled) ==>
                && env == ReporterEnv(spec, daemon, startedAt)
                && exc == Propagated(daemon, ChainRaises(daemon, spec.secretScanEnabled))
    {
      ReporterStartsWhen(daemon, spec.secretScanEnabled);
      env := None;
      exc := Setup(spec.secretScanEnabled);
      if exc.Some? {
        return;
      }
      env, exc := RunSteps(spec, startedAt);
      var cleanUp := CleanUp();
      if cleanUp.Some? {
        exc := cleanUp;
      }
    }
  }
}
