/** One task delivery from the queued row to its final state: the spec, the container chain, the
    reporter, its callback and the backstop. */
module EndToEnd {
  import opened Common
  import opened Environment
  import ScanJob
  import Protocol = ScanProtocol
  import Docker = DockerRunner
  import Reporter = ReporterMain
  import Text

  datatype Settings = Settings(
    callbackBaseUrl: string, clickhouseUrl: string, s3EndpointUrl: string, s3Bucket: string,
    accessKey: string, secretKey: string, secretScanEnabled: bool)

  datatype Policy = Policy(secretScanEnabled: bool)

  datatype Identity = Identity(scanId: string, orgId: string, repoId: string, secret: string)

  function DropTrailingSlashes(s: string): string {
    if s != "" && s[|s| - 1] == '/' then DropTrailingSlashes(s[..|s| - 1]) else s
  }

  /** `build_scan_job_spec`: a policy, where there is one, decides about secret scanning. */
  function BuildSpec(settings: Settings, id: Identity, policy: Option<Policy>): Docker.Spec {
    Docker.Spec(
      id.scanId, id.orgId, id.repoId,
      DropTrailingSlashes(settings.callbackBaseUrl) + "/internal/scans/" + id.scanId + "/callback",
      id.secret,
      map[CLICKHOUSE_URL := settings.clickhouseUrl, S3_ENDPOINT_URL := settings.s3EndpointUrl,
          S3_BUCKET := settings.s3Bucket, AWS_ACCESS_KEY_ID := settings.accessKey,
          AWS_SECRET_ACCESS_KEY := settings.secretKey],
      if policy.Some? then policy.value.secretScanEnabled else settings.secretScanEnabled)
  }

  /** Everything outside the code's control during one delivery. `reporterRan`: whether the reporter
      process got to run although the daemon then raised; `reaches`: whether its POST arrived. */
  datatype Case = Case(
    id: Identity, settings: Settings, policy: Option<Policy>, repoFound: bool, buildError: Option<string>,
    daemon: Docker.Daemon, startedAt: string, reporterRan: bool, world: Reporter.World,
    reaches: bool, fault: ScanJob.Fault, startTime: int, endTime: int)
  {
    /** Identifiers are UUIDs as Python prints them, the secret a minted one, and the start time an
        `isoformat`: what the columns and the runner can only hold. */
    predicate Named() {
      && Printed(id.scanId) && Printed(id.orgId) && Printed(id.repoId) && id.secret != ""
      && world.library.isoTime(startedAt)
    }

    /** A UUID text that is read as itself. */
    predicate Printed(uuid: string) {
      uuid != "" && world.library.uuid(uuid) == Some(uuid)
    }

    function Spec(): Docker.Spec {
      BuildSpec(settings, id, policy)
    }

    predicate Proceeds() {
      repoFound && buildError.None?
    }

    /** The policy decides where there is one, otherwise the setting. */
    predicate ScansSecrets() {
      match policy
      case Some(p) => p.secretScanEnabled
      case None => settings.secretScanEnabled
    }

    /** Clone, syft, grype and, where wanted, the secret scan exit zero. */
    ghost predicate AllClean() {
      && Docker.Clean(daemon, Docker.Clone) && Docker.Clean(daemon, Docker.Syft) && Docker.Clean(daemon, Docker.Grype)
      && (ScansSecrets() ==> Docker.Clean(daemon, Docker.SecretScan))
    }

    /** The first of them that does not. */
    ghost function FirstUnclean(): Docker.Stage
      requires !AllClean()
    {
      if !Docker.Clean(daemon, Docker.Clone) then Docker.Clone
      else if !Docker.Clean(daemon, Docker.Syft) then Docker.Syft
      else if !Docker.Clean(daemon, Docker.Grype) then Docker.Grype
      else Docker.SecretScan
    }

    predicate ConfiguredIngest() {
      && settings.s3Bucket != "" && settings.clickhouseUrl != "" && settings.s3EndpointUrl != ""
      && settings.accessKey != "" && settings.secretKey != ""
    }

    /** The reporter process ran and its POST got through. */
    ghost predicate Heard() {
      && Proceeds() && Docker.SetsUp(daemon, ScansSecrets())
      && (AllClean() || daemon.step(FirstUnclean()).Exited?)
      && (daemon.step(Docker.Reporter).Exited? || reporterRan)
      && reaches
    }

    /** The reporter has what it needs to post. */
    ghost predicate Posts() {
      !world.commitFile.Unreadable? && (AllClean() ==> ConfiguredIngest())
    }

    /** The callback's transaction commits a status. */
    ghost predicate Recorded() {
      && Heard() && Posts()
      && (if AllClean() && world.ingest.Ingested? then fault == ScanJob.NoFault else fault != ScanJob.CommitFails)
    }

    /** The message the row ends with when the callback recorded a failure. */
    ghost function ReportedError(): string
      requires !AllClean() || world.ingest.IngestRaised?
    {
      if AllClean() then Reporter.IngestError(world.ingest.exc)
      else
        var o := daemon.step(FirstUnclean());
        if o.Exited? then (if |o.logs| <= 1024 then o.logs else o.logs[..1024]) else ""
    }

    /** The exception that ends the steps: that of the stage that raises, or else the reporter's. */
    ghost function StepsRaise(): Option<string> {
      var o := if AllClean() || daemon.step(FirstUnclean()).Exited? then daemon.step(Docker.Reporter) else daemon.step(FirstUnclean());
      if o.Raised? then Some(o.exc) else None
    }

    /** What `submit` raises: deleting a volume before the steps, or the set-up call that raises. */
    ghost predicate SubmitRaises(exc: Option<string>) {
      if Docker.SetsUp(daemon, ScansSecrets()) then
        exc == (if daemon.deletion(Docker.Workspace).OtherError? then Some(daemon.deletion(Docker.Workspace).exc)
                else if daemon.deletion(Docker.Artifacts).OtherError? then Some(daemon.deletion(Docker.Artifacts).exc)
                else StepsRaise())
      else
        exc.Some? && exists e :: e in Docker.SetupEffects(ScansSecrets()) && daemon.setup(e) == exc
    }
  }

  /** The case in the runner's own terms. */
  lemma InRunnersTerms(c: Case)
    ensures c.ScansSecrets() <==> c.Spec().secretScanEnabled
    ensures c.AllClean() <==> Docker.AllClean(c.daemon, c.Spec().secretScanEnabled)
    ensures Docker.SetsUp(c.daemon, c.ScansSecrets()) <==> Docker.SetupClean(c.daemon, c.Spec().secretScanEnabled)
    ensures Docker.ReporterStarts(c.daemon, c.Spec().secretScanEnabled) <==>
            c.AllClean() || c.daemon.step(c.FirstUnclean()).Exited?
    ensures !c.AllClean() ==> Docker.StopOutcome(c.daemon, c.Spec().secretScanEnabled) == c.daemon.step(c.FirstUnclean())
    ensures Docker.ChainRaises(c.daemon, c.Spec().secretScanEnabled) == c.StepsRaise()
  {
    Docker.SetsUpExactly(c.daemon, c.ScansSecrets());
    Docker.StopsAtFirstUnclean(c.daemon, c.ScansSecrets());
  }

  /** A policy decides about secret scanning whatever the setting; without one the setting does. */
  lemma PolicyDecides(settings: Settings, id: Identity, p: Policy)
    ensures BuildSpec(settings, id, Some(p)).secretScanEnabled == p.secretScanEnabled
    ensures BuildSpec(settings, id, None).secretScanEnabled == settings.secretScanEnabled
  {
  }

  /** The callback URL is the scan's, under the base URL whatever slashes end that. */
  lemma {:induction false} CallbackUrl(settings: Settings, id: Identity, policy: Option<Policy>, base: string, slashes: string)
    requires settings.callbackBaseUrl == base + slashes && (base != "" ==> base[|base| - 1] != '/')
    requires forall i :: 0 <= i < |slashes| ==> slashes[i] == '/'
    ensures BuildSpec(settings, id, policy).callbackUrl == base + "/internal/scans/" + id.scanId + "/callback"
  {
    SlashesDropped(base, slashes);
  }

  lemma {:induction false} SlashesDropped(base: string, slashes: string)
    requires base != "" ==> base[|base| - 1] != '/'
    requires forall i :: 0 <= i < |slashes| ==> slashes[i] == '/'
    ensures DropTrailingSlashes(base + slashes) == base
  {
    if slashes == "" {
      assert base + slashes == base;
    } else {
      assert (base + slashes)[..|base + slashes| - 1] == base + slashes[..|slashes| - 1];
      SlashesDropped(base, slashes[..|slashes| - 1]);
    }
  }

  /** Each setting reaches the reporter under its own name, and so do the scan's own values. */
  lemma SettingsByName(c: Case)
    ensures var env := Docker.BaseEnv(c.Spec(), c.startedAt);
            && CLICKHOUSE_URL in env && env[CLICKHOUSE_URL] == c.settings.clickhouseUrl
            && S3_ENDPOINT_URL in env && env[S3_ENDPOINT_URL] == c.settings.s3EndpointUrl
            && S3_BUCKET in env && env[S3_BUCKET] == c.settings.s3Bucket
            && AWS_ACCESS_KEY_ID in env && env[AWS_ACCESS_KEY_ID] == c.settings.accessKey
            && AWS_SECRET_ACCESS_KEY in env && env[AWS_SECRET_ACCESS_KEY] == c.settings.secretKey
  {
  }

  lemma IdentityByName(c: Case)
    ensures var env := Docker.BaseEnv(c.Spec(), c.startedAt);
            && IPPON_SCAN_ID in env && env[IPPON_SCAN_ID] == c.id.scanId
            && IPPON_ORG_ID in env && env[IPPON_ORG_ID] == c.id.orgId
            && IPPON_REPO_ID in env && env[IPPON_REPO_ID] == c.id.repoId
            && IPPON_CALLBACK_SECRET in env && env[IPPON_CALLBACK_SECRET] == c.id.secret
            && IPPON_CALLBACK_URL in env && env[IPPON_CALLBACK_URL] == c.Spec().callbackUrl
            && IPPON_SCAN_STARTED_AT in env && env[IPPON_SCAN_STARTED_AT] == c.startedAt
  {
  }

  ghost predicate CarriesIdentity(c: Case, env: Env) {
    && Reporter.Identified(env, c.world.library)
    && (Reporter.Prepared(env, c.world) <==> !c.world.commitFile.Unreadable?)
    && (Reporter.Configured(env) <==> c.ConfiguredIngest())
    && Reporter.Uuid(env, IPPON_SCAN_ID, c.world.library) == c.id.scanId
    && Reporter.Uuid(env, IPPON_ORG_ID, c.world.library) == c.id.orgId
    && Reporter.Uuid(env, IPPON_REPO_ID, c.world.library) == c.id.repoId
    && env[IPPON_CALLBACK_SECRET] == c.id.secret
  }

  lemma SettingsCarried(c: Case)
    ensures Reporter.Configured(c.Spec().reporterEnv) <==> c.ConfiguredIngest()
    ensures IPPON_FAILED !in c.Spec().reporterEnv
  {
  }

  lemma NoLogLevel(c: Case)
    ensures IPPON_LOG_LEVEL !in Docker.BaseEnv(c.Spec(), c.startedAt)
  {
  }

  lemma SettingsKept(spec: Docker.Spec, startedAt: string)
    ensures Reporter.Configured(Docker.BaseEnv(spec, startedAt)) <==> Reporter.Configured(spec.reporterEnv)
    ensures IPPON_FAILED in Docker.BaseEnv(spec, startedAt) <==> IPPON_FAILED in spec.reporterEnv
  {
  }

  lemma BaseEnvFacts(c: Case)
    requires c.Named()
    ensures CarriesIdentity(c, Docker.BaseEnv(c.Spec(), c.startedAt))
    ensures IPPON_FAILED !in Docker.BaseEnv(c.Spec(), c.startedAt)
  {
    SettingsCarried(c);
    SettingsKept(c.Spec(), c.startedAt);
    NoLogLevel(c);
    var spec := c.Spec();
    assert spec.callbackUrl != "" by {
      assert spec.callbackUrl[|spec.callbackUrl| - 1] == 'k';
    }
  }

  lemma OneIsSet(env: Env)
    requires IPPON_FAILED in env && env[IPPON_FAILED] == "1"
    ensures Reporter.FlagSet(env, IPPON_FAILED)
  {
    assert Text.Lower("1") == "1";
  }

  lemma MarksKeepIdentity(c: Case, base: Env, step: string, reason: string)
    requires CarriesIdentity(c, base)
    ensures var env := base + map[IPPON_FAILED := "1", IPPON_FAILED_STEP := step, IPPON_FAILED_REASON := reason];
            && CarriesIdentity(c, env) && Reporter.FlagSet(env, IPPON_FAILED)
            && Reporter.Get(env, IPPON_FAILED_REASON) == Some(reason)
  {
    var env := base + map[IPPON_FAILED := "1", IPPON_FAILED_STEP := step, IPPON_FAILED_REASON := reason];
    OneIsSet(env);
  }

  /** The reporter's environment carries the scan's identity, the settings, and a failure flag
      exactly when a stage failed. */
  lemma EnvironmentFacts(c: Case)
    requires c.Named() && Docker.ReporterStarts(c.daemon, c.Spec().secretScanEnabled)
    ensures var env := Docker.ReporterEnv(c.Spec(), c.daemon, c.startedAt).value;
            && CarriesIdentity(c, env)
            && (Reporter.FlagSet(env, IPPON_FAILED) <==> !c.AllClean())
            && (!c.AllClean() ==> Reporter.Get(env, IPPON_FAILED_REASON) == Some(c.ReportedError()))
  {
    var enabled := c.Spec().secretScanEnabled;
    InRunnersTerms(c);
    if c.AllClean() {
      BaseEnvFacts(c);
    } else {
      BaseEnvFacts(c);
      MarksKeepIdentity(c, Docker.BaseEnv(c.Spec(), c.startedAt),
                        Docker.StageName(Docker.Stages(enabled)[Docker.Stop(c.daemon, enabled)]),
                        Text.Clip(Docker.StopOutcome(c.daemon, enabled).logs, Docker.REASON_LIMIT));
    }
  }

  /** The row, or the payload, of a success says what ingest found, and of which commit. */
  predicate TellsIngest(w: Reporter.World, commitSha: Option<string>, sbomSha256: Option<string>,
                        syftVersion: Option<string>, grypeVersion: Option<string>, grypeDbVersion: Option<string>)
    requires w.ingest.Ingested?
  {
    && commitSha == Reporter.KnownSha(Reporter.CommitSha(w.commitFile))
    && sbomSha256 == Some(w.ingest.sbomSha256) && syftVersion == Some(w.ingest.syftVersion)
    && grypeVersion == Some(w.ingest.grypeVersion) && grypeDbVersion == w.ingest.grypeDbVersion
  }

  /** A payload that says how the chain and ingest went. */
  ghost predicate Truthful(c: Case, p: ScanJob.Payload) {
    && p.scanId == c.id.scanId && p.finishedAt == c.world.now
    && p.commitSha == Reporter.KnownSha(Reporter.CommitSha(c.world.commitFile))
    && (p.status != "succeeded" ==>
          p.sbomSha256.None? && p.syftVersion.None? && p.grypeVersion.None? && p.grypeDbVersion.None?)
    && (p.status == "succeeded" <==> c.AllClean() && c.world.ingest.Ingested?)
    && (p.status != "succeeded" ==> p.objectKey.None? && p.errorMessage == Some(c.ReportedError()))
    && (p.status == "succeeded" ==>
          && p.errorMessage.None?
          && TellsIngest(c.world, p.commitSha, p.sbomSha256, p.syftVersion, p.grypeVersion, p.grypeDbVersion)
          && p.objectKey == Some("sboms/" + c.id.orgId + "/" + c.id.repoId + "/" + Reporter.CommitSha(c.world.commitFile) + ".cdx.json"))
  }

  /** What the reporter posts is true, and it posts unless the commit file is unreadable or its ingest
      settings are missing when needed. */
  lemma PostedFacts(c: Case)
    requires c.Named() && Docker.ReporterStarts(c.daemon, c.Spec().secretScanEnabled)
    ensures var posted := Reporter.Reported(Docker.ReporterEnv(c.Spec(), c.daemon, c.startedAt).value, c.world);
            && (posted.Some? <==> c.Posts())
            && (posted.Some? ==> Truthful(c, posted.value))
  {
    EnvironmentFacts(c);
  }

  /** The row as the start transaction leaves it. */
  function RunningDesk(c: Case): ScanJob.Desk {
    ScanJob.Desk(c.id.scanId, c.id.secret, true,
                 ScanJob.QUEUED_ROW.(status := ScanJob.Running, startedAt := Some(c.startTime)), [])
  }

  function Signed(secret: string, p: ScanJob.Payload): ScanJob.Message {
    ScanJob.Message(Some(ScanJob.HmacSha256(secret, ScanJob.Json(p))), ScanJob.Json(p))
  }

  /** What a row says once the callback is done with it. */
  ghost predicate Settled(c: Case, d: ScanJob.Desk) {
    && (d.row.status == ScanJob.Succeeded <==> c.Recorded() && c.AllClean() && c.world.ingest.Ingested?)
    && (d.row.status == ScanJob.Failed <==> c.Recorded() && !(c.AllClean() && c.world.ingest.Ingested?))
    && (!c.Recorded() ==> d.row == RunningDesk(c).row)
    && (d.row.status == ScanJob.Succeeded ==>
          && d.row.errorMessage.None? && d.sent == [ScanJob.Enrich, ScanJob.Notify]
          && TellsIngest(c.world, d.row.commitSha, d.row.sbomSha256, d.row.syftVersion, d.row.grypeVersion, d.row.grypeDbVersion)
          && d.row.objectKey ==
             Some("sboms/" + c.id.orgId + "/" + c.id.repoId + "/" + Reporter.CommitSha(c.world.commitFile) + ".cdx.json"))
    && (d.row.status == ScanJob.Failed ==>
          && d.row.objectKey.None? && d.row.errorMessage == Some(c.ReportedError())
          && d.row.sbomSha256.None? && d.row.syftVersion.None? && d.row.grypeVersion.None? && d.row.grypeDbVersion.None?)
    && (c.Recorded() ==> d.row.commitSha == Reporter.KnownSha(Reporter.CommitSha(c.world.commitFile)))
    && (c.Recorded() ==> d.row.startedAt == Some(c.startTime) && d.row.finishedAt == Some(c.world.now)
                         && d.row.duration == Some(c.world.now - c.startTime))
    && d.present
  }

  /** A genuine callback on the open row is recorded, unless its transaction is undone. */
  lemma GenuineIsRecorded(c: Case, p: ScanJob.Payload)
    requires p.scanId == c.id.scanId
    ensures var d := ScanJob.Callback(RunningDesk(c), Signed(c.id.secret, p), c.fault).0;
            if (if p.status == "succeeded" then c.fault == ScanJob.NoFault else c.fault != ScanJob.CommitFails)
            then d.row == ScanJob.Recorded(RunningDesk(c).row, p) && d.present
                 && (p.status == "succeeded" ==> d.sent == [ScanJob.Enrich, ScanJob.Notify])
            else d.row == RunningDesk(c).row && d.present
  {
  }

  lemma TruthSettles(c: Case, p: ScanJob.Payload)
    requires c.Heard() && Truthful(c, p) && c.Posts()
    ensures Settled(c, ScanJob.Callback(RunningDesk(c), Signed(c.id.secret, p), c.fault).0)
  {
    GenuineIsRecorded(c, p);
    var d := ScanJob.Callback(RunningDesk(c), Signed(c.id.secret, p), c.fault).0;
    if c.Recorded() {
      assert d.row == ScanJob.Recorded(RunningDesk(c).row, p);
    } else {
      assert d.row == RunningDesk(c).row;
    }
  }

  /** The reporter's own callback leaves the row saying how the scan went. */
  lemma CallbackSettles(c: Case, p: ScanJob.Payload)
    requires c.Named() && c.Heard()
    requires var env := Docker.ReporterEnv(c.Spec(), c.daemon, c.startedAt);
             env.Some? && Reporter.Reported(env.value, c.world) == Some(p)
    ensures Settled(c, ScanJob.Callback(RunningDesk(c), Signed(c.id.secret, p), c.fault).0)
  {
    InRunnersTerms(c);
    PostedFacts(c);
    TruthSettles(c, p);
  }

  /** `run_scan` on a freshly queued scan, with the reporter's POST before any backstop. The final row
      is determined completely:
      - succeeded exactly when every enabled stage exited zero, ingest did not raise and the callback
        was heard and committed; then there is no error, the canonical object key, ingest's own digest and
        versions, the time from start to report, and both tasks;
      - failed without an object key, with the first failing stage's clipped log, the ingest error, the
        runner error, or word that the repository is missing, whichever came first;
      - running, forever, exactly when nothing was raised and no callback was recorded. */
  method RunScan(c: Case, job: ScanJob.Job, runner: Docker.Runner) returns (raised: Option<string>)
    requires c.Named()
    requires job.State() == ScanJob.Desk(c.id.scanId, c.id.secret, true, ScanJob.QUEUED_ROW, [])
    requires runner.daemon == c.daemon && runner.trace == []
    modifies job, runner
    ensures job.status == ScanJob.Succeeded <==>
            && c.Heard() && c.AllClean() && c.ConfiguredIngest() && !c.world.commitFile.Unreadable?
            && c.world.ingest.Ingested? && c.fault == ScanJob.NoFault
    ensures job.status == ScanJob.Succeeded ==>
              && job.errorMessage.None?
              && job.objectKey == Some("sboms/" + c.id.orgId + "/" + c.id.repoId + "/" + Reporter.CommitSha(c.world.commitFile) + ".cdx.json")
              && job.sent == [ScanJob.Enrich, ScanJob.Notify]
              && TellsIngest(c.world, job.commitSha, job.sbomSha256, job.syftVersion, job.grypeVersion, job.grypeDbVersion)
              && job.duration == Some(c.world.now - c.startTime)
    ensures job.status == ScanJob.Running <==> c.Proceeds() && raised.None? && !c.Recorded()
    ensures job.status == ScanJob.Succeeded || job.status == ScanJob.Running || job.status == ScanJob.Failed
    ensures job.status == ScanJob.Failed ==> job.objectKey.None?
    ensures job.status == ScanJob.Failed && c.Recorded() ==> job.errorMessage == Some(c.ReportedError())
    ensures job.status == ScanJob.Failed && c.Proceeds() && !c.Recorded() ==>
              raised.Some? && job.errorMessage == Some(ScanJob.RunnerError(raised.value))
    ensures c.Proceeds() ==> c.SubmitRaises(raised) && runner.trace == Docker.SubmitTrace(c.daemon, c.ScansSecrets())
    ensures !c.Proceeds() ==> runner.trace == []
    ensures Docker.RunStep(Docker.SecretScan) in runner.trace <==>
            && c.Proceeds() && Docker.SetsUp(c.daemon, c.ScansSecrets()) && c.ScansSecrets()
            && Docker.Clean(c.daemon, Docker.Clone) && Docker.Clean(c.daemon, Docker.Syft) && Docker.Clean(c.daemon, Docker.Grype)
    ensures !c.repoFound ==>
              raised.None? && job.status == ScanJob.Failed && job.errorMessage == Some("repository row missing")
    ensures c.repoFound && c.buildError.Some? ==>
              raised == c.buildError && job.status == ScanJob.Failed
              && job.errorMessage == Some(ScanJob.RunnerError(c.buildError.value))
  {
    raised := None;
    Docker.EachStageExactly(c.daemon, c.ScansSecrets());
    var start := job.StartTransaction(c.repoFound, c.buildError, c.startTime);
    if start.RepoMissing? {
      return;
    }
    if start.BuildRaised? {
      raised := Some(start.exc);
    } else {
      raised := SubmitAndReport(c, job, runner);
    }
    if raised.Some? {
      job.BackstopTransaction(raised.value, c.endTime);
    }
  }

  /** What `Submit` promises, as the case says it. */
  lemma RaisedAsSaid(c: Case, exc: Option<string>)
    requires var enabled := c.Spec().secretScanEnabled;
             if Docker.SetupClean(c.daemon, enabled)
             then exc == Docker.Propagated(c.daemon, Docker.ChainRaises(c.daemon, enabled))
             else exc.Some? && exists e :: e in Docker.SetupEffects(enabled) && c.daemon.setup(e) == exc
    ensures c.SubmitRaises(exc)
  {
    InRunnersTerms(c);
  }

  /** The reporter's process, and its POST if that gets through. */
  method LetReport(c: Case, job: ScanJob.Job, env: Env)
    requires c.Named() && c.Proceeds() && Docker.SetsUp(c.daemon, c.ScansSecrets())
    requires job.State() == RunningDesk(c) && Docker.ReporterEnv(c.Spec(), c.daemon, c.startedAt) == Some(env)
    requires c.daemon.step(Docker.Reporter).Exited? || c.reporterRan
    modifies job
    ensures Settled(c, job.State())
  {
    InRunnersTerms(c);
    EnvironmentFacts(c);
    PostedFacts(c);
    var answer := if c.reaches then Reporter.Answered(200) else Reporter.TransportError;
    var posted, _ := Reporter.Report(env, c.world, answer);
    if posted.Some? && c.reaches {
      CallbackSettles(c, posted.value);
      var _ := job.ScanCallback(Signed(env[IPPON_CALLBACK_SECRET], posted.value), c.fault);
    }
  }

  /** The runner call: the reporter it starts posts back to the row while the chain is still going. */
  method SubmitAndReport(c: Case, job: ScanJob.Job, runner: Docker.Runner) returns (raised: Option<string>)
    requires c.Named() && c.Proceeds()
    requires job.State() == RunningDesk(c)
    requires runner.daemon == c.daemon && runner.trace == []
    modifies job, runner
    ensures Settled(c, job.State()) && c.SubmitRaises(raised)
    ensures runner.trace == Docker.SubmitTrace(c.daemon, c.ScansSecrets())
  {
    InRunnersTerms(c);
    var env;
    env, raised := runner.Submit(c.Spec(), c.startedAt);
    assert !Docker.SetupClean(c.daemon, c.Spec().secretScanEnabled) ==>
        runner.trace[|runner.trace| - 1] in Docker.SetupEffects(c.Spec().secretScanEnabled);
    RaisedAsSaid(c, raised);
    if env.Some? && (c.daemon.step(Docker.Reporter).Exited? || c.reporterRan) {
      LetReport(c, job, env.value);
    }
  }

  // ---- reporters in the protocol --------------------------------------------

  /** A callback that some reporter posts, in whatever environment and world it finds itself. */
  ghost predicate FromReporter(m: ScanJob.Message) {
    exists env, w :: PostedIn(env, w, m)
  }

  ghost predicate PostedIn(env: Env, w: Reporter.World, m: ScanJob.Message) {
    && Reporter.Reported(env, w).Some?
    && m == Signed(env[IPPON_CALLBACK_SECRET], Reporter.Reported(env, w).value)
  }

  lemma ReportersAreHonest(m: ScanJob.Message)
    requires FromReporter(m)
    ensures Protocol.Honest(m)
  {
    var env, w :| PostedIn(env, w, m);
    Reporter.PostsExactlyWhen(env, w);
  }

  ghost predicate AllFromReporters(events: seq<Protocol.Event>) {
    forall i :: 0 <= i < |events| && events[i].Posted? ==> FromReporter(events[i].message)
  }

  /** With callbacks that reporters post, delivered in any order and number among any redelivered tasks
      and backstops: the row always has a key exactly while succeeded if and only if no committing task
      delivery finds a key, and a failed row never holds one exactly if nothing fails a row that does. */
  lemma KeysExactlyWhen(scanId: string, secret: string, events: seq<Protocol.Event>)
    requires Protocol.IsRun(Protocol.Fresh(scanId, secret), events) && AllFromReporters(events)
    ensures var p := Protocol.Fresh(scanId, secret);
            && (Protocol.AlwaysKeyIffSucceeded(p, events) <==> Protocol.NeverReruns(p, events))
            && (Protocol.AlwaysFailedMeansNoKey(p, events) <==> Protocol.NeverStrands(p, events))
  {
    forall i | 0 <= i < |events| && events[i].Posted? ensures Protocol.Honest(events[i].message) {
      ReportersAreHonest(events[i].message);
    }
    Protocol.KeyIffSucceededExactlyWhen(scanId, secret, events);
    Protocol.FailedMeansNoKeyExactlyWhen(scanId, secret, events);
  }
}
