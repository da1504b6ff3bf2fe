/** The reporter's entry point: what it posts back, and when it leaves without posting. */
module ReporterMain {
  import opened Common
  import opened Environment
  import ScanJob
  import Text

  datatype Ingest =
    | Ingested(sbomSha256: string, syftVersion: string, grypeVersion: string, grypeDbVersion: Option<string>)
    | IngestRaised(exc: string)

  /** The commit file; reading one that is not UTF-8, or not permitted, raises. */
  datatype CommitFile = Missing | Unreadable | Holds(text: string)

  /** Python's own readers: a UUID text to its canonical form, and which texts are ISO times and log
      levels. */
  datatype Library = Library(uuid: string -> Option<string>, isoTime: string -> bool, logLevel: string -> bool)

  /** What the reporter finds in its container: the commit file, and how ingest will go. */
  datatype World = World(commitFile: CommitFile, ingest: Ingest, now: int, library: Library)

  /** The outcome of posting: an HTTP status, or an exception before one arrives. */
  datatype Post = Answered(status: nat) | TransportError

  function Get(env: Env, key: Var): Option<string> {
    if key in env then Some(env[key]) else None
  }

  /** `_env_required` accepts the key: present and not empty. */
  predicate Supplied(env: Env, key: Var) {
    key in env && env[key] != ""
  }

  predicate IsUuid(env: Env, key: Var, library: Library) {
    Supplied(env, key) && library.uuid(env[key]).Some?
  }

  function Uuid(env: Env, key: Var, library: Library): string
    requires IsUuid(env, key, library)
  {
    library.uuid(env[key]).value
  }

  /** Who the reporter is and where it calls back: three UUIDs and two texts. */
  predicate Identified(env: Env, library: Library) {
    && IsUuid(env, IPPON_SCAN_ID, library) && IsUuid(env, IPPON_ORG_ID, library) && IsUuid(env, IPPON_REPO_ID, library)
    && Supplied(env, IPPON_CALLBACK_URL) && Supplied(env, IPPON_CALLBACK_SECRET)
  }

  /** It comes as far as knowing which commit was scanned. */
  predicate Prepared(env: Env, w: World) {
    && (IPPON_LOG_LEVEL in env ==> w.library.logLevel(env[IPPON_LOG_LEVEL]))
    && Identified(env, w.library)
    && (Supplied(env, IPPON_SCAN_STARTED_AT) ==> w.library.isoTime(env[IPPON_SCAN_STARTED_AT]))
    && !w.commitFile.Unreadable?
  }

  /** What it needs besides to run ingest. */
  predicate Configured(env: Env) {
    && Supplied(env, S3_BUCKET) && Supplied(env, CLICKHOUSE_URL) && Supplied(env, S3_ENDPOINT_URL)
    && Supplied(env, AWS_ACCESS_KEY_ID) && Supplied(env, AWS_SECRET_ACCESS_KEY)
  }

  function FlagSet(env: Env, key: Var): bool {
    key in env && Text.Lower(env[key]) in {"1", "true", "yes"}
  }

  function CommitSha(commitFile: CommitFile): string {
    if commitFile.Holds? && Text.Strip(commitFile.text) != "" then Text.Strip(commitFile.text) else "unknown"
  }

  function KnownSha(sha: string): Option<string> {
    if sha != "unknown" then Some(sha) else None
  }

  /** `build_object_key`. */
  function ObjectKey(org: string, repo: string, sha: string): string {
    "sboms/" + org + "/" + repo + "/" + sha + ".cdx.json"
  }

  function IngestError(exc: string): string {
    "reporter ingest error: " + exc
  }

  /** The payload of a run that ended in failure mode, or after ingest. */
  function FailurePayload(env: Env, w: World): ScanJob.Payload
    requires Prepared(env, w)
  {
    ScanJob.Payload(Uuid(env, IPPON_SCAN_ID, w.library), "failed", w.now, KnownSha(CommitSha(w.commitFile)),
                    None, None, None, None, None, Get(env, IPPON_FAILED_REASON))
  }

  function IngestPayload(env: Env, w: World): ScanJob.Payload
    requires Prepared(env, w)
  {
    var sha := CommitSha(w.commitFile);
    match w.ingest
    case Ingested(digest, syft, grype, grypeDb) =>
      ScanJob.Payload(Uuid(env, IPPON_SCAN_ID, w.library), "succeeded", w.now, KnownSha(sha),
                      Some(ObjectKey(Uuid(env, IPPON_ORG_ID, w.library), Uuid(env, IPPON_REPO_ID, w.library), sha)),
                      Some(digest), Some(syft), Some(grype), grypeDb, None)
    case IngestRaised(exc) =>
      ScanJob.Payload(Uuid(env, IPPON_SCAN_ID, w.library), "failed", w.now, KnownSha(sha),
                      None, None, None, None, None, Some(IngestError(exc)))
  }

  /** What is posted, if anything. A missing setting ends the process by `SystemExit`, which the
      handler around ingest does not catch, and a malformed one by an exception before that handler, so
      nothing is posted. */
  function Reported(env: Env, w: World): Option<ScanJob.Payload> {
    if !Prepared(env, w) then None
    else if FlagSet(env, IPPON_FAILED) then Some(FailurePayload(env, w))
    else if Configured(env) then Some(IngestPayload(env, w))
    else None
  }

  /** The reporter posts exactly when it has a well-formed identity, start time and log level and a
      readable commit file and, unless it is only passing on a failure, its ingest settings as well; so
      it does not post always. */
  lemma PostsExactlyWhen(env: Env, w: World)
    ensures Reported(env, w).Some? <==>
            Prepared(env, w) && (FlagSet(env, IPPON_FAILED) || Configured(env))
    ensures Reported(env, w).Some? ==>
              var p := Reported(env, w).value;
              && (p.status == "succeeded" <==> !FlagSet(env, IPPON_FAILED) && w.ingest.Ingested?)
              && (p.status == "succeeded" <==> p.objectKey.Some?)
              && (p.status == "succeeded" ==> p.errorMessage.None?)
              && (p.status == "failed" <==> p.status != "succeeded")
  {
  }

  predicate Given(env: Env, k: Var) {
    k in env && env[k] != ""
  }

  predicate GivenUuid(env: Env, k: Var, w: World) {
    Given(env, k) && w.library.uuid(env[k]).Some?
  }

  /** The same by name: which values it needs, and which it needs besides for ingest. */
  lemma NeedsByName(env: Env, w: World)
    ensures Reported(env, w).Some? <==>
            && (IPPON_LOG_LEVEL in env ==> w.library.logLevel(env[IPPON_LOG_LEVEL]))
            && GivenUuid(env, IPPON_SCAN_ID, w) && GivenUuid(env, IPPON_ORG_ID, w) && GivenUuid(env, IPPON_REPO_ID, w)
            && Given(env, IPPON_CALLBACK_URL) && Given(env, IPPON_CALLBACK_SECRET)
            && (Given(env, IPPON_SCAN_STARTED_AT) ==> w.library.isoTime(env[IPPON_SCAN_STARTED_AT]))
            && w.commitFile != Unreadable
            && (TellsFailure(env)
                || (&& Given(env, S3_BUCKET) && Given(env, CLICKHOUSE_URL) && Given(env, S3_ENDPOINT_URL)
                    && Given(env, AWS_ACCESS_KEY_ID) && Given(env, AWS_SECRET_ACCESS_KEY)))
  {
  }

  predicate TellsFailure(env: Env) {
    IPPON_FAILED in env && var v := Text.Lower(env[IPPON_FAILED]); v == "1" || v == "true" || v == "yes"
  }

  /** What is posted, field by field. */
  lemma PostedByName(env: Env, w: World)
    requires Reported(env, w).Some?
    ensures var p := Reported(env, w).value;
            && IPPON_SCAN_ID in env && IPPON_ORG_ID in env && IPPON_REPO_ID in env
            && w.library.uuid(env[IPPON_SCAN_ID]) == Some(p.scanId) && p.finishedAt == w.now
            && p.commitSha == (if CommitSha(w.commitFile) == "unknown" then None else Some(CommitSha(w.commitFile)))
            && (if TellsFailure(env) then
                  p.status == "failed"
                  && p.errorMessage == (if IPPON_FAILED_REASON in env then Some(env[IPPON_FAILED_REASON]) else None)
                else if w.ingest.IngestRaised? then
                  p.status == "failed" && p.errorMessage == Some("reporter ingest error: " + w.ingest.exc)
                else
                  && p.status == "succeeded" && p.errorMessage == None
                  && p.sbomSha256 == Some(w.ingest.sbomSha256) && p.syftVersion == Some(w.ingest.syftVersion)
                  && p.grypeVersion == Some(w.ingest.grypeVersion) && p.grypeDbVersion == w.ingest.grypeDbVersion
                  && w.library.uuid(env[IPPON_ORG_ID]).Some? && w.library.uuid(env[IPPON_REPO_ID]).Some?
                  && p.objectKey == Some("sboms/" + w.library.uuid(env[IPPON_ORG_ID]).value + "/"
                                         + w.library.uuid(env[IPPON_REPO_ID]).value + "/" + CommitSha(w.commitFile) + ".cdx.json"))
            && (p.status == "failed" ==>
                  p.objectKey == p.sbomSha256 == p.syftVersion == p.grypeVersion == p.grypeDbVersion == None)
  {
  }

  /** The commit is what the file holds less the blanks around it, or "unknown". */
  lemma CommitShaExactly(before: string, sha: string, after: string)
    requires Text.AllSpace(before) && Text.AllSpace(after) && Text.Trimmed(sha)
    ensures CommitSha(Holds(before + sha + after)) == if sha == "" then "unknown" else sha
    ensures CommitSha(Missing) == "unknown"
  {
    Text.StripPadding(before, sha, after);
  }

  /** So there are reporters that post nothing: this one has its identity, is told of no failure, and
      lacks a bucket. */
  lemma NoBucketNoCallback(ingest: Ingest, now: int)
    ensures var env := map[IPPON_SCAN_ID := "1", IPPON_ORG_ID := "2", IPPON_REPO_ID := "3",
                           IPPON_CALLBACK_URL := "http://api/", IPPON_CALLBACK_SECRET := "s"];
            var library := Library(x => Some(x), _ => true, _ => true);
            && Prepared(env, World(Missing, ingest, now, library))
            && Reported(env, World(Missing, ingest, now, library)).None?
  {
  }

  /** `_main`: what it posted and its exit code. */
  method Report(env: Env, w: World, answer: Post) returns (posted: Option<ScanJob.Payload>, exit: int)
    ensures posted == Reported(env, w)
    ensures exit == 0 <==> posted.Some? && posted.value.status == "succeeded" && answer.Answered? && answer.status < 400
    ensures exit == 2 <==> posted.Some? && !FlagSet(env, IPPON_FAILED) && answer.Answered? && answer.status >= 400
    ensures exit in {0, 1, 2}
  {
    if IPPON_LOG_LEVEL in env && !w.library.logLevel(env[IPPON_LOG_LEVEL]) {
      return None, 1;
    }
    if !Identified(env, w.library) {
      return None, 1;
    }
    var scanId := Uuid(env, IPPON_SCAN_ID, w.library);
    var orgId, repoId := Uuid(env, IPPON_ORG_ID, w.library), Uuid(env, IPPON_REPO_ID, w.library);
    if Supplied(env, IPPON_SCAN_STARTED_AT) && !w.library.isoTime(env[IPPON_SCAN_STARTED_AT]) {
      return None, 1;
    }
    var sha := "unknown";
    match w.commitFile {
      case Missing =>
      case Unreadable => return None, 1;
      case Holds(text) =>
        sha := Text.Strip(text);
        if sha == "" {
          sha := "unknown";
        }
    }
    if FlagSet(env, IPPON_FAILED) {
      posted := Some(ScanJob.Payload(scanId, "failed", w.now, KnownSha(sha),
                                     None, None, None, None, None, Get(env, IPPON_FAILED_REASON)));
      return posted, 1;
    }
    if !Configured(env) {
      return None, 1;
    }
    var key := ObjectKey(orgId, repoId, sha);
    var callbackStatus, errorMessage, ingested := "succeeded", None, None;
    match w.ingest {
      case Ingested(_, _, _, _) => ingested := Some(w.ingest);
      case IngestRaised(exc) =>
        callbackStatus := "failed";
        errorMessage := Some(IngestError(exc));
    }
    posted := Some(ScanJob.Payload(
      scanId, callbackStatus, w.now, KnownSha(sha),
      if callbackStatus == "succeeded" then Some(key) else None,
      if ingested.Some? then Some(ingested.value.sbomSha256) else None,
      if ingested.Some? then Some(ingested.value.syftVersion) else None,
      if ingested.Some? then Some(ingested.value.grypeVersion) else None,
      if ingested.Some? then ingested.value.grypeDbVersion else None,
      errorMessage));
    if answer.TransportError? {
      return posted, 1;
    }
    if answer.status >= 400 {
      return posted, 2;
    }
    return posted, if callbackStatus == "succeeded" then 0 else 1;
  }
}
