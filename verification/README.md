# Ippon: verified models of its stateful cores

Ippon scans Git repositories: an API keeps organisations, members, tokens and source connections, a
worker runs a chain of containers per scan, a reporter ingests the results and calls back, and
ClickHouse holds the findings. This project models the parts of it whose behaviour over whole runs is
decided by its own code, and proves what they promise. `dafny verify dfyconfig.toml` checks all of it.

## What is modelled

- **Roles and tokens** (`authority`, `authority_db`, `requests`, `owners`, `coalition`, `token_log`,
  `token_format`). A request is one transaction over the tables of users, orgs, members and tokens.
  `Authority` gives each transaction as a function of the tables (`Serve`), `AuthorityDb.Database` is
  the same thing done row by row in place with roll-back, proved equal, and `Requests` says of each request,
  in terms of the caller's role and the rows alone, exactly when it is accepted and what it then changes.
  On `Serve` stand three more results
  over arbitrary runs: every org keeps an owner; no coalition of log-ins and tokens ever rises above
  the highest role it pooled; and a bearer text authenticates exactly when the log of mints, revocations
  and deletions says so. SHA-256, HMAC and Fernet are ideal (equal outputs mean equal inputs); random
  values and database keys are inputs, and a clash with an existing one aborts the transaction.
- **The scan lifecycle** (`scan_job`, `scan_protocol`, `docker_runner`, `reporter`, `end_to_end`).
  `ScanJob.Job` is one row with the start, callback and backstop transactions; `ScanProtocol`
  interleaves them with an at-least-once queue and a network that repeats callbacks at will;
  `DockerRunner.Runner` is the container chain; `EndToEnd.RunScan` composes worker, chain, reporter,
  callback and backstop into one delivery.
- **Scan targets and source connections** (`sources`, `sources_db`, `source_meaning`, `resolution`,
  `tenancy`, `secrets`).
  Rows appear lazily, yet resolution is a pure function of the operators' connections; tenants never
  mix; the stored webhook secret is the one last handed out.
- **ClickHouse migrations** (`migrations`, `migration_files`, `sql_split`). `Migrations.Applier` issues
  commands one by one and may die after any of them; crashing any number of times and running once more
  gives what one clean run gives. The statement splitter recovers the statements from commented files,
  and the files are found in numeric order under a condition stated exactly.
- **Counting and text** (`ingest`, `mem_limit`, `numerals`). Findings are neither lost nor counted twice,
  no metrics row claims more than is stored for its scan whatever fails, and memory quantities mean what
  they say.

Handlers that write rows in place are methods of classes; each is proved equal to a function of the old
state, and the lemmas are about that function. Sessions are serialised: each commits on success and
restores every row on an error (`src/ippon/db.py:78-101`). Timestamps are integers.

## Where the code and its documentation disagree

The model follows the code.

- `src/ippon/reporter/__main__.py:4-5` says the reporter always attempts the callback. A missing setting
  ends the process by `SystemExit`, which the handler around ingest does not catch, and a malformed
  identity, start time or log level or an unreadable commit file by an exception before that handler.
  `ReporterMain.PostsExactlyWhen` gives the exact condition, `ReporterMain.NoBucketNoCallback` a reporter
  that posts nothing.
- `src/ippon/scanner/runner/docker.py:12-13` says the API always gets a callback. A set-up call that
  raises, or a step that raises rather than exits non-zero, starts no reporter (`DockerRunner.NoReporter`),
  and the backstop closes the row. One starts if and only if set-up succeeds and no stage raises that has
  only clean stages before it (`DockerRunner.ReporterRunsWhen`).
- A failed scan can hold an object key: a redelivered task puts a finished scan back to running, and if
  that run raises, the row ends failed with the key of the run that succeeded
  (`ScanProtocol.RedeliveryReopens`). Over any interleaving a failed row never holds a key if and only if
  no start transaction without a repository meets a row that holds one and no backstop an open one, and a
  row has a key exactly while it is succeeded if and only if no committing task delivery finds a key on it
  (`EndToEnd.KeysExactlyWhen`).
- `verified`, `unverified`, `invalid`, `unknown` and `error` are the validation statuses the schema names
  (`migrations/clickhouse/0002_secret_findings.sql:29`); `unknown` is never stored
  (`Ingest.StatusTellsVerified`).
- `migrations/clickhouse/apply.py:3` promises numeric order; the code goes by file name, so version 10
  comes before version 9 (`MigrationFiles.TenBeforeNine`). Versions come out ascending if and only if for
  every two migrations the order of names is the order of versions
  (`MigrationFiles.NumericOrderExactlyWhen`); prefixes of one width are enough
  (`MigrationFiles.EqualWidthsSuffice`).
- With a version shared by two files a crash can lose the second file for good
  (`Migrations.SharedVersionLosesATable`); for migrations a clean run can apply, crash safety holds if and
  only if the versions are distinct (`Migrations.CrashSafeExactlyWhenDistinct`).
- `split_statements` drops block comments before line comments, so a block comment left open inside a line
  comment swallows statements (`SqlSplit.OpenCommentSwallows`). A line comment is harmless before every
  text if and only if it leaves no block open (`SqlSplit.HarmlessExactlyWhenClosed`); before one given
  text also if nothing later closes it, or if the text is one of the few that hide the loss
  (`SqlSplit.InertExactlyWhen`, `SqlSplit.OverlapCanHide`).
- An operator's connection named `default-<provider>` can take the place of the anonymous fallback
  (`Resolution.DefaultNameCaptures`, `Resolution.CaptureExample`). For each host resolution is as the
  operators' other connections say if and only if the rows of such names are harmless there
  (`Resolution.AsIntendedExactlyWhen`); it always is while no operator uses such a name, and idempotence
  needs no condition.

## Model

| member | source | states |
|---|---|---|
| `Coalition.NoEscalation` | src/ippon/api/routes/members.py:56-130 | Over any run of calls a coalition makes with its own log-ins, tokens, and tokens it mints on the way, its highest role in an org never exceeds the highest it started with; memberships above that bound are neither added, removed nor changed, and no live token above it comes about. Below admin the org, all its memberships and all its tokens, live or not, stay as they were but for when a token was last used. |
| `Coalition.RequestUntouched` | src/ippon/api/authz.py:72-112 | No single call of a coalition without an admin, with a log-in or a token, adds, removes, changes, mints or revokes anything in the org. |
| `Coalition.OtherOrgUntouched` | src/ippon/api/authz.py:72-95 | A handler writes nothing outside the org it was authorized in. |
| `Coalition.CallerWithinBound` | src/ippon/api/authz.py:72-112 | Whatever credential of the coalition the gates accept, the role it is authorized with is within the coalition's bound. |
| `Coalition.AddMemberKeeps` | src/ippon/api/routes/members.py:56-74 | Adding a member never creates a membership above the caller's role and moves no other membership or token. |
| `Coalition.AddMemberEffect` | src/ippon/api/routes/members.py:56-74 | The one new membership has the role asked for and was not there before; owner is only granted by an owner; orgs and tokens stay as they were. |
| `Coalition.UpdateMemberKeeps` | src/ippon/api/routes/members.py:92-115 | Changing a role touches no membership above the caller's, neither as old role nor as new. |
| `Coalition.RemoveMemberKeeps` | src/ippon/api/routes/members.py:124-130 | Removing a member never removes one above the caller's role. |
| `Coalition.MintKeeps` | src/ippon/api/routes/tokens.py:55-79 | A minted token's role is at most the minter's, and every other token stays as it was. |
| `Coalition.RevokeKeeps` | src/ippon/api/routes/tokens.py:100-107 | Revoking brings about no live token. |
| `Coalition.RequestBounded` | src/ippon/api/routes/tokens.py:55-79 | After any one call, even one that shows a fresh token, the coalition's roles are still within the bound. |
| `Coalition.ShownTokenIsNew` | src/ippon/security.py:115-120 | The text a mint shows opens no row that existed before. |
| `Owners.EveryOrgAlwaysOwned` | src/ippon/api/routes/members.py:103-130 | After any run of requests, dev seedings and bootstraps from empty tables, every org has an owner row, the count the guards read is at least one, and all references and unique constraints hold. |
| `Owners.LastOwnerGuardExact` | src/ippon/api/routes/members.py:103-129 | For an owner's call, both last-owner guards refuse with a conflict exactly when carrying on would leave the org without an owner. |
| `Owners.UpdateMemberInv` | src/ippon/api/routes/members.py:92-115 | Changing a role keeps every org owned, by way of a second owner when the last-owner guard let a demotion through. |
| `Owners.RemoveMemberInv` | src/ippon/api/routes/members.py:124-130 | Removing a member keeps every org owned. |
| `Owners.AddMemberInv` | src/ippon/api/routes/members.py:56-74 | Adding a member, creating the user row where needed, keeps references, unique e-mails and ownership. |
| `Owners.CreateOrgInv` | src/ippon/api/routes/orgs.py:41-49 | A new org has an owner from its first commit. |
| `Owners.DeleteOrgInv` | src/ippon/api/routes/orgs.py:79-82 | Deleting an org leaves no row that refers to it and every other org owned. |
| `Owners.SeedInv` | src/ippon/scripts/bootstrap.py:45-55 | Find-or-create of an org followed by find-or-create of its owner row ends with every org owned, whichever parts existed. |
| `Owners.ApplyInv` | src/ippon/api/_bootstrap.py:216-237 | Every transaction that writes these tables, dev seeding and bootstrap included, keeps constraints, references and ownership. |
| `Owners.OwnersOfCounts` | src/ippon/api/orgs_service.py:30-37 | The owner count is positive exactly when some owner row exists. |
| `TokenLog.AuthenticationRefinesLog` | src/ippon/api/authz.py:40-62 | After any run a bearer text authenticates as a principal exactly when some mint returned that very text for that creator, org and role, it has not expired, and neither a revocation nor its org's deletion came after. |
| `TokenLog.RevokedNeverAgain` | src/ippon/api/routes/tokens.py:100-107 | Once revoked, a token's text never authenticates again in any run, whatever is minted, unless its org was deleted and after that a mint returned the very same text. |
| `TokenLog.RevokedNeverWhileOrgStands` | src/ippon/api/routes/tokens.py:100-107 | In particular it never authenticates again while its org stands: the revoked row keeps its prefix taken. |
| `TokenLog.MintSteady` | src/ippon/api/routes/tokens.py:55-79 | A mint never returns a text whose earlier mint's org still stands, so one text is minted twice only with a deletion of its org in between. |
| `TokenLog.MintAgrees` | src/ippon/api/routes/tokens.py:55-79 | A successful mint adds to the unrevoked rows exactly the mint it adds to the log. |
| `TokenLog.UndoAgrees` | src/ippon/api/routes/tokens.py:100-107 | Revoking a row, or dropping an org's rows, removes exactly the log's standing mints for them. |
| `TokenLog.LogDecides` | src/ippon/api/authz.py:40-62 | In any state that agrees with a log, acceptance is decided by the log, in both directions. |
| `TokenFormat.ParsePrintedToken` | src/ippon/security.py:115-130 | Parsing a printed token gives prefix and secret back, whatever underscores the secret holds. |
| `TokenFormat.PrintParsedToken` | src/ippon/security.py:123-130 | Every accepted text re-prints to itself, so distinct accepted texts are distinct pairs. |
| `TokenFormat.MintedTokenParses` | src/ippon/security.py:115-120 | Every text that can be minted parses back to what was minted. |
| `AuthorityDb.OneRowPerPrefix` | src/ippon/api/authz.py:45-54 | With unique prefixes the one row found by prefix decides acceptance for all rows. |
| `AuthorityDb.Database.AuthenticateApiToken` | src/ippon/api/authz.py:40-62 | Returns the principal of the row the text opens, stamps exactly that row's last use, and changes nothing on a refusal. |
| `AuthorityDb.Database.RequireRole` | src/ippon/api/authz.py:72-112 | Grants the token's bound role, or the caller's membership role, in the org named by id or slug; 404 for strangers and 403 below the minimum. |
| `AuthorityDb.Database.CountOwners` | src/ippon/api/orgs_service.py:30-37 | The number of owner rows, positive exactly when the org has an owner. |
| `AuthorityDb.Database.CreateOrg` | src/ippon/api/routes/orgs.py:41-49 | In place, what the transaction function says: org and owner rows, or no change and a conflict. |
| `AuthorityDb.Database.DeleteOrg` | src/ippon/api/routes/orgs.py:79-82 | In place: all of the org's rows go, or none. |
| `AuthorityDb.Database.AddMember` | src/ippon/api/routes/members.py:56-74 | In place: the membership, and the user where new; every refusal restores every table, also after the user row was inserted. |
| `AuthorityDb.Database.UpdateMember` | src/ippon/api/routes/members.py:92-115 | In place: the role is changed exactly when both owner guards let it through. |
| `AuthorityDb.Database.RemoveMember` | src/ippon/api/routes/members.py:124-130 | In place: the row is deleted exactly when both owner guards let it through. |
| `AuthorityDb.Database.CreateToken` | src/ippon/api/routes/tokens.py:55-79 | In place: the row stores prefix and digest with the org and role of the mint, and the reply alone carries the text. |
| `AuthorityDb.Database.RevokeToken` | src/ippon/api/routes/tokens.py:100-107 | In place: the first revocation is stamped and later ones change nothing; other orgs' tokens are not found. |
| `AuthorityDb.Database.EnsureDevIdentity` | src/ippon/api/_bootstrap.py:216-237 | In place: dev user, default org and owner row are each created only when missing. |
| `AuthorityDb.Database.Bootstrap` | src/ippon/scripts/bootstrap.py:32-60 | In place: user, org and owner row are each found or created in one session. |
| `AuthorityDb.Database.Route` | src/ippon/api/authz.py:72-112 | Any request, accepted or refused, leaves the tables consistent and every org owned. |
| `Requests.RemoveMemberExactly` | src/ippon/api/routes/members.py:124-130 | Accepted exactly for one who administers the org, on a member who is there, an owner's row only for an owner and only while somebody else owns the org; then that membership is gone and no other row is changed but for a token's last use. |
| `Requests.UpdateMemberExactly` | src/ippon/api/routes/members.py:92-115 | Accepted exactly so for a role change, to or from owner only for an owner; then the stored role is the one asked for and nothing else is changed. |
| `Requests.AddMemberExactly` | src/ippon/api/routes/members.py:56-74 | Accepted exactly for an admin or owner, the owner role only from an owner, on a person of that address who is no member; then that person, the known one or a new user row, has the role asked for. |
| `Requests.NormalizedIs` | src/ippon/api/routes/members.py:57 | The stored address is the one given without the blanks around it, in lower case. |
| `Requests.CreateOrgExactly` | src/ippon/api/routes/orgs.py:41-49 | Accepted exactly for a known caller under a slug nobody has; then the org and the caller's owner row are all that is new. |
| `Requests.FounderAlone` | src/ippon/api/routes/orgs.py:44-48 | The founder is the new org's one member. |
| `Requests.DeleteOrgExactly` | src/ippon/api/routes/orgs.py:73-82 | Accepted exactly for an owner; then every row of the org is gone and no other. |
| `Requests.CreateTokenExactly` | src/ippon/api/routes/tokens.py:55-79 | Accepted exactly for an admin or owner asking for no more than its own role, with a fresh key and prefix; the reply is ippon_pat_, prefix, underscore, secret, which shows the new row with the org, role and expiry asked for and its creator. |
| `Requests.RevokeTokenExactly` | src/ippon/api/routes/tokens.py:100-107 | Accepted exactly for an admin or owner on a token of the org; then that row alone is stamped, if it was not before. |
| `Requests.ReadOrgExactly` | src/ippon/api/authz.py:72-95 | Accepted exactly for anyone with a role in the org, and nothing is changed. |
| `Requests.EnteredExactlyWhen` | src/ippon/api/authz.py:72-112 | The gates let a caller in exactly as the role it has in the org the path names by id or slug: the membership's, or that of an unrevoked, unexpired token bound to that org. |
| `Requests.AcceptedShows` | src/ippon/api/authz.py:40-62 | A text is accepted for a row exactly if it is ippon_pat_, the row's prefix, an underscore and its secret, and the row is neither revoked nor expired. |
| `Requests.LastUseStamped` | src/ippon/api/authz.py:55 | Accepting a token stamps its own row's last use and nothing else. |
| `Requests.NobodyIs401` | src/ippon/api/authz.py:40-54 | A caller is somebody, or turned away with 401. |
| `Requests.StrangerIs404` | src/ippon/api/authz.py:81-94 | One without a role in the org, or naming none that exists, gets 404. |
| `Requests.LowRoleIs403` | src/ippon/api/authz.py:104-109 | A viewer or member where an admin is asked for, or an admin where an owner is, gets 403. |
| `Requests.RefusedChangesNothing` | src/ippon/db.py:78-89 | A refused request leaves every table as it was. |
| `Requests.BootstrapSeeds` | src/ippon/scripts/bootstrap.py:32-60 | Bootstrapping changes no row that is there, and with fresh keys ends with the person of that address in the org of that slug, as owner where there was no membership. |
| `Requests.BootstrapTwice` | src/ippon/scripts/bootstrap.py:3-7 | Running it again with the same arguments changes nothing. |
| `Requests.SeedDevSeeds` | src/ippon/api/_bootstrap.py:216-237 | Seeding changes no row that is there and ends with user 0xDE in the org "default", unless its address or the org's fixed key is somebody else's. |
| `Requests.SeedDevTwice` | src/ippon/api/_bootstrap.py:216-237 | Seeding again changes nothing. |
| `ScanProtocol.FirstTerminalWins` | src/ippon/api/routes/internal.py:58-64 | Once the row is terminal, no sequence of callbacks, backstops and run endings changes any field or sends any task until the next task delivery. |
| `ScanProtocol.BackstopSettles` | src/ippon/worker/tasks/scan.py:102-116 | Whenever a run raises, the row is terminal after the backstop: what a callback recorded stays in full, otherwise it is failed with a runner error of at most 1024 characters. |
| `ScanProtocol.ForgeriesAreInert` | src/ippon/security.py:75-85 | A callback not signed with the scan's own secret is rejected and changes nothing. |
| `ScanProtocol.Accounts` | src/ippon/api/routes/internal.py:58-89 | In any run closings and reopenings balance against the row's state, and each completion task was sent once per passage into succeeded, plus once per undone callback that had already sent it. |
| `ScanProtocol.SuccessesBounded` | src/ippon/worker/tasks/scan.py:69-77 | Passages into succeeded number at most one more than the task deliveries that found the row terminal, under any redelivery of tasks and callbacks. |
| `ScanProtocol.SingleDeliveryNeverRevisits` | src/ippon/worker/tasks/scan.py:63-77 | With one task delivery the worker never finds the row terminal, since only a started run can have callbacks posted. |
| `ScanProtocol.ExactlyOnce` | src/ippon/api/routes/internal.py:78-89 | With one task delivery and no fault inside a callback, enrichment and notification were each sent exactly once if the scan succeeded and not at all otherwise, however often callbacks are repeated. |
| `ScanProtocol.RedeliveryReopens` | src/ippon/worker/tasks/scan.py:69-77 | The failing input of the next two rows: a redelivered task whose run raises turns any succeeded scan into a failed one that keeps its object key and its sent tasks. |
| `ScanProtocol.FailedMeansNoKeyExactlyWhen` | src/ippon/worker/tasks/scan.py:69-116 | Over every interleaving with arbitrary redelivery, a failed row holds no object key at any point if and only if no start transaction without a repository meets a present row with a key and no backstop meets an open one with a key. |
| `ScanProtocol.KeyIffSucceededExactlyWhen` | src/ippon/worker/tasks/scan.py:69-77 | Over every such run the row holds an object key exactly while succeeded, at every point, if and only if no committing task delivery finds a key on it: the check the start transaction does not make. |
| `ScanProtocol.SingleDeliveryNeverReruns` | src/ippon/worker/tasks/scan.py:63-77 | With one task delivery no delivery finds a key, so the condition is met. |
| `ScanProtocol.SuccessReachable` | src/ippon/api/routes/internal.py:66-91 | Every scan whose reporter posts a success can reach succeeded, with the posted object key. |
| `ScanJob.Job.constructor` | src/ippon/api/routes/scans.py:82-93 | A new scan is queued, with nothing recorded and nothing sent. |
| `ScanJob.Job.Screen` | src/ippon/api/routes/internal.py:33-64 | The refusals in the code's order: no signature, no row, wrong signature, malformed body, another scan's payload, already terminal. |
| `ScanJob.Job.Record` | src/ippon/api/routes/internal.py:66-76 | Every reported field is overwritten from the payload, and the duration is set only for a started scan. |
| `ScanJob.Job.ScanCallback` | src/ippon/api/routes/internal.py:32-91 | A screened callback changes nothing; an admitted one records the payload and, on success, sends both tasks; if sending or committing fails the row is restored while tasks already sent stay sent. |
| `ScanJob.Job.StartTransaction` | src/ippon/worker/tasks/scan.py:63-95 | The row becomes running whatever it was, failed when its repository is gone, and is restored when building the spec raises. |
| `ScanJob.Job.BackstopTransaction` | src/ippon/worker/tasks/scan.py:106-115 | Only an open row is changed, to failed with the clipped runner error. |
| `ScanJob.RefusalsExactly` | src/ippon/api/routes/internal.py:33-56 | Unsigned 401, no such scan 404, wrongly signed 401, malformed 500, another scan's payload 400; each leaves the row as it was. |
| `ScanJob.CallbackExactly` | src/ippon/api/routes/internal.py:58-91 | This scan's signed callback finds the row done and leaves it, or writes every field from the payload's own, the duration from start to report, and sends enrichment and then notification on success. |
| `ScanJob.FaultsExactly` | src/ippon/api/routes/internal.py:78-91 | A fault undoes the row; sent by then were nothing, enrichment, or both, according to where it struck; a failure sends nothing. |
| `ScanJob.StartExactly` | src/ippon/worker/tasks/scan.py:63-95 | The row is running from now on, or failed with "repository row missing", or untouched when the spec raises or the row is gone. |
| `ScanJob.RunnerErrorExactly` | src/ippon/worker/tasks/scan.py:114 | The text is "runner error: " and the exception, 1024 characters at most. |
| `ScanJob.BackstopExactly` | src/ippon/worker/tasks/scan.py:106-115 | A pending, queued or running row is failed with that text and no other field is touched. |
| `DockerRunner.StageRunsWhen` | src/ippon/scanner/runner/docker.py:115-222 | A stage is in the submission's trace exactly when every set-up call succeeds and every stage before it exits zero. |
| `DockerRunner.ReporterRunsWhen` | src/ippon/scanner/runner/docker.py:115-256 | The reporter is in the submission's trace exactly when every set-up call succeeds and no stage raises that has only clean stages before it: a condition on the daemon's answers alone. |
| `DockerRunner.NoReporter` | src/ippon/scanner/runner/docker.py:115-222 | Two inputs that start no reporter: an image that cannot be pulled although every step would exit zero, and a clone step that raises. |
| `DockerRunner.StepsRunOnce` | src/ippon/scanner/runner/docker.py:127-256 | No step runs twice and nothing follows the reporter. |
| `DockerRunner.FailureMarks` | src/ippon/scanner/runner/docker.py:225-237 | The failure flag is set exactly when a stage failed; the step named is the first that did, with its log cut to 1024 characters. |
| `DockerRunner.TraceInOrder` | src/ippon/scanner/runner/docker.py:115-259 | The whole submission by name: the images of clone, syft, grype, reporter and, if wanted, the secret scan; the workspace and artifacts volumes; clone, syft, grype, secret scan up to the first unclean one; the reporter; both deletions. |
| `DockerRunner.EachStageExactly` | src/ippon/scanner/runner/docker.py:127-256 | Clone runs exactly when set-up succeeds; syft also needs a clean clone; grype both clean; the secret scan all three and to be wanted; the reporter that the first unclean stage, if any, exited. |
| `DockerRunner.SetsUpExactly` | src/ippon/scanner/runner/docker.py:115-123 | Set-up succeeds exactly when the images, the secret scanner's only if wanted, and both volumes can be had. |
| `DockerRunner.DeletionsExactly` | src/ippon/scanner/runner/docker.py:257-259 | Both volumes are deleted exactly after a successful set-up, the second unless deleting the first raises something other than a daemon error. |
| `DockerRunner.MarksExactly` | src/ippon/scanner/runner/docker.py:234-237 | The marks are "1", the first unclean stage's name (clone, syft, grype or secret-scan) and its log cut to 1024 characters, and are there only if there is one. |
| `DockerRunner.Runner.Setup` | src/ippon/scanner/runner/docker.py:115-123 | The images, the secret scanner's only if enabled, then the two volumes, up to the first call that raises. |
| `DockerRunner.Runner.Chain` | src/ippon/scanner/runner/docker.py:125-222 | The stages run are the shortest prefix ending at the first that exits non-zero or raises; the first failure and its log are what is remembered. |
| `DockerRunner.Runner.RunSteps` | src/ippon/scanner/runner/docker.py:125-256 | The body of the try: the stages, then the reporter with the first failure's marks, unless a stage raised. |
| `DockerRunner.Runner.CleanUp` | src/ippon/scanner/runner/docker.py:257-259 | Both volumes are deleted, unless deleting the first raises something other than a daemon error. |
| `DockerRunner.Runner.Submit` | src/ippon/scanner/runner/docker.py:107-261 | The whole trace: set-up up to its first exception and then nothing, or set-up, the shortest prefix of stages, at most one reporter with its environment, and the deletions; a reporter exactly under the condition above, and an exception while cleaning up replaces the one in flight. |
| `ReporterMain.PostsExactlyWhen` | src/ippon/reporter/__main__.py:32-110 | It posts exactly when log level, identity (three UUIDs and two texts), start time and commit file are all well-formed and, unless told of a failure, all ingest settings are there; success is posted exactly when ingest returned, with an object key and no error. |
| `ReporterMain.NoBucketNoCallback` | src/ippon/reporter/__main__.py:84 | The input: a well-formed reporter, told of no failure, without S3_BUCKET posts nothing. |
| `ReporterMain.NeedsByName` | src/ippon/reporter/__main__.py:39-110 | Every value it needs to post, and every one it needs besides for ingest, by name. |
| `ReporterMain.PostedByName` | src/ippon/reporter/__main__.py:61-133 | What it posts, field by field: the failure reason it was given, or the ingest error, or ingest's own values and the key sboms/{org}/{repo}/{commit}.cdx.json. |
| `ReporterMain.CommitShaExactly` | src/ippon/reporter/__main__.py:57-59 | The commit is what the file holds less the blanks around it, or "unknown" for a blank or missing file. |
| `ReporterMain.Report` | src/ippon/reporter/__main__.py:32-143 | What is posted, with every early exit in its place; exit code 0 exactly when a success was posted and the answer was below 400, 2 exactly when ingest's outcome was posted and the answer was not, otherwise 1. |
| `EndToEnd.RunScan` | src/ippon/worker/tasks/scan.py:54-118 | From queued, with one delivery and the reporter's POST before any backstop: succeeded exactly when all enabled stages exited 0, ingest returned and the callback was heard and committed, then without error, with the canonical key, ingest's own digest and versions, the time from start to report, and both tasks; failed without a key and with the first failing stage's log, the ingest error, the runner error (a raising spec included) or "repository row missing"; running exactly when nothing raised and no callback was recorded. All in terms of the policy or else the setting, the daemon's answers and the stages by name; the secret scan is in the trace exactly when it is so wanted, set-up succeeds and clone, syft and grype are clean. |
| `EndToEnd.SubmitAndReport` | src/ippon/worker/tasks/scan.py:97-99 | The runner call with the reporter's callback inside it leaves the row settled and raises only what the chain, the set-up or the clean-up raised. |
| `EndToEnd.PolicyDecides` | src/ippon/scanner/pipeline.py:36-38 | A policy decides about secret scanning whatever the setting; without one the setting does. |
| `EndToEnd.CallbackUrl` | src/ippon/scanner/pipeline.py:21 | The callback URL is the base without its trailing slashes, /internal/scans/, the scan's id and /callback. |
| `EndToEnd.SettingsByName` | src/ippon/scanner/pipeline.py:23-29 | Each setting reaches the reporter under its own name. |
| `EndToEnd.IdentityByName` | src/ippon/scanner/runner/docker.py:225-233 | So do the scan's ids, callback URL, secret and start time. |
| `EndToEnd.EnvironmentFacts` | src/ippon/scanner/pipeline.py:14-64 | The reporter is started with the scan's identity, callback secret and settings, and with the failure flag exactly when a stage failed. |
| `EndToEnd.PostedFacts` | src/ippon/reporter/__main__.py:61-133 | A payload is posted unless the commit file is unreadable or ingest settings are missing when needed, and it is true: succeeded exactly when all stages were clean and ingest returned, with ingest's digest and versions and the object key of org, repository and commit, or "unknown"; a failure carries the first failing stage's log or the ingest error and no key. |
| `EndToEnd.CallbackSettles` | src/ippon/api/routes/internal.py:45-89 | The reporter's own callback is genuine, for this scan and admitted, so the row ends as it says unless its transaction is undone. |
| `EndToEnd.KeysExactlyWhen` | src/ippon/reporter/__main__.py:68-133 | With callbacks that reporters post, in any order and number among redelivered tasks and backstops, both conditions above are exact. |
| `EndToEnd.ReportersAreHonest` | src/ippon/reporter/__main__.py:68-133 | Whatever a reporter posts gives an object key exactly with a success. |
| `Resolution.ResolutionIsPure` | src/ippon/api/_bootstrap.py:155-190 | While only fallbacks are named default-, resolution without an explicit id is the operators' unique match, Ambiguous for several, else the host's provider's fallback: a function of the operators' connections and the host alone. |
| `Resolution.AsIntendedExactlyWhen` | src/ippon/api/_bootstrap.py:155-190 | Whatever operators call their connections, for every host resolution answers as intended if and only if no default- row alone has a malformed address and, where no other connection serves the host, the one row serving it, or else the row of the provider's default name, is that provider's own fallback. |
| `Resolution.SelectBySets` | src/ippon/api/_bootstrap.py:173-186 | Selection depends on the matching rows as sets, so the order of the query's rows is immaterial. |
| `Resolution.SelectionIsIntended` | src/ippon/api/_bootstrap.py:173-186 | Every selected row is the operators' intended one, or the one fallback of the host's own provider. |
| `Resolution.OneFallbackPerHost` | src/ippon/api/_bootstrap.py:89-118 | Two fallback rows of an org serving one host are the same row, of that host's provider. |
| `Resolution.CloudHostRecognised` | src/ippon/api/_bootstrap.py:41-82 | Each provider's cloud host is recognised as that provider's. |
| `Resolution.DefaultNameCaptures` | src/ippon/api/_bootstrap.py:96-108 | A credentialed connection an operator calls default-<provider> is what every otherwise unserved host of that provider resolves to, against what the operators' other connections say. |
| `Resolution.CaptureReachable` | src/ippon/api/routes/sources.py:72-119 | Creating an org and such a source is enough to get there. |
| `Resolution.CaptureExample` | src/ippon/api/_bootstrap.py:155-190 | The input: a source named default-github with a token, and the host sr.ht. |
| `Resolution.ResolvingAddsFallback` | src/ippon/api/_bootstrap.py:193-213 | The only connection row resolving can add is an anonymous fallback of the org asked for. |
| `Resolution.ResolvingKeepsOperators` | src/ippon/api/_bootstrap.py:193-213 | Resolving never changes which connections are the operators', in any org. |
| `Resolution.ResolvingTwice` | src/ippon/api/_bootstrap.py:155-213 | A second identical call, with rows in any order, returns the same connection and repository and writes nothing, whatever the connections are called. |
| `SourceMeaning.OnlyOfferResolves` | src/ippon/api/_bootstrap.py:89-93 | In terms of addresses: a connection with a base URL serves its host, trimmed and in lower case, one without its provider's cloud; the one connection not named default- that serves a clone URL's host is the one resolved to. |
| `SourceMeaning.TwoOffersRefused` | src/ippon/api/_bootstrap.py:178-184 | Two of them are refused as ambiguous. |
| `SourceMeaning.OnlyReservedResolves` | src/ippon/api/_bootstrap.py:185-186 | One row alone serving the host is used though its name is reserved. |
| `SourceMeaning.NoOfferMakesFallback` | src/ippon/api/_bootstrap.py:96-121 | Where nothing serves the host and the name is free, the row made is default-github, default-gitlab or default-azure_devops, with no credential, address or secret. |
| `SourceMeaning.FallbackReused` | src/ippon/api/_bootstrap.py:100-108 | Once there, the org's row of that name is used. |
| `SourceMeaning.ProviderExactly` | src/ippon/api/_bootstrap.py:76-82 | Whose host it is by the names it contains, in any letter case. |
| `SourceMeaning.BadAddressRefused` | src/ippon/api/_bootstrap.py:89-93 | A malformed clone URL, or a malformed address of any connection of the org, is an error. |
| `SourceMeaning.ExplicitExactly` | src/ippon/api/_bootstrap.py:161-171 | An explicit connection is the one used if it is the org's, otherwise not found. |
| `SourceMeaning.FullNameExactly` | src/ippon/api/_bootstrap.py:124-130 | A path's name is what stands between its slashes, less one .git, so different names stay different. |
| `SourceMeaning.NoNameUsesUrl` | src/ippon/api/_bootstrap.py:130 | A path with no name leaves the URL itself. |
| `SourceMeaning.RepositoryExactly` | src/ippon/api/_bootstrap.py:133-152 | The org's repository of that name, or a new one under the connection with the clone URL as given. |
| `SourceMeaning.TargetExactly` | src/ippon/api/_bootstrap.py:208-213 | The target is the connection resolved and the repository under it. |
| `Tenancy.TenantsStayApart` | src/ippon/api/_bootstrap.py:133-213 | After any serial run every repository's connection and every scan's repository are in its own org, both repository constraints hold, and no further step in an existing org can violate a constraint. |
| `Tenancy.RemotesUnique` | src/ippon/models/repository.py:15-20 | With remote ids equal to full names, uniqueness of (org, full name) implies uniqueness of (connection, remote id). |
| `Tenancy.ResolvingIsSafe` | src/ippon/api/_bootstrap.py:193-213 | In a reachable state no insert of a resolution hits a unique or foreign-key constraint, and the target is in the org asked for. |
| `Tenancy.DeleteSourceKeepsInv` | src/ippon/api/routes/sources.py:153-165 | Deleting a connection strands no repository. |
| `Tenancy.ScanKeepsInv` | src/ippon/api/routes/scans.py:57-93 | A created scan belongs to the org asked for and to its repository's org. |
| `SourceMeaning.ScanExactly` | src/ippon/api/routes/scans.py:57-93 | A new scan is of the repository resolved, in the org asked for, at the ref asked for. |
| `Tenancy.RunKeepsInv` | src/ippon/api/routes/sources.py:72-187 | Every run of creating and deleting orgs, sources and scans and of rotating secrets keeps tenants apart. |
| `Tenancy.ResolutionStaysPure` | src/ippon/api/_bootstrap.py:155-190 | After any run in which no operator takes a default- name, and after any number of scans resolved since, hosts still resolve to what the operators' connections said before those scans. |
| `SourcesDb.Database.GetOrCreateDefaultSource` | src/ippon/api/_bootstrap.py:96-121 | The org's row of that name, or a new anonymous one; refused calls write nothing. |
| `SourcesDb.Database.ResolveSourceRow` | src/ippon/api/_bootstrap.py:155-190 | Explicit id first, then the host's match, then the fallback, as the resolution function says. |
| `SourcesDb.Database.GetOrCreateRepository` | src/ippon/api/_bootstrap.py:133-152 | The org's row of that full name, or a new one under the connection. |
| `SourcesDb.Database.ResolveScanTarget` | src/ippon/api/_bootstrap.py:193-213 | The target as the resolution function says, never a constraint violation, and nothing written when it raises. |
| `SourcesDb.Database.CreateScan` | src/ippon/api/routes/scans.py:57-93 | One transaction: the scan row in its repository's org, or every table restored. |
| `SourcesDb.Database.CreateSource` | src/ippon/api/routes/sources.py:72-119 | The secret shown is the one webhook verification loads for the new connection from then on. |
| `SourcesDb.Database.RotateWebhookSecret` | src/ippon/api/routes/sources.py:174-187 | The secret shown is the one webhook verification loads from then on. |
| `SourcesDb.Database.DeleteSource` | src/ippon/api/routes/sources.py:153-165 | Refused with a conflict exactly when some repository uses the connection. |
| `Secrets.LoadsLastHandedOut` | src/ippon/api/routes/webhooks/_common.py:25-63 | After any run, loading a connection's secret returns exactly the one last handed out for it, refuses when none was, and never fails to decrypt; key version, blobs and credential type of every row are consistent. |
| `Secrets.StepAgrees` | src/ippon/api/routes/sources.py:92-182 | Creating and rotating store what they show; deleting forgets; resolving stores no secret. |
| `Secrets.OtherKeyOpensNothing` | src/ippon/security.py:156-183 | Under another master key no stored secret can be loaded. |
| `Secrets.DecryptExactly` | src/ippon/security.py:156-183 | A blob opens to what was encrypted under the same master key and key version v1, and under no other of either. |
| `SourceMeaning.CreateSourceExactly` | src/ippon/api/routes/sources.py:72-119 | Made exactly from a proper request under a free name; the row has what was asked for, its credential blob opens to the credential given and its webhook blob to the secret shown. |
| `SourceMeaning.RotateExactly` | src/ippon/api/routes/sources.py:174-187 | Only the webhook secret of the org's connection is replaced. |
| `SourceMeaning.DeleteSourceExactly` | src/ippon/api/routes/sources.py:153-165 | The connection goes exactly if it is the org's and no repository uses it. |
| `SourceMeaning.CredentialStays` | src/ippon/api/routes/sources.py:92-182 | Over any run in which a connection stays, its credential blob is the one stored when it was made. |
| `Migrations.CrashesDoNotShow` | migrations/clickhouse/apply.py:72-101 | Any number of runs that die between any two commands, then one left alone, end in the schema and recorded versions of a single clean run, and the last finishes exactly when that one does. |
| `Migrations.CleanRunDoesAll` | migrations/clickhouse/apply.py:81-101 | One clean run that finishes has recorded every version in order and done all its migrations ask for. |
| `Migrations.CrashSafeExactlyWhenDistinct` | migrations/clickhouse/apply.py:81-96 | For migrations a clean run can apply, that holds for all crashes if and only if no version is used twice. |
| `Migrations.SharedVersionLosesATable` | migrations/clickhouse/apply.py:88-96 | Two files with one version: a crash right after the first is recorded, and the second file's table never comes to exist. |
| `Migrations.RecordedMeansDone` | migrations/clickhouse/apply.py:72-78 | After any crashes the recorded versions are a prefix of the list, and everything recorded migrations ask for is there. |
| `Migrations.CrashReaches` | migrations/clickhouse/apply.py:81-101 | One run cut short anywhere, from any place a run of runs can be, leads to another such place. |
| `Migrations.ReplayContinues` | migrations/clickhouse/0002_secret_findings.sql:12-40 | With IF NOT EXISTS statements, repeating what already ran and going on is the same as having gone on. |
| `Migrations.ExecuteExactly` | migrations/clickhouse/0002_secret_findings.sql:12-40 | Both statement forms make what is missing as written, leave alone what is there, and adding to a missing table raises. |
| `Migrations.PrintedFileMeans` | migrations/clickhouse/apply.py:72-78 | A file of statements with line comments before, between and after them means just those statements. |
| `Migrations.Applier.Send` | migrations/clickhouse/apply.py:61-77 | One command has its effect, or none when the process is dead or the server raises. |
| `Migrations.Applier.ApplyOne` | migrations/clickhouse/apply.py:72-78 | The file's statements in order and then its version, up to where the process dies or a command raises. |
| `Migrations.Applier.Run` | migrations/clickhouse/apply.py:81-101 | One run: the version table, then every file not listed in it, in order, up to where the process dies or a command raises. |
| `MigrationFiles.NumericOrderExactlyWhen` | migrations/clickhouse/apply.py:61-69 | Whatever order the directory is listed in, the migrations found are in numeric order if and only if for every two of them the order of the names is the order of the versions. |
| `MigrationFiles.EqualWidthsSuffice` | migrations/clickhouse/apply.py:27-69 | Version prefixes of one width are found in numeric order. |
| `MigrationFiles.TenBeforeNine` | migrations/clickhouse/apply.py:61-69 | 10_a.sql and 9_b.sql are not. |
| `MigrationFiles.SortedInOrder` | migrations/clickhouse/apply.py:63 | Sorting puts every listing in the order of names. |
| `MigrationFiles.FirstDifferenceDecides` | migrations/clickhouse/apply.py:63 | Names compare by their first difference, and a name comes before what goes on from it. |
| `MigrationFiles.Discover` | migrations/clickhouse/apply.py:61-69 | The files whose names are digits, underscore, something and .sql, in name order, each with the version its digits spell. |
| `MigrationFiles.VersionExactly` | migrations/clickhouse/apply.py:27 | Digits, underscore, something on one line and .sql make the version those digits spell. |
| `MigrationFiles.VersionPrinted` | migrations/clickhouse/apply.py:65-68 | A printed version, with or without a zero in front, is read back. |
| `MigrationFiles.VersionOnlyOf` | migrations/clickhouse/apply.py:64-67 | Any other name is passed over. |
| `SqlSplit.SplittingRecoversStatements` | migrations/clickhouse/apply.py:30-41 | Whatever line and block comments a file carries, including blocks inside line comments and a last line without a newline, splitting gives exactly the code between its semicolons, trimmed, without empty pieces. |
| `SqlSplit.PrintThenSplit` | migrations/clickhouse/apply.py:30-41 | Printing trimmed statements joined by semicolon and newline, with or without a last semicolon and with line comments before, between and after, and splitting the text gives the statements back. |
| `SqlSplit.UnclosedStays` | migrations/clickhouse/apply.py:38 | Where nothing closes a block nothing is dropped. |
| `SqlSplit.OpenCommentSwallows` | migrations/clickhouse/apply.py:37-39 | In every text, a line comment that leaves a block open takes with it everything up to the next block end and the rest of that line. |
| `SqlSplit.HarmlessExactlyWhenClosed` | migrations/clickhouse/apply.py:37-39 | A line comment comes to nothing but its newline before every text if and only if it leaves no block open. |
| `SqlSplit.InertExactlyWhen` | migrations/clickhouse/apply.py:37-39 | Before one given text, whatever it is, if and only if it leaves no block open, or nothing later closes one, or the text alone is one that hides such a loss, which takes a first later end overlapping a block start. |
| `SqlSplit.OverlapCanHide` | migrations/clickhouse/apply.py:37-39 | There are such texts: with a later slash-star-slash an open block can leave the text the same. |
| `Ingest.FindingRows` | src/ippon/reporter/ingest.py:189-233 | One row per match, in order; each of the six severities, and nothing else, has a count, the number of rows with it; the count of critical, high, medium, low and negligible is the number of matches the scanner calls so, in any letter case. |
| `Ingest.SeverityExactly` | src/ippon/reporter/ingest.py:208 | The severity stored is the word the scanner's reads as in any letter case, if that is one of the six, and otherwise "unknown". |
| `Ingest.CountsAreTheScanners` | src/ippon/reporter/ingest.py:189-233 | A severity's tally over the rows is the number of matches the scanner calls so. |
| `Ingest.FindingColumns` | src/ippon/reporter/ingest.py:211-230 | Each column of a finding is its own field of the match. |
| `Ingest.NullFindingColumns` | src/ippon/reporter/ingest.py:204-230 | Where the match has nothing the row has nothing, or "unknown". |
| `Ingest.OrExactly` | src/ippon/reporter/ingest.py:203-230 | Null, the empty text and what Python takes for false give way to the fallback; all else is printed. |
| `Ingest.CountsAddUp` | src/ippon/reporter/ingest.py:179-233 | The counts of the six severities add up to the number of rows. |
| `Ingest.CanonicalIsKnown` | src/ippon/reporter/ingest.py:179-199 | Whatever the scanner calls a severity, what is stored is one of the six. |
| `Ingest.StatusTellsVerified` | src/ippon/reporter/ingest.py:236-256 | A secret is verified exactly under the status "verified", and "unknown" is never stored. |
| `Ingest.SecretFindingRows` | src/ippon/reporter/ingest.py:268-306 | One row per entry, in order, with every column; the verified count is the number of verified rows and of rows with status "verified". |
| `Ingest.ValidationExactly` | src/ippon/reporter/ingest.py:236-256 | valid, active and verified verify; invalid and inactive disprove; error fails; no check and any other word leave it unverified; blanks and letter case do not matter. |
| `Ingest.SecretColumns` | src/ippon/reporter/ingest.py:285-305 | Each column of a secret is its own field of the entry; it is historical unless found in the head commit. |
| `Ingest.DateExactly` | src/ippon/reporter/ingest.py:259-265 | A date is read with its Z as +00:00; none is read from nothing. |
| `Ingest.DependencyRows` | src/ippon/reporter/ingest.py:167-187 | One row per component, in order, with ecosystem, scope and licences. |
| `Ingest.DependencyColumns` | src/ippon/reporter/ingest.py:169-185 | Each column of a dependency is its own field of the component, the scope "required" where none is given. |
| `Ingest.LicenseExactly` | src/ippon/reporter/ingest.py:132-145 | A licence is known by its id, or else its name, or else its expression. |
| `Ingest.EcosystemOfWritten` | src/ippon/reporter/ingest.py:159-164 | The ecosystem of a package URL is the type it was written with. |
| `Ingest.Collect` | src/ippon/reporter/ingest.py:377-440 | Rows and metrics of one scan agree: everything is counted once, the four severity columns, the negligible and the unknown add up to all findings, every row carries its scan's ids, and a missing, blank or non-array secrets report counts as none. |
| `Ingest.MetricsComeLast` | src/ippon/reporter/ingest.py:331-461 | Whichever upload, connection, insert or closing raises, and whether or not what raised had stored its rows: the metrics row is stored exactly when every step before it is fine and its own insert lands, and then so is every row it counts; otherwise each table has all of the scan's rows or none; ingest returns exactly when every step and the closing are fine. |
| `Ingest.MetricsNeverOvercount` | src/ippon/reporter/ingest.py:331-461 | After any ingests of any scans, repeated and failing wherever they like, no metrics row claims more findings, secrets or dependencies than are stored for its scan. |
| `Ingest.Store.Ingest` | src/ippon/reporter/ingest.py:331-461 | The upload, the client, the inserts in order, empty ones left out, up to the first that raises, and in any case the closing, whose exception replaces the one in flight. |
| `MemLimit.WrittenQuantityParses` | src/ippon/scanner/runner/docker.py:396-423 | Every number below 2^53 with any suffix, in any letter case and with blanks anywhere around number and suffix, parses to exactly number times multiplier. |
| `MemLimit.MultipliersExactly` | src/ippon/scanner/runner/docker.py:396-423 | The multipliers in figures: 1, 1024, 1048576, 1073741824 and 1099511627776. |
| `MemLimit.WrittenCountParses` | src/ippon/scanner/runner/docker.py:415-423 | A plain byte count parses to itself. |
| `MemLimit.BlankIsZero` | src/ippon/scanner/runner/docker.py:415-417 | Nothing but blanks is no limit. |
| `MemLimit.TimesExactly` | src/ippon/scanner/runner/docker.py:422 | A product too large for a float is an error; any other is made an integer. |
| `MemLimit.TooLargeExactly` | src/ippon/scanner/runner/docker.py:422 | Too large is two to the 1024th. |
| `MemLimit.TruncateExactly` | src/ippon/scanner/runner/docker.py:422 | An integer is made towards zero. |
| `MemLimit.SuffixedText` | src/ippon/scanner/runner/docker.py:415-423 | Any text followed by a suffix is that text read as a number times the suffix, an error where the product is too large for a float, so trying two characters before one never misreads; a suffix alone is an error. |
| `MemLimit.IecAndDockerSuffixesAgree` | src/ippon/scanner/runner/docker.py:396-406 | Ki and k, Mi and m, Gi and g, Ti and t are interchangeable after any text, errors included. |
| `MemLimit.ParseMemLimit` | src/ippon/scanner/runner/docker.py:409-423 | The loop over suffix lengths computes the quantity function the lemmas are about. |

## Left out

- Overlapping transactions: count-then-write and check-then-insert pairs are proved for serialised sessions only.
- Sending `run_scan` before the scan's transaction commits (`src/ippon/api/routes/scans.py:92-100`): the protocol starts from a committed queued row; a delivery that finds no row is modelled.
- Liveness of scans that stay running (a lost callback, a reporter that posts nothing): `EndToEnd.RunScan` says exactly when that happens; no reaper exists in the code.
- The Kubernetes and inline backends, log reading, container limits and commands, `status` and `cleanup` of the Docker runner.
- The reporter's place in time: it is modelled as running after `Submit` has returned its environment, which is immaterial since it shares no state with the chain but the answer to its step.
- The order of foreign-key actions when an org is deleted: `blocked` stands for the database refusing, otherwise all of the org's rows go.
- Pydantic validation beyond what branches on it, UUID and slug syntax, pagination, column length limits (a long path can overflow `remote_id`), `last_used_at` under a refused request beyond its roll-back, display names.
- HMAC text forms (`sha256=` prefix, letter case) and timing: a signature is an ideal value, section 2 of RFC 2104 is not unfolded; key derivation and Fernet's token layout likewise.
- Lower-casing outside ASCII in e-mails, hosts and quantities.
- Agreement of a repository's stored clone URL with a later URL of the same path on another host: the lookup key is the path only.
- `urlparse` itself: a URL carries the host and path it parses to, or that it does not parse.
- Statement forms other than CREATE TABLE and ADD COLUMN with IF NOT EXISTS, column types and engines; digits outside ASCII in file names.
- `load_connection_secret` returns the row as well; webhook delivery records, payload parsing and the provider-specific webhook routes.
- MemLimit.WrittenQuantityParses: other float notations, and numbers from 2^53 on where a float rounds, are read by a parameter; Python's limit of 4300 digits on `int` is not modelled.
- An insert that raises with part of its rows stored: it stores all of them or none.
- JSON of another shape than the scanners' (a list where an object belongs, a line number `int` refuses): ingest raises, which is an input of the reporter model; the SBOM row's own columns, and Syft's and Grype's versions in it.
- Python's readers of UUIDs, ISO times, log levels and floats: parameters of the models that call them.
- Enrichment and notification tasks themselves, the web UI, Alembic revisions, health, admin, me and auth routes.
