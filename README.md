# dockrune deployment engine — a Dafny model

dockrune receives GitHub webhooks, works out which environment a push or pull request
deploys to, and queues a deployment record. A pool of workers takes records off the queue.
Each worker fetches and checks out the commit and detects the project type. It then builds
the project, stops the previous instance of that environment, and starts the new one under
pm2 or docker-compose. The record ends as `success` with a public URL, or as `failed` with
the error text. A browser dashboard keeps its own copy of the deployment list and updates it
from websocket pushes.

This project models that core in Dafny and proves properties of the model:

- `detector.dfy` (module `Detector`). The seven detection strategies are functions over a
  record of file-system markers. `DetectProject` is the manager's loop, which keeps the
  strictly highest confidence. Confidence is in integer hundredths.
- `deployer.dfy` (module `Deployer`):
  - the pure helpers: command and path validation, process-name sanitising, port
    allocation, the URL, the deployment ID and the clone-URL rewrite;
  - the per-deployment state machine as the specification function `Processing`, taken for
    any detection outcome, and `Pipeline`, which feeds it the detector's selection;
  - the class `Deployer`, which holds a bounded `seq` queue (capacity 100) and the `active`
    map. Its methods update the shared `Models.Deployment` record in place.
- `webhook.dfy` (module `Webhook`):
  - the branch-to-environment rule;
  - the signature decision, with HMAC-SHA256 as a function parameter;
  - the pull-request filter and the order in which the endpoint checks a delivery;
  - how push and pull-request handlers build the record and queue it.
- `config.dfy` (module `Config`): the defaults, the required webhook secret, and `getDir`.
- `dashboard.dfy` (module `Dashboard`): the browser store.
  - The list is a `seq` field of the class `Store`.
  - The methods are the upsert from the websocket, the integer counters, and the
    by-environment grouping.
  - `recentDeployments` sorts the store's own list in place and returns the first ten.
  - The active filter is a function.
- `paths.dfy` (module `Paths`): Go's `filepath.Clean` and `filepath.Join` on a Unix
  system. The deployer builds a repository's workspace and a deployment's log file with them.
- `models.dfy`, `text.dfy`, `wrappers.dfy`. These hold the deployment record, the
  Go `strings`/`strconv` operations the core relies on, and Option/Result.

Subprocess results, file-system answers, clock readings and calls to storage, GitHub and
the alerting channels are not performed. Each external step's outcome is an input: the
`World` record and the `store` exit. Each outbound call is a `Notice` value in a returned
sequence.

Two behaviours of the code are modelled as written and proved:

- The process name used to stop the previous instance is the raw `owner-repo-env`, while
  the one used to start is sanitised. `StopNameMatchesStartName` proves that the two agree
  when every component is already clean. `StopNameMisses` proves that they differ whenever a
  component holds a character outside `[A-Za-z0-9_-]`.
- When the queue is full or storage fails, `QueueDeployment` has already written the ID,
  the status `queued` and the log path into the record, and a rejected enqueue leaves them
  there.

## Model

| member | source | states |
|---|---|---|
| Models.Deployment.constructor | internal/models/deployment.go:16-34 | a record built by a handler has its coordinates set and every other field at Go's zero value (status empty, no start or completion time) |
| Config.Load | internal/config/config.go:39-99 | loading fails exactly when the webhook secret is empty, with "GITHUB_WEBHOOK_SECRET is required"; otherwise the settings are the sources over the defaults and the directories created are the repos dir, the logs dir and the database's parent |
| Config.DefaultsApply | internal/config/config.go:43-50 | with only a secret set: webhook port 8000, admin port 8001, 5 workers, domain localhost, database ./data/dockrune.db, repos ./repos, logs ./logs |
| Config.GetDir | internal/config/config.go:101-108 | with no '/' the result is "."; otherwise it is the proper prefix before the last '/', and the dropped suffix holds no '/' |
| Detector.DetectDocker | internal/detector/detector.go:86-118 | matches iff docker-compose.yml or Dockerfile exists; compose gives confidence 100 and port 0, a Dockerfile alone gives 90 and port 3000 |
| Detector.DetectNuxt | internal/detector/detector.go:125-183 | matches iff nuxt is a dependency or dev dependency; confidence 100 with the built server present, else 95; port 3000 |
| Detector.DetectGo | internal/detector/detector.go:190-224 | matches iff go.mod exists; confidence 100, port 8080, start ./app |
| Detector.DetectRust | internal/detector/detector.go:231-247 | matches iff Cargo.toml exists; confidence 100, port 8080 |
| Detector.DetectNode | internal/detector/detector.go:254-313 | matches iff package.json parses as an object; confidence 80, port 3000; the build command ends in "npm install" and is prefixed by "npm run build && " iff a build script exists or the framework is next; the start command is "npm run start" for next and "npm start" otherwise |
| Detector.DetectPython | internal/detector/detector.go:320-368 | matches iff requirements.txt or pyproject.toml exists; confidence 80; the build command is "pip install -r requirements.txt"; manage.py gives django on 8000 started by "python manage.py runserver 0.0.0.0:${PORT}"; otherwise a flask app.py gives flask on 5000 started by "python app.py", a fastapi app.py gives fastapi on 8000 started by uvicorn, and no app.py or a generic one gives port 8000 and "python app.py"; any port other than 8000 is the flask case |
| Detector.DetectStatic | internal/detector/detector.go:375-419 | matches iff index.html, _config.yml or config.toml exists; index.html first (70, port 8080), then jekyll (80, 4000), then hugo (80, 1313) |
| Detector.DetectProject | internal/detector/detector.go:55-79 | the loop over the seven strategies returns the selected detection, never failing |
| Detector.BestOfIsMaximal | internal/detector/detector.go:64-67 | the kept detection's confidence is at least every verdict's |
| Detector.BestOfIsFirstMaximum | internal/detector/detector.go:64-67 | the kept detection is a verdict with positive confidence, and every earlier verdict has strictly lower confidence (strict comparison: ties go to the earlier strategy) |
| Detector.BestOfNone | internal/detector/detector.go:64-67 | nothing is kept iff no verdict has positive confidence |
| Detector.SelectedIsMaximal | internal/detector/detector.go:55-79 | the selected confidence is at least that of every strategy's verdict |
| Detector.SelectedIsEarliestMaximum | internal/detector/detector.go:43-51 | a selection other than unknown is the verdict of the earliest strategy in the order Docker, Nuxt, Go, Rust, Node, Python, Static reaching the maximum |
| Detector.SelectedUnknown | internal/detector/detector.go:70-76 | the result is unknown with confidence 0 iff no strategy matches |
| Detector.EmptyTreeMatchesNothing | internal/detector/detector_test.go:16-37 | an empty directory matches no strategy |
| Detector.ComposeBeatsExpress | internal/detector/detector_test.go:144-151 | any tree with docker-compose.yml, whatever else it holds (an express package.json included), is detected as docker with confidence 1.00 |
| Detector.NuxtDependencyGivesNuxt | internal/detector/detector_test.go:152-158 | any tree with nuxt among the dependencies or dev dependencies and no compose file, go.mod or Cargo.toml is detected as nuxt |
| Detector.IndexHtmlGivesStatic | internal/detector/detector_test.go:159-165 | any tree with index.html and no package.json nor marker of docker, go, rust or python is detected as static, with the static strategy's verdict |
| Detector.VerdictBounds | internal/detector/detector.go:86-419 | a strategy's verdict has confidence between 0.70 and 1.00 |
| Detector.PackageNeverStatic | internal/detector/detector.go:254-313 | whenever package.json parses, the result is never static |
| Detector.ContainsScan | internal/detector/detector.go:421-428 | the index loop answers true iff the pattern occurs in the text |
| Deployer.FirstDangerous | internal/deployer/deployer.go:444-448 | the first pattern found occurs in the command; none is found iff no pattern occurs |
| Deployer.SinglePattern | internal/deployer/deployer.go:439-442 | every forbidden character is itself one of the patterns |
| Deployer.NoPatternIffNoForbiddenChar | internal/deployer/deployer.go:439-448 | no pattern occurs iff the command holds none of ; \| & ` $ > < ) } \\ |
| Deployer.NoPatternIffNoLeadChar | internal/deployer/deployer.go:439-448 | for any pattern list whose patterns start with a forbidden character and which holds each forbidden character alone, no pattern occurs iff no forbidden character does |
| Deployer.ShortCommandFits | internal/deployer/deployer.go:452-454 | a command of at most 250 characters never exceeds the 1000-byte limit |
| Deployer.CheckCommandAccepts | internal/deployer/deployer.go:433-456 | a command passes iff it is non-empty, holds no forbidden character and is at most 1000 bytes |
| Deployer.ValidateCommand | internal/deployer/deployer.go:433-456 | the loop over the pattern list accepts exactly the safe commands, with the source's error texts |
| Deployer.ValidatorExamples | internal/deployer/deployer.go:433-456 | "echo hi; rm -rf /" is refused and "npm run build" accepted |
| Deployer.DetectorCommandsRefused | internal/deployer/deployer.go:276-302 | for every tree: the start command of a Dockerfile-only detection, the Nuxt build without the built server, the Node build with a build script or next, the Django start and the empty start of an unmatched tree all fail validation |
| Deployer.ValidatePath | internal/deployer/deployer.go:474-483 | a path passes iff it holds no ".." anywhere and, when absolute, starts with the repos dir |
| Deployer.DoubleDotContains | internal/deployer/deployer.go:476 | ".." occurs iff two adjacent dots occur |
| Deployer.RepoPathAccepted | internal/deployer/deployer.go:474-483 | the cleaned join of a repos dir, owner and repo, all free of "..", passes path validation, provided an absolute repos dir is already clean |
| Deployer.DefaultWorkspace | internal/deployer/deployer.go:141 | under the default "./repos", the workspace of plain owner and repo names is "repos/<owner>/<repo>" |
| Deployer.DoubleSlashRootRefused | internal/deployer/deployer.go:479-481 | an absolute repos dir holding "//" refuses every workspace, because the cleaned join never starts with it |
| Deployer.DefaultLogPath | internal/deployer/deployer.go:66 | under the default "./logs", the log file of an ID without '/' is "logs/<id>.log" |
| Paths.Clean | internal/deployer/deployer.go:141 | the cleaned path is never empty and is absolute exactly when the input is |
| Paths.JoinElems | internal/deployer/deployer.go:141 | the join is empty exactly when every element is empty |
| Paths.CleanNoDoubleSlash | internal/deployer/deployer.go:141 | a cleaned path never holds two separators in a row |
| Paths.CleanNoDoubleDot | internal/deployer/deployer.go:141 | cleaning a path free of ".." introduces none |
| Paths.JoinElemsNoDoubleDot | internal/deployer/deployer.go:141 | joining elements free of ".." gives a path free of ".." |
| Paths.CleanRootPrefix | internal/deployer/deployer.go:141 | a clean absolute root, joined with a suffix free of "..", still starts with the root after cleaning |
| Paths.DotRelative | internal/deployer/deployer.go:141 | cleaning "./" followed by plain elements joined with '/' drops the leading "./" and nothing else |
| Deployer.ReplaceUnsafeShape | internal/deployer/deployer.go:462-463 | replacement keeps the length, keeps allowed characters and leaves only [A-Za-z0-9_-] |
| Deployer.TrimLeftDashesShape | internal/deployer/deployer.go:468 | trimming leaves a suffix that does not start with '-' |
| Deployer.TrimRightDashesShape | internal/deployer/deployer.go:468 | trimming leaves a prefix that does not end with '-' |
| Deployer.SanitizeIsClean | internal/deployer/deployer.go:458-472 | a sanitised component uses only [A-Za-z0-9_-], is at most 50 characters and has no leading or trailing '-' |
| Deployer.SanitizeFixpoints | internal/deployer/deployer.go:458-472 | sanitising leaves a component unchanged iff it is already clean |
| Deployer.SanitizeIdempotent | internal/deployer/deployer.go:458-472 | sanitising twice equals sanitising once |
| Deployer.ProcessNameChars | internal/deployer/deployer.go:471 | the start name uses only [A-Za-z0-9_-] |
| Deployer.StopNameMatchesStartName | internal/deployer/deployer.go:309-354 | with clean components, the name stopped equals the name started |
| Deployer.StopNameMisses | internal/deployer/deployer.go:309-354 | with a component holding another character, the name stopped differs from the name started |
| Deployer.StopNameUnclean | internal/deployer/deployer.go:353-354 | such a stop name itself holds a character outside [A-Za-z0-9_-] |
| Deployer.PortFor | internal/deployer/deployer.go:399-408 | the allocated port lies in 3000..3999 |
| Deployer.AllocatePort | internal/deployer/deployer.go:399-408 | the loop summing code points gives 3000 plus the sum mod 1000 |
| Deployer.URLShape | internal/deployer/deployer.go:410-416 | the URL is https:// then the repo for production or the environment otherwise, then "." and the domain |
| Deployer.IdsDifferOverTime | internal/deployer/deployer.go:64 | the same commit queued at two different seconds gets two different IDs |
| Deployer.TokenAfterScheme | internal/deployer/deployer.go:255-259 | with a token the clone URL is https://token@ followed by the URL past its scheme; without one it is unchanged |
| Deployer.Fetching | internal/deployer/deployer.go:140-151 | fetching is two processes: fetch or clone, then checkout |
| Deployer.BuildStageSucceeds | internal/deployer/deployer.go:276-296 | the build step fails iff there is a command and it, the directory or the build itself is refused |
| Deployer.StartStageSucceeds | internal/deployer/deployer.go:298-351 | the start step succeeds iff the command and directory pass and pm2/compose succeeds, or, outside docker, the direct execution of a command with a word succeeds |
| Deployer.AfterCheckoutSucceedsIff | internal/deployer/deployer.go:152-197 | the steps after checkout succeed iff build and start validation and execution all succeed |
| Deployer.SucceedsIff | internal/deployer/deployer.go:102-197 | for any detection outcome, a deployment succeeds iff the log file, the sync, the checkout and every later step succeed |
| Deployer.ProcessingStages | internal/deployer/deployer.go:102-197 | the first two processes are fetch or clone and checkout; later processes and the report are those of the steps after checkout once log file, sync and checkout succeed; otherwise an error with no type or port after at most two processes |
| Deployer.SuccessReport | internal/deployer/deployer.go:158-197 | on success the result is the URL, and the type and port are the detection's |
| Deployer.BuildStageShape | internal/deployer/deployer.go:276-296 | the build step starts at most one process, a build with PORT=3000 in its environment |
| Deployer.BuildOnFixedPort | internal/deployer/deployer.go:285-296 | after checkout, every build process runs the detected build command with PORT=3000, while pm2 and direct execution get the resolved port |
| Deployer.StartStageShape | internal/deployer/deployer.go:298-351 | the start step starts at most two processes; the first is pm2 or compose; a second one is the direct execution after pm2 failed |
| Deployer.AfterCheckoutActions | internal/deployer/deployer.go:173-190 | the processes are the build, then, if it succeeded, the stop of the previous instance and the start |
| Deployer.AfterCheckoutFallback | internal/deployer/deployer.go:323-349 | a direct execution is the last process and immediately follows a pm2 start that failed |
| Deployer.FallbackOnlyAfterPm2Fails | internal/deployer/deployer.go:323-349 | over the whole deployment, for any detection outcome: a direct execution is the last process and immediately follows a pm2 start, and pm2 failed |
| Deployer.FallbackRuns | internal/deployer/deployer.go:323-349 | for a non-docker project with valid commands, a failed pm2 start is followed by direct execution of the command's fields with the resolved port |
| Deployer.AfterCheckoutDisplaces | internal/deployer/deployer.go:182-190 | every start is immediately preceded by the stop of the previous instance |
| Deployer.DisplaceBeforeStart | internal/deployer/deployer.go:182-190 | over the whole deployment, for any detection outcome: every pm2 or compose start is immediately preceded by the stop of the previous instance under the raw owner-repo-env name |
| Deployer.UnsafeCommandsNeverDeploy | internal/deployer/deployer.go:276-302 | a detection with an unsafe build or start command never ends in success |
| Deployer.UnknownFailsAtStart | internal/deployer/deployer.go:185-189 | when no strategy matches and the checkout succeeded, the deployment fails at start with "failed to start application: start command validation failed: empty command not allowed" |
| Deployer.EmptyStartFails | internal/deployer/deployer.go:298-302 | any detection with no build and no start command fails at start with that same message |
| Deployer.SyncFailureStopsEarly | internal/deployer/deployer.go:140-144 | a failed fetch or clone ends the deployment with its error after one process, before detection |
| Deployer.IndexHtmlSelected | internal/detector/detector.go:375-386 | a tree holding index.html and none of package.json, the compose file, Dockerfile, go.mod, Cargo.toml, requirements.txt or pyproject.toml is detected as static, with no build, the python server and port 8080 |
| Deployer.StaticServerSafe | internal/detector/detector.go:383 | the static server command passes validation |
| Deployer.IndexHtmlDeploys | internal/deployer/deployer.go:102-197 | such a site, under a clean repos dir and with every external step succeeding, deploys as static on port 8080 to https://<repo or environment>.<domain> |
| Deployer.ProcessingSuccess | internal/deployer/deployer.go:158-197 | when the log file, sync and checkout succeed and every later step does, the result is the URL and the type and port are the detection's |
| Deployer.StaticServerSucceeds | internal/deployer/deployer.go:276-351 | a static detection with no build and the python server, an accepted workspace and a successful launch passes every step |
| Text.AsciiLen | internal/deployer/deployer.go:64 | on ASCII text the byte length equals the character count |
| Deployer.Deployer.constructor | internal/deployer/deployer.go:36-47 | a new deployer has an empty queue and no active deployment |
| Deployer.Deployer.QueueDeployment | internal/deployer/deployer.go:63-81 | the ID, status queued and log path are set first; a storage error or a full queue is refused with the source's text and leaves the queue alone; otherwise the record is appended |
| Deployer.Deployer.Work | internal/deployer/deployer.go:83-100 | a worker's turn takes the oldest queued deployment and processes it, with the start and end notices; the records queued behind it are not written; an empty queue changes nothing |
| Deployer.Deployer.ProcessDeployment | internal/deployer/deployer.go:102-236 | the record ends in success or failure as the pipeline says, with start and completion times set; the collaborator calls are made in order; the ID leaves the active set |
| Deployer.Deployer.Execute | internal/deployer/deployer.go:115-236 | the claimed record is marked in progress, then the pipeline's outcome is recorded |
| Deployer.Deployer.Finish | internal/deployer/deployer.go:158-236 | the outcome is written into the record with the matching calls |
| Deployer.Deployer.Run | internal/deployer/deployer.go:132-190 | the steps produce the pipeline's report |
| Deployer.Deployer.Deploy | internal/deployer/deployer.go:152-197 | the steps after checkout produce the specification's report |
| Deployer.Deployer.RunBuild | internal/deployer/deployer.go:276-296 | the build step as specified |
| Deployer.Deployer.StartApplication | internal/deployer/deployer.go:298-351 | the start step as specified |
| Deployer.Deployer.HandleDeploymentError | internal/deployer/deployer.go:364-397 | the record becomes failed with the error and a completion time, and the failure calls are made |
| Webhook.EnvironmentFromRef | internal/webhook/server.go:199-215 | the environment is never empty |
| Webhook.EnvironmentRules | internal/webhook/server.go:199-206 | production iff the ref ends in /main or /master (checked first); staging iff not that and it contains /staging; development iff neither and it contains /develop |
| Webhook.PreviewEnvironment | internal/webhook/server.go:207-213 | otherwise "preview" iff the ref has fewer than two slashes; else "preview-" plus the text after the last slash, which holds no slash |
| Webhook.BranchPreview | internal/webhook/server.go:199-215 | refs/heads/<b>, for a slash-free b not caught by the earlier rules, deploys to preview-<b> |
| Webhook.SignatureAccepts | internal/webhook/server.go:89-104 | a delivery verifies iff the secret is set and the signature is the hex digest, bare or behind "sha256=" |
| Webhook.SignatureForms | internal/webhook/server.go:89-104 | both header forms verify; an empty header or an empty secret never does |
| Webhook.DispatchOrder | internal/webhook/server.go:54-87 | an unsigned delivery gets 401 whatever its event; a missing event 400; ping and unknown events 200 |
| Webhook.PullRequestEnvironmentsDistinct | internal/webhook/server.go:169 | different pull requests get different preview-pr-N environments, none of them production, staging or development |
| Webhook.NewRecord | internal/webhook/server.go:114-134 | the record copies the coordinates and takes the GitHub deployment ID only when its creation succeeded |
| Webhook.Enqueue | internal/webhook/server.go:136-146 | 200 iff the record was queued; 500 otherwise, including a commit ID shorter than seven code points, which leaves the record untouched; with a long enough ID, the ID, status queued and log path are written whatever the outcome |
| Webhook.HandleGitHubWebhook | internal/webhook/server.go:54-197 | the status codes of every route; push records copy ref, SHA and the ref's environment; pull-request records need opened or synchronize and get preview-pr-N and the PR number; a signed push that decodes, and a decoded opened or synchronize pull request, always build a record and try to queue it; a record with a long enough commit ID gets its ID, status queued and log path; 200 iff queued |
| Dashboard.WhereConcat | dashboard/stores/deployments.ts:49-51 | filtering distributes over concatenation, so kept entries stay in list order |
| Dashboard.WhereMembers | dashboard/stores/deployments.ts:49-51 | an entry survives a filter iff it is in the list and accepted |
| Dashboard.WherePermutation | dashboard/stores/deployments.ts:216-217 | how many entries a filter keeps depends only on the multiset of the list |
| Dashboard.ActiveExactly | dashboard/stores/deployments.ts:48-52 | the active list holds exactly the queued and in-progress entries, in list order |
| Dashboard.StatsBound | dashboard/stores/deployments.ts:215-217 | successful plus failed never exceeds the total |
| Dashboard.StatsPermutation | dashboard/stores/deployments.ts:215-217 | reordering the list leaves the counters unchanged |
| Dashboard.GroupMembership | dashboard/stores/deployments.ts:60-69 | every deployment is in its environment's group and in no other |
| Dashboard.GroupsPartition | dashboard/stores/deployments.ts:60-69 | over the environments, the group sizes sum to the list length |
| Dashboard.GroupedStep | dashboard/stores/deployments.ts:62-67 | one more deployment is appended to its environment's group, which is created if needed |
| Dashboard.FindIndexFirst | dashboard/stores/deployments.ts:195 | findIndex answers the first entry with the identifier, or -1 when there is none |
| Dashboard.UpsertEffect | dashboard/stores/deployments.ts:194-200 | a known identifier: length kept, its first entry replaced, all others untouched; an unknown one: the deployment is appended |
| Dashboard.UpsertUnique | dashboard/stores/deployments.ts:194-200 | identifiers that were unique stay unique, and repeating the same push changes nothing |
| Dashboard.Store.constructor | dashboard/stores/deployments.ts:32-45 | the store starts empty, with nothing selected and zero counters |
| Dashboard.Store.CalculateStats | dashboard/stores/deployments.ts:210-217 | total is the length, successful and failed are the counts of those statuses, and their sum is at most the total |
| Dashboard.Store.UpdateDeploymentFromWS | dashboard/stores/deployments.ts:194-208 | the list is upserted; the selection is replaced only when its ID matches; the counters describe the new list |
| Dashboard.Store.RecentDeployments | dashboard/stores/deployments.ts:54-58 | the store's list is reordered (same multiset) newest first, the counters stay accurate, and the result is its first min(10, n) entries |
| Dashboard.Store.DeploymentsByEnvironment | dashboard/stores/deployments.ts:60-69 | the pass builds exactly one group per environment, holding its deployments in list order |
| Dashboard.CountStatus | dashboard/stores/deployments.ts:216-217 | the count of one status equals the length of the filter |
| Dashboard.SortNewestFirst | dashboard/stores/deployments.ts:56 | the sort is a permutation, ordered by non-increasing start time |
| Dashboard.InsertNewestFirst | dashboard/stores/deployments.ts:56 | one insertion extends the sorted prefix by one and permutes the list |

## Left out

- Subprocesses are not executed: git, `sh -c`, pm2 and docker-compose. Their outcomes are the `World` inputs. The model records which processes would start and with which arguments. Of the environment variables passed to them, the model keeps PORT (3000 for every build, the resolved port for pm2 and direct execution) and the compose project name. `NODE_ENV=production`, set for the build and the pm2 start, is left out.
- The goroutines, WaitGroup, mutex and context cancellation of the worker pool are not modelled. Workers are sequential calls to `Work`, and `active` is a plain field.
- `time.Now` readings are parameters, in whole seconds on the server and whole milliseconds in the dashboard.
- Real file-system reads and JSON parsing in the detectors are replaced by a marker record. The `metadata` values are modelled only where a contract names them.
- HMAC-SHA256 and hex encoding are a function parameter. The constant-time comparison is plain equality.
- Floating-point values are left out: confidences are integer hundredths. The dashboard's `successRate`, `averageDuration` and `deploymentTimeline` are left out. The timeline also depends on the current date.
- HTTP serving, gin routing and response bodies are left out. The request body read is an `Option`. JSON decoding of events is a `Decoded` input. Only status codes are modelled.
- SQLite storage is left out. `CreateDeployment` is the `store` exit of `QueueDeployment`, and `UpdateDeployment` calls are `Stored` notices.
- The GitHub API and the alerting channels are reduced to `Notice` values. The GitHub deployment's creation is a `GitHubLink` input.
- The dashboard's `$fetch` actions, the websocket flag, the auth store and middleware, the static dashboard script, the admin server and the CLI are outside the model.
- Paths.Clean: only Unix separators are modelled. Windows volume names and `\` separators are not.
- Deployer.Deployer.ProcessDeployment: the source writes the project type and port into the record right after detection. The model writes them together with the outcome. The final record is the same.
- Webhook.Enqueue: a commit ID shorter than seven bytes panics in `QueueDeployment`. The recovery middleware turns this into a 500, which is modelled without the panic. The model's limit is seven code points (see the next lines).
- Strings are sequences of code points. Go slices strings by bytes, so the ID prefix `SHA[:7]` and the clone-URL rewrite `CloneURL[8:]` count bytes in Go but code points in the model, and so do their panic limits. The two agree on ASCII text (`Text.AsciiLen`), which GitHub's commit SHAs and clone URLs are.
- Deployer.Deployer.QueueDeployment: a commit ID of at least seven bytes but fewer than seven code points (for example "éééa") is accepted by Go, with an ID built from its first seven bytes. The model refuses it (`|dep.sha| >= 7`), because a byte prefix can end inside a character and has no code-point counterpart.
- Webhook.HandleGitHubWebhook: for the same reason, a push or pull request whose commit ID is non-ASCII and has at least seven bytes but fewer than seven code points is answered 500 in the model and 200 in Go.
- Dashboard.Store.RecentDeployments: the engine's sort is stable, so entries with equal start times keep their relative order. The model proves only the ordering and the permutation, not the tie order.
- Deployer.Deployer.Work, Deployer.Deployer.ProcessDeployment: with a GitHub token set and no existing clone, a clone URL shorter than 8 characters makes the token rewrite (`CloneURL[8:]`) panic in the worker goroutine, which ends the daemon. The model requires (`Runnable`) that this case does not arise and does not model the crash.
- The `loadProjectConfig` port override is not modelled. The source always returns nil, so the detection's port or the allocated one is used.
