# automatic-lamp: the build-and-report pipeline, modelled in Dafny

The repository runs a small pipeline for student web apps. A build request
is checked against a shared secret, the files of a one-page app are
generated, a public repository is created, each file is pushed, GitHub
Pages is turned on, and the repository metadata is reported to a callback
address with doubling waits between attempts. A revision route regenerates
the page and pushes it to an existing repository. A submission store
records reported repositories under a composite key. A scoring script then
checks each stored repository: the licence mentions MIT, the README is
not trivial, and the Pages site answers.

The model is a set of Dafny modules, one per source file, plus shared
modules for the Python built-ins the code relies on:

- `Outcomes`: `Option`, `Result`, HTTP replies, request bodies and list comprehensions over required fields.
- `Strings`: `strip`, `lower`, `replace`, `split`, `join`, `find`, `rfind`, `in`, slices and `str(n)`.
- `Dicts`: insertion-ordered dictionaries of strings.
- `PyFormat`: `str.format`.
- `Secrets`: the comma-separated secret list.
- `BuildRoute` and `BuildProperties`: `api/build.py`, of which `index.py` is a copy.
- `EvaluationStore`: `api/evaluation.py`.
- `Evaluator`: `evaluate.py`.
- `HostApi`: `api/utils/github_tools.py`.
- `AppPublisher`: `app/utils/github_tools.py`.
- `ReviseRoute`: `api/revise.py`.
- `LlmGenerator`: `api/utils/generator.py`.
- `DemoGenerator`: `app/utils/generator.py`.
- `Pipeline`: facts that relate the routes, the store and the scoring script.

Each collaborator is a parameter. These are the repository host, the
generation service, the callback receiver, the Pages site and the clock.
A reply is either a status with its body text, or the exception the
client raised. A call that iterates gets its answers from a function of
the path or of the attempt number.

Each route is written twice:

- as a reference function (`BuildSpec`, `ReviseSpec`, `PagesSpec`, `RunSpec`, …) that returns the response together with the trace of every collaborator call, in order;
- as a method shaped like the source (its loops, its early returns), proved equal to that function.

The properties are then lemmas about the reference functions:

- check precedence;
- which calls each outcome makes, and in what order;
- what is pushed;
- the retry schedule;
- what is stored, and what is scored.

Notes on the code as written:

- The callback is tried at most six times, although the module's docstring (api/build.py:13) says "up to ~5 tries". The code sleeps after every failed attempt, the sixth included, so an exhausted notification waits 1, 2, 4, 8, 16 and 32 seconds, 63 in all. See `BuildRoute.NotifyContract`.
- The repository name is never truncated (`BuildRoute.SafeRepoName`: its length is the task's plus 16).
- A failed create answers 500 with "GitHub operation failed: GitHub repo creation failed: " followed by the host's body text (api/build.py:175 and 268).
- The revision route does not fall back when generation fails. It answers 500.
- The prompts of `generate_app_code` and `update_app_code` (api/utils/generator.py:43-47 and 88-92) are f-strings that hold a literal JSON block with single braces. Python reads `{ "index.html": … }` as a replacement field with an invalid format spec, so building either prompt raises ValueError before the service is asked. As written, every accepted revision therefore answers 500 after its one generation call. The model reaches that case through the `Err` branch of `ReviseWorld.service`; its `Ok` branch describes what the route would do with a prompt that builds.
- The build route asks Pages to turn on, but only a raised request fails that step. Any status is accepted (`BuildRoute.EnablePagesResult`).

## Model

| member | source | states |
|---|---|---|
| Outcomes.Get | evaluate.py:72 | `d.get(k)` is present exactly when the key is, with its value |
| Outcomes.MissingFields | api/build.py:241 | the missing names are exactly the required names absent from the body; the list is empty iff every required name is present |
| Outcomes.MissingFieldsSkip | api/evaluation.py:50 | required names that are present never appear in the missing list |
| Strings.Strip | api/build.py:69 | the stripped text neither starts nor ends with whitespace; it is empty iff the text is all whitespace; it only keeps characters of the input |
| Strings.StripTrims | api/build.py:69 | the stripped text is a slice of the input with only whitespace before it and only whitespace after it |
| Strings.StripPadded | evaluate.py:50 | text padded with whitespace on both sides, and not itself starting or ending with whitespace, strips back to exactly that text |
| Strings.StripStripped | evaluate.py:50 | stripping text without outer whitespace leaves it unchanged |
| Strings.Lower | api/build.py:76 | `lower()` maps each letter to lower case, position by position |
| Strings.ReplaceChar | api/build.py:76 | `replace` of one character changes exactly the positions holding it; none is left |
| Strings.IndexOf | api/utils/generator.py:60 | `find` gives -1 iff the character is absent, otherwise its first position |
| Strings.LastIndexOf | api/utils/generator.py:61 | `rfind` gives -1 iff the character is absent, otherwise its last position |
| Strings.Split | api/build.py:257 | `split` gives at least one separator-free part, and joining the parts gives back the text |
| Strings.SplitJoin | api/build.py:69 | splitting a join of separator-free parts gives back the parts |
| Strings.SplitHead | api/build.py:257 | the first part of a split is a prefix of the text |
| Strings.ContainsAt | evaluate.py:40 | `p in s` holds iff `p` occurs at some position of `s` |
| Strings.RemoveAllAbsent | evaluate.py:76 | `replace(p, "")` leaves text without an occurrence of `p` unchanged |
| Strings.PySlice | api/utils/generator.py:62 | a Python slice is never longer than the text |
| Strings.NatToString | evaluate.py:62 | `str(n)` is non-empty decimal digits with no leading zero |
| Strings.NatToStringValue | evaluate.py:62 | reading `str(n)` back as a decimal gives `n` |
| Strings.PyListReprOne | api/build.py:243 | the repr of a one-name list, as it appears in the "Missing fields" message |
| Strings.PyListReprTwo | api/evaluation.py:52 | the repr of a two-name list |
| Dicts.Lookup | api/build.py:149 | `d.get(k)` is present exactly when `k` is a key |
| Dicts.SetItem | api/build.py:258 | `d[k] = v` keeps the key order (a new key goes last), makes `k` map to `v` and changes no other key |
| Dicts.SetDefault | api/build.py:259 | `setdefault` adds `k` at the end only when it is absent, and changes no other key |
| Dicts.SetThenDefault | api/build.py:258-259 | assigning one new key and defaulting another appends both, in that order, with their values |
| PyFormat.FormatEscape | app/utils/generator.py:12-14 | text whose braces are doubled formats back to itself |
| PyFormat.FormatField | app/utils/generator.py:10 | `{name}` formats to the keyword argument `name` |
| PyFormat.FormatRender | app/utils/generator.py:55 | a template rendered from pieces formats to the pieces with every field filled in |
| PyFormat.FormatTwoFields | app/utils/github_tools.py:18 | a template with two fields between literals formats to its fill |
| PyFormat.LoneCloseBrace | app/utils/generator.py:55 | any text written with its braces doubled, then a `}` not followed by another, makes `format` raise, whatever the arguments |
| Secrets.Stripped | api/build.py:69 | each configured entry, trimmed |
| Secrets.Entries | api/build.py:69 | the accepted entries are exactly the non-blank trimmed entries |
| Secrets.AcceptedSecrets | api/evaluation.py:31 | every accepted entry is non-empty, free of commas and without outer whitespace |
| Secrets.ValidSecret | api/build.py:66-70 | no secret is accepted when none is configured; an accepted secret is non-empty, comma-free and has no outer whitespace |
| Secrets.SecretListAccepts | api/build.py:66-70 | for a list written as comma-joined entries, a secret is accepted iff it is non-empty and equals a trimmed entry |
| Secrets.SecretListExact | api/evaluation.py:28-32 | a list of clean entries accepts exactly its members |
| Secrets.PaddedSecretRejected | api/build.py:69-70 | the caller's secret is not trimmed: a padded copy is refused |
| Secrets.BlankListRejectsAll | api/build.py:67-69 | a configuration of blanks and commas accepts nothing |
| BuildRoute.TaskToken | api/build.py:76 | the task with spaces and slashes made hyphens and letters lowered, position by position; no space, slash or capital remains |
| BuildRoute.SafeRepoName | api/build.py:73-77 | the name is the task token, a hyphen, the 8 digest characters, a hyphen and the 6 uuid characters, 16 longer than the task |
| BuildRoute.NamesDifferBySuffix | api/build.py:75-77 | two fresh suffixes give two different names for one request |
| BuildRoute.SolveCaptchaName | index.py:73-77 | "Solve Captcha" becomes "solve-captcha-<digest>-<uid>" |
| BuildRoute.MakeMitLicenseFormats | api/build.py:50-81 | the licence template formats without error to the licence with the year and the owner, "Unknown" for an empty owner |
| BuildRoute.LlmGenerateFiles | api/build.py:117-158 | always index.html then README.md, both non-empty; the demo texts without a key, the fallback README on failure, and defaults for empty or absent answer fields |
| BuildRoute.LocalPart | api/build.py:257 | the licence owner is the prefix of the email before any `@` |
| BuildRoute.AddLicenseAndIgnore | api/build.py:256-259 | the two generated files gain LICENSE and .gitignore at the end, with the licence and the fixed ignore list, and nothing else changes |
| BuildRoute.PublishedFiles | api/build.py:253-259 | the pushed files are index.html, README.md, LICENSE, .gitignore; the licence names the email's local part |
| BuildRoute.CreateRepoResult | api/build.py:161-180 | creation succeeds iff the host answers 201; then the URL is the reply's and the branch defaults to "main"; otherwise the message carries the body text |
| BuildRoute.PushFileResult | api/build.py:183-196 | a push succeeds iff the host answers 200 or 201; otherwise the message names the path |
| BuildRoute.EnablePagesResult | api/build.py:199-209 | any status gives the Pages URL of the user and the name; only a raised request fails |
| BuildRoute.FirstDelivered | api/build.py:215-221 | the first attempt answered 200, with every earlier attempt failed, or the limit |
| BuildRoute.PostEvaluation | index.py:212-229 | the retry loop makes exactly the posts and waits of `NotifySpec` and reports delivery like it |
| BuildRoute.FailedRoundsShape | api/build.py:214-228 | `n` failed rounds post `n` times and wait 1, 2, 4, … 2^(n-1), 2^n - 1 in all |
| BuildRoute.NotifyContract | api/build.py:212-229 | at most six posts; delivered iff some attempt got a 200; one post more than the failures before it, doubling waits between; exhausted means six posts, waits 1, 2, 4, 8, 16, 32, 63 seconds |
| BuildRoute.DeliveredShape | api/build.py:215-221 | `k` failures and then success post `k + 1` times, with `k` doubling waits |
| BuildRoute.ExhaustedShape | api/build.py:215-229 | six failures post six times and wait 1, 2, 4, 8, 16 and 32 seconds, 63 in all |
| BuildRoute.ParseRejects | api/build.py:235-246 | an unparseable body gives 400 "Invalid JSON"; missing fields give 400 listing them, whatever the secret; then a refused secret gives 403 |
| BuildRoute.ParseAccepts | api/build.py:240-251 | an accepted request carries every required field of the body as sent |
| BuildRoute.PushSpecShape | api/build.py:263-264 | files are pushed in order with "Add <path>"; all before the last one succeeded; an error is the last push's; success means every file pushed |
| BuildRoute.PushAll | api/build.py:263-264 | the push loop makes the pushes of `PushSpec` and ends like it |
| BuildRoute.Publish | api/build.py:261-268 | create, pushes and Pages run like `PublishSpec`: same calls, same result |
| BuildRoute.PrepareFiles | api/build.py:254-259 | the files built in place equal `PublishedFiles` |
| BuildRoute.BuildEndpoint | api/build.py:234-286 | the route's response and every call it makes are those of `BuildSpec` |
| BuildProperties.PushCalls | api/build.py:263-264 | the push loop's calls are pushes of a prefix of the file list |
| BuildProperties.PublishCreateFailed | api/build.py:261-268 | a failed create ends the block after its one call, with the host's error |
| BuildProperties.PublishCalls | api/build.py:261-265 | the block's calls stop after the create, after the pushes, or after Pages |
| BuildProperties.PublishPushFailed | api/build.py:261-268 | a failed push ends the block with its error; the trace is the create and the pushes made so far, and Pages is never asked |
| BuildProperties.PublishOrder | api/build.py:261-265 | the block's calls run create, then pushes, then Pages |
| BuildProperties.PublishPushes | api/build.py:261-265 | the block opens with the create and pushes a prefix of the files |
| BuildProperties.PublishSucceeds | api/build.py:261-268 | the block succeeds iff the create, every push and the Pages request succeed |
| BuildProperties.PublishResult | api/build.py:261-278 | a successful block pushed every file, ended with Pages, and yields the repository metadata and the Pages URL |
| BuildProperties.GenCalls | api/build.py:119-144 | the generation request is made iff a key is set, and stands alone at the first stage |
| BuildProperties.AcceptedCalls | api/build.py:253-286 | an accepted request's calls are generation, then the block, then the callback when published |
| BuildProperties.AcceptedStatus | api/build.py:261-286 | an accepted request gets 200 iff the create, every push and Pages succeed, and 500 otherwise |
| BuildProperties.AcceptedOrder | api/build.py:253-286 | the calls run in stage order; at most six posts; no post or wait without a 200 |
| BuildProperties.AcceptedFirstCall | api/build.py:253-265 | the first call is generation when a key is set and the create otherwise; without a key nothing is generated |
| BuildProperties.AcceptedPushes | api/build.py:261-268 | pushes are a prefix of the files, all of them on a 200; a failed create gives 500 with its message and nothing past the create |
| BuildProperties.AcceptedReport | api/build.py:270-286 | a 200 reports the request's fields, the repository URL, the Pages URL and "latest"; "ok" iff a callback attempt got a 200, "partial" otherwise |
| BuildProperties.CallbackAlwaysFails | api/build.py:280-284 | a callback that always answers 500 gives "partial" with six posts and waits of 1 to 32 seconds |
| BuildProperties.BuildRejections | api/build.py:234-286 | nothing is called iff the request is rejected; 400 iff unparseable or missing fields; 403 iff complete with a refused secret; accepted requests get 200 or 500 |
| BuildProperties.ParseStatus | api/build.py:235-246 | rejections are 400 for an unparseable body or missing fields and 403 for a refused secret, and nothing else |
| BuildProperties.AcceptedAnswered | api/build.py:261-286 | an accepted request calls a collaborator and is answered 200 or 500 |
| BuildProperties.BuildPublished | api/build.py:261-268 | an accepted request gets 200 iff the create, the four pushes and Pages succeed |
| BuildProperties.BuildTrace | api/build.py:234-286 | every trace is in stage order with at most six posts, posts only on a 200, pushes a prefix of the four files, all four on a 200 |
| BuildProperties.BuildReport | api/build.py:270-286 | a 200 reports the body's email, task, round and nonce, the repository URL, the Pages URL of the derived name and "latest" |
| EvaluationStore.StoreKeyJoin | api/evaluation.py:57 | the key is the four fields joined with `\|` |
| EvaluationStore.StoreKeyCollides | api/evaluation.py:57 | a `\|` inside a field lets two different submissions share a key |
| EvaluationStore.StoreKeySplits | api/evaluation.py:57 | without `\|` in the fields, splitting the key gives the four fields back |
| EvaluationStore.CompleteIffNoneMissing | api/evaluation.py:40-52 | nothing is missing iff all eight fields are present |
| EvaluationStore.AdmitRejects | api/evaluation.py:36-55 | an unparseable body gives 500; missing fields give 400 listing them, whatever the secret; then a refused secret gives 403; no secret configured refuses everything |
| EvaluationStore.AdmitRecord | api/evaluation.py:57-67 | an admitted body is stored under email\|task\|round\|nonce with its seven fields and the time of receipt |
| EvaluationStore.AdmitComplete | api/evaluation.py:54-67 | a complete body with an accepted secret is admitted |
| EvaluationStore.AdmitIgnoresSecret | api/evaluation.py:58-67 | which accepted secret was sent does not change what is stored |
| EvaluationStore.SubmissionStore.constructor | api/evaluation.py:25 | the store starts empty, with distinct keys |
| EvaluationStore.SubmissionStore.Receive | api/evaluation.py:36-73 | a rejected body leaves the store unchanged; an admitted one is written at its key with `Put`, in place when the key is present and at the end when it is new, and replies 200 with that key; keys stay distinct |
| EvaluationStore.SubmissionStore.List | api/evaluation.py:76-79 | the listing is the whole store, in insertion order |
| EvaluationStore.WriteOneEntry | api/evaluation.py:58 | after a write the key holds exactly the new record; entries with other keys stay where they were; a new key is appended at the end, an existing one keeps its place; keys stay distinct |
| Evaluator.CheckLicense | evaluate.py:37-44 | passes iff the LICENSE text exists and contains "MIT", with the three messages |
| Evaluator.LicenseMentionsMit | evaluate.py:40 | the licence check passes iff "MIT" occurs somewhere in the text |
| Evaluator.CheckReadme | evaluate.py:47-54 | passes iff the README exists and is longer than 20 characters once stripped, with the three messages |
| Evaluator.ReadmeThreshold | evaluate.py:50-52 | for clean text, 20 characters fail and 21 pass; whitespace alone never passes |
| Evaluator.CheckPagesUrl | evaluate.py:57-64 | passes iff the GET answers 200; otherwise the message gives the status or the error |
| Evaluator.PagesStatusReadable | evaluate.py:62 | the failing status can be read back from the message |
| Evaluator.RepoPath | evaluate.py:76 | the repository path is no longer than the URL |
| Evaluator.RepoPathOfHostUrl | evaluate.py:76 | the path of a github.com URL is what follows the host prefix |
| Evaluator.RepoPathRemovesRepeats | evaluate.py:76 | every occurrence of the host prefix is removed, not only the first |
| Evaluator.EvaluateRaises | evaluate.py:67-72 | evaluation raises iff one of the four indexed keys is missing, with the first missing one |
| Evaluator.EvaluateAccessFailed | evaluate.py:75-79 | an unopenable repository gives the short error record and depends on nothing else |
| Evaluator.EvaluateScored | evaluate.py:81-98 | an opened repository gives the licence and README checks, the commit as sent and the clock reading taken for this submission |
| Evaluator.EvaluateNoPagesUrl | evaluate.py:83-85 | a missing or empty Pages URL gives "No pages_url", and the site is not asked |
| Evaluator.EvaluatePagesFetched | evaluate.py:83-85 | a Pages URL is fetched once; the check passes iff that GET answers 200 |
| Evaluator.EvaluateFeedback | evaluate.py:101-127 | feedback is present iff a key is set and the README passed; it is the stripped answer given for this submission, and a failed request leaves a message instead of raising |
| Evaluator.RunEvaluation | evaluate.py:132-142 | the loop ends like `RunSpec`: the results list, or the error that ended it; the `i`-th submission is evaluated with its own clock reading and its own feedback answer |
| Evaluator.RunSpecStops | evaluate.py:134-137 | once a prefix of the submissions ends the run, the whole run ends with the same error |
| Evaluator.RunOutcome | evaluate.py:134-142 | the run ends early iff some submission lacks a key of the progress line |
| Evaluator.RunScores | evaluate.py:132-142 | a run not ended early yields, in order, the record of each submission that did not raise, each evaluated at its own position |
| Evaluator.ScoresCount | evaluate.py:138-142 | one record per submission that did not raise, never more than the submissions; the evaluations in order when none raises |
| HostApi.CreateRepo | api/utils/github_tools.py:20-39 | creation succeeds iff the host answers 200 or 201; URLs as replied, branch defaulting to "main" |
| HostApi.PushFile | api/utils/github_tools.py:42-56 | a push succeeds iff the host answers 200 or 201, and gives the commit's sha |
| HostApi.PollPages | api/utils/github_tools.py:75-82 | the polling loop makes the calls of `PollFrom` and ends like it |
| HostApi.EnableGithubPages | api/utils/github_tools.py:59-82 | the request, the check and the polling make the calls of `PagesSpec` and end like it |
| HostApi.PollFromCalls | api/utils/github_tools.py:75-80 | polling waits 3 seconds before each GET and makes at most ten |
| HostApi.PollFromUnsettled | api/utils/github_tools.py:75-80 | no poll before the last one made answered 200 or raised |
| HostApi.PollFromTimesOut | api/utils/github_tools.py:75-82 | when no poll settles, the helper times out after all ten |
| HostApi.PollFromSettles | api/utils/github_tools.py:75-80 | when some poll settles, polling ends at the first that does, with its answer |
| HostApi.PagesOutcome | api/utils/github_tools.py:59-82 | the request is made once; an unaccepted one is checked once, and a non-200 check fails with the request's text; otherwise polling follows |
| HostApi.PagesTimesOut | api/utils/github_tools.py:75-82 | Pages turned on but never answering 200 times out after ten waits and ten polls |
| HostApi.AddMitLicenseHeader | api/utils/github_tools.py:85-110 | the licence opens with its title and the copyright line; the holder defaults to "Student Developer" |
| AppPublisher.MakeMitLicenseFormats | app/utils/github_tools.py:5-18 | the template formats to the licence with the year and the owner, "Unknown" for an empty owner |
| AppPublisher.Owner | app/utils/github_tools.py:30 | a non-empty override is the owner, otherwise the login |
| AppPublisher.PushFiles | app/utils/github_tools.py:39-47 | the file loop makes the calls of `FilesFrom` and ends like it |
| AppPublisher.CreateGithubRepoAndPush | app/utils/github_tools.py:21-49 | the helper makes the calls of `RepoPushSpec` and ends like it |
| AppPublisher.FilesFromCalls | app/utils/github_tools.py:40-43 | files are created in order with "Add <path>" on "main"; every one before the last attempted succeeded |
| AppPublisher.FilesFromSucceeds | app/utils/github_tools.py:39-49 | the loop succeeds iff every file does, after all of them, with the last sha |
| AppPublisher.FilesFromFails | app/utils/github_tools.py:44-47 | a failing loop stops at the first failing path, and the error names it |
| AppPublisher.RepoPushOutcome | app/utils/github_tools.py:28-49 | a failed create stops before any file; otherwise the files follow; success reports the URL and the owner, and no sha for no files |
| AppPublisher.EnableGithubPages | app/utils/github_tools.py:52-66 | turning on Pages succeeds iff the answer is 201 or 204; otherwise the message gives the status and the body |
| LlmGenerator.Names | api/utils/generator.py:18 | the attachment names in order, or a KeyError for one without a name |
| LlmGenerator.AttachmentNoteCases | api/utils/generator.py:16-19 | no attachments give no note; one gives its name after the prefix; a nameless one raises |
| LlmGenerator.NamesMissing | api/utils/generator.py:18 | any nameless attachment makes the note raise |
| LlmGenerator.AttachmentNoteAppend | api/utils/generator.py:19 | one more attachment adds ", " and its name at the end of the note |
| LlmGenerator.ExtractJson | api/utils/generator.py:60-62 | the slice is never longer than the reply |
| LlmGenerator.ExtractJsonBraces | api/utils/generator.py:60-62 | when the first `{` precedes the last `}`, the slice runs from one to the other |
| LlmGenerator.ExtractJsonEmpty | api/utils/generator.py:60-62 | no `}`, or a `}` only before the first `{`, gives an empty slice |
| LlmGenerator.ExtractJsonNoOpenBrace | api/utils/generator.py:60-62 | with no `{` the start counts from the end: empty, or "}" when the reply ends with one |
| LlmGenerator.GenerateOutcome | api/utils/generator.py:56-67 | generation gives the parsed object iff the stripped, sliced reply parses, and otherwise raises with the stripped reply; the update follows the same rule |
| LlmGenerator.NoCloseBraceRaises | api/utils/generator.py:101-109 | a reply with no `}` is refused whenever the empty text does not parse |
| DemoGenerator.TemplateFormats | app/utils/generator.py:5-55 | the page template formats to the page with the task and the brief in place, doubled braces coming out single |
| DemoGenerator.GeneratedFiles | app/utils/generator.py:50-57 | exactly index.html then README.md: the filled page, and the demo README naming the task and the brief |
| ReviseRoute.ReviseRepoName | api/revise.py:40 | position by position, `@` in the email becomes `_`, `.` becomes `-` and every other character is kept; then `_` and the task |
| ReviseRoute.Revise | api/revise.py:21-88 | the route's response and calls are those of `ReviseSpec` |
| ReviseRoute.Revision | api/revise.py:42-84 | from generation on, the route follows `RevisionSpec` |
| ReviseRoute.Publish | api/revise.py:47-84 | the pushes and the notification follow `PublishSpec` |
| ReviseRoute.ReviseRejects | api/revise.py:22-38 | rejections call nothing: 500 for an unparseable body, 403 for an empty body or a wrong secret, then 400 for an empty field |
| ReviseRoute.UnsetSecretAdmitsNone | api/revise.py:18-28 | with no secret configured, a request without a secret passes the check |
| ReviseRoute.RevisionPushes | api/revise.py:42-50 | the service is asked first; the page is pushed, then the README only after that push succeeded, with the round message on "main"; a failure gives 500 and posts nothing |
| ReviseRoute.RevisionNotifies | api/revise.py:52-84 | 200 iff generation and both pushes succeed, with one final notification to the evaluation address; its reply changes nothing |
| Pipeline.StoreRefusesBuildPayload | api/build.py:270-278 | the build route's notification has no secret, so the store refuses it with 400 |
| Pipeline.MissingPagesAndSecret | api/evaluation.py:40-52 | a body with the six metadata fields, but no Pages URL or secret, lacks exactly those two |
| Pipeline.RevisePayloadMissing | api/revise.py:53-60 | the revision notification lacks exactly the Pages URL and the secret |
| Pipeline.StoreRefusesRevisePayload | api/revise.py:53-60 | the store refuses the revision notification with 400, naming both fields |
| Pipeline.PagesAndSecretRepr | api/evaluation.py:52 | the message that names both missing fields |
| Pipeline.StoredSubmissionsAllScored | evaluate.py:132-142 | stored records never end the run or raise: one result per record, the `j`-th being the evaluation of the `j`-th record in insertion order |
| Pipeline.StoreRunScoresAll | evaluate.py:134 | scoring what a store holds yields one result per entry |
| Pipeline.NewEntryScoredLast | api/evaluation.py:58 | a submission stored under a new key is scored last: the run after the write is the run before it plus that submission's evaluation |
| Pipeline.OpensWithMit | evaluate.py:40 | a text that begins with "MIT" passes the licence check |
| Pipeline.BuildLicencePassesCheck | api/build.py:80-81 | the build route's licence passes the scoring script's check |
| Pipeline.HelperLicencePassesCheck | api/utils/github_tools.py:85-89 | the API helper's licence passes the check |
| Pipeline.AppLicencePassesCheck | app/utils/github_tools.py:14-18 | the application helper's licence passes the check |
| Pipeline.RepoNamesDiffer | api/revise.py:40 | for any email not 15 characters long, the revision route addresses a different repository than the build created |
| Pipeline.CreateRulesDiffer | api/utils/github_tools.py:31 | a 200 is accepted by the helper's create, but not by the build route's |

## Left out

- HTTP, Flask request parsing and the JSON encoding of responses: bodies are modelled as string maps or as unparseable, and responses as a status and a body datatype.
- JSON values that are not strings, and bodies that are not objects: every field value is a string in the model. The type-dependent paths of the source are therefore not modelled. These are the AttributeError raised by a string method on a non-string field (`email.encode` and `task.replace` at api/build.py:74-76, `email.split` at api/build.py:257, `email.replace` at api/revise.py:40, `repo_url.replace` at evaluate.py:76). They are also the verdicts that depend on the type: a JSON number is refused by `provided in valid` (api/build.py:70) where its text would be accepted, and `all([...])` (api/revise.py:37) treats `0` and `false` as missing.
- Environment variables, the clock, SHA-1, `uuid4` and base64: their values are parameters (`BuildConfig`, `BuildWorld.emailHash`/`uid`/`year`, `EvalWorld.clock`), and a push's content is kept unencoded.
- The generation service, the GitHub library and HTTP calls are oracles passed in. The prompt texts and request headers are not modelled, because only their outcomes influence control flow.
- The scoring script's clock and its feedback service: `EvalWorld.clock` and `EvalWorld.feedback` give the reading and the answer for the submission at each position of the run.
- `json.loads` is a parameter `parse`, because only its success and the object it yields matter.
- Template markup: the page and licence templates keep only their substitution positions, some literal braces and the licence headers. The rest of the text is abbreviated, because no property depends on it.
- `Strings.Strip` and `Strings.Lower` work on ASCII only: Unicode whitespace and case mapping are not modelled.
- `PyFormat.Format` covers named fields only. Conversions, format specs and attribute or index lookups inside a field are not modelled, because no template uses them.
- Logging, `print` and `traceback` have no effect on results and are left out.
- The `time.sleep` waits are recorded as calls, not executed.
- Writing the results file at the end of `run_evaluation` is left out, because it is I/O after the results are computed.
- Concurrency between requests, and the in-memory store's lifetime across processes, are out of scope: each request is modelled as one sequential run.
- The store's 500 path for an exception after parsing cannot occur in the model, because every field is a string. Only the parse failure produces 500.
- `AppPublisher`: only `GithubException` is caught in the source. Any failure of `create` or `commit` is modelled as that exception and carries its text.
- `api/revise.py` imports `get_repo_tree` and `create_commit`, which `api/utils/github_tools.py` does not define. The model assumes the import succeeds.
- `ReviseRoute`: the round is kept as the text of the field, with "2" when the field is absent. The timestamp in the reply is left out.
- `Evaluator.RepoPath`: its contract only bounds the length. What the path actually is, is stated by `RepoPathOfHostUrl` and `RepoPathRemovesRepeats`, for URLs on the host.
