# Job tracker front end: a verified model of its page logic

This project models the client-side decision and state-update rules of a
single-page job-application tracker. The pages are thin layers over a REST
API, so every HTTP call is replaced by its settled outcome: `Ok(value)`, or
`Err(error)` with an axios error (with or without a server response) or any
other exception. The outcome is a parameter of the handler that awaits it.
The answer to `window.confirm` is also a parameter. The requests a handler
issues, the toasts it raises and the navigation it asks for are
out-parameters, kept as recorded events.

What is modelled:

- **Job list page** (`JobPage`). The page is a class whose fields are the
  component's `useState` variables. These are the list of jobs, the
  `statusChanges` table of staged status edits keyed by job id, the loading
  flag, the open job with its match score and keywords, and the create
  dialog's fields. Its handlers stage, save, delete, create and open a job.
  Each method names the fields it may change and states their new values.
  The pure rules those handlers use are functions with lemmas:
  - the case-insensitive status label lookup;
  - the `map` that replaces one job's status, and the `filter` that deletes one;
  - the displayed-status and "Save offered" rules;
  - the tag parser (`split(",")` then `trim`).
- **Job types** (`JobTypes`): the `Job` record and the seven-entry status
  enumeration, with its facts (label equals value, and values are distinct
  ignoring case).
- **Error normaliser** (`ApiHandler`): `handleApi`, which turns an outcome
  into a value, or into `null` plus exactly one message using a three-way
  rule.
- **Resume-match client** (`ResumeMatchClient`): the 404-to-"no result" rule
  of `getResumeMatch`, the three-field multipart form and the two request
  URLs.
- **Resume checker page** (`ResumeMatcherPage`). `handleSubmit` is split at
  its `await`. `Submit` validates the inputs in order and starts loading.
  `Settle` maps the response, using defaults for missing fields, and ends
  loading.
- **Signup and login forms** (`SignupPage`, `LoginPage`). These cover the
  `submitted`, `err` and `success` flags, the field handlers, the requests
  sent, and the session that a successful login writes (the stored token
  and the global default `Authorization` header of the `axios` package).
- **Statistics dashboard** (`StatsPage`): `transform` over a record's
  entries, the cyclic chart palette, and the loading, charts or failure
  view.

JavaScript built-ins that the rules depend on are modelled in `JsText`:
`toLowerCase`, `trim`, and `split` with a one-character separator. `Join`
is defined as the inverse of `split`. `Forms` models `FormData` and
`URLSearchParams` as ordered name/value lists.

Only axios errors get "Request failed."; any other exception gets "An
unexpected error occurred." (src/utils/apiHandler.ts:10-11).

Several functions are stated through a lemma rather than through their own
contract, and the lemma's row covers them: `JobPage.StatusLabel` by
`StatusLabelSpec`, `JobPage.WithStatus` by `WithStatusSpec`,
`JobPage.WithoutJob` by `WithoutJobSpec` and `WithoutJobConcat`,
`JobPage.DisplayedStatus` and `JobPage.HasChanged` by `StagedRow` and
`SavedRows`, `JobPage.ParseTags` by `ParseTagsSpec`, `JobPage.JobDeleted`
by `Page.DeleteJob`, `StatsPage.Transform` by `TransformAt`,
`TransformRoundTrip` and `TransformCount`, `ResumeMatchClient.CheckForm` by
`CheckFormFields`, `LoginPage.LoginParams` by `LoginParamsFields`,
`LoginPage.BearerHeader` by `BearerRoundTrip`,
`ResumeMatcherPage.FirstMissing` by `FirstMissingSpec`,
`ResumeMatcherPage.RemarksShown` by `RemarksShownIff`,
`ResumeMatcherPage.Page.CanSubmit` by `Page.Submit`,
`ResumeMatchClient.IsNotFound` by `GetResumeMatch` and `AbsenceIffNotFound`,
`StatsPage.ChartsOf` by `Dashboard.View`, `JsText.Trim` by `TrimSpec` and
`TrimIdempotent`, `SignupPage.Form.NameRequired`, `EmailRequired` and
`PasswordRequired` by `SignupPage.Form.Submit` and the `Edit` rows,
`LoginPage.Form.EmailRequired`, `PasswordRequired` and `ErrorShown` by
`LoginPage.Form.Submit` and the `Edit` rows, and
`LoginPage.Session.constructor` (the session before any login: no stored
token and no default header) by `LoginThenRequest`.

## Model

| member | source | states |
|---|---|---|
| JsText.LowerChar | src/pages/Job/index.tsx:34 | an upper-case ASCII letter becomes the letter 32 code points above it, the Kelvin sign becomes `k`, every other character is kept; the only characters that become ASCII lower-case letters are letters and the Kelvin sign |
| JsText.ToLower | src/pages/Job/index.tsx:34 | `toLowerCase` keeps the length and lowers each character |
| JsText.LeadingSpace | src/pages/Job/index.tsx:173 | the count of leading whitespace characters: all of them are whitespace and the next one is not |
| JsText.TrailingSpace | src/pages/Job/index.tsx:173 | the count of trailing whitespace characters: all of them are whitespace and the one before is not |
| JsText.TrimSpec | src/pages/Job/index.tsx:173 | `trim` returns the infix that has only whitespace outside it, and that neither starts nor ends with whitespace |
| JsText.TrimIdempotent | src/pages/Job/index.tsx:173 | trimming twice gives the same result as trimming once |
| JsText.Split | src/pages/Job/index.tsx:173 | `split` always gives at least one piece |
| JsText.SplitCount | src/pages/Job/index.tsx:173 | `split(",")` gives one piece per comma plus one, and no piece contains a comma |
| JsText.JoinSplit | src/pages/Job/index.tsx:173 | joining the pieces with the same separator gives back the input |
| Forms.Get | src/pages/ResumeMatcher/client.ts:13-16 | a name is present iff some field has it; the value returned is that of the first field with that name |
| Forms.Names | src/pages/ResumeMatcher/client.ts:13-16 | the names of the fields, in append order |
| ApiHandler.ErrorMessage | src/utils/apiHandler.ts:6-11 | a string `detail` is reported verbatim; an axios error with no response or a non-string detail gives "Request failed."; any other error gives "An unexpected error occurred." |
| ApiHandler.HandleApi | src/utils/apiHandler.ts:3-14 | on success, returns the value and never calls `setErr`; on failure, returns `null` and calls `setErr` exactly once, with the normalised message |
| ApiHandler.ApplyErrCalls | src/pages/Account/Signup.tsx:25-28 | the error state is left unchanged when `setErr` is not called, and holds the last message otherwise |
| ApiHandler.HandleApiExclusive | src/utils/apiHandler.ts:3-14 | a value comes back iff there is no message, and iff the call succeeded |
| ApiHandler.ErrorMessageSource | src/utils/apiHandler.ts:6-11 | a generic message is reported only when there is no string detail to report, or when the detail is that same text |
| JobTypes.LowerValues | src/types/job.ts:16-24 | there are exactly seven statuses, and these are their lower-cased values |
| JobTypes.LabelsAreValues | src/types/job.ts:17-23 | every status has a label equal to its value, and no label is empty |
| JobTypes.ValuesDistinctIgnoringCase | src/types/job.ts:17-23 | no two status values are equal ignoring case |
| ResumeMatchClient.CheckUrl | src/pages/ResumeMatcher/client.ts:18 | the check request goes to the server base followed by `/resume-match/check` |
| ResumeMatchClient.MatchUrl | src/pages/ResumeMatcher/client.ts:29 | the lookup goes to the server base followed by `/resume-match/` and the job id |
| ResumeMatchClient.MatchUrlInjective | src/pages/ResumeMatcher/client.ts:29 | different job ids are looked up at different URLs |
| ResumeMatchClient.CheckFormFields | src/pages/ResumeMatcher/client.ts:13-16 | the form has exactly `job_id`, `resume` and `job_description`, in that order, and each reads back its value |
| ResumeMatchClient.GetResumeMatch | src/pages/ResumeMatcher/client.ts:27-36 | success returns the body unchanged; a 404 axios error gives `null`; every other failure is rethrown unchanged |
| ResumeMatchClient.AbsenceIffNotFound | src/pages/ResumeMatcher/client.ts:32-35 | the result is "no result" iff the server answered 404; it is an error iff the call failed in some other way, and the error is the same one |
| JobPage.FindStatus | src/pages/Job/index.tsx:34 | a status is found only if its value equals the input ignoring case, and nothing is found iff no status value does |
| JobPage.StatusLabelSpec | src/pages/Job/index.tsx:33-34 | the label is that of the status whose value equals the input ignoring case, or "Select status" when no status matches |
| JobPage.DefaultStatusLabel | src/pages/Job/index.tsx:51 | a job whose status is the create form's upper-case default `"WISHLIST"` is labelled "Wishlist" in its row and in the job dialog |
| JobPage.FindJob | src/pages/Job/index.tsx:144 | the job found is the first job in the list with the id; nothing is found iff no job has the id |
| JobPage.WithStatusSpec | src/pages/Job/index.tsx:124-126 | the length and order of the list are kept; jobs with the id get the new status and keep every other field; all other jobs are unchanged |
| JobPage.WithoutJobSpec | src/pages/Job/index.tsx:149 | the jobs that remain are exactly those without the id; the length drops by the number of jobs with the id; a list without the id is unchanged |
| JobPage.WithoutJobConcat | src/pages/Job/index.tsx:149 | deletion distributes over concatenation, so the remaining jobs keep their order |
| JobPage.StagedRow | src/pages/Job/index.tsx:245-259 | after staging, the row offers Save and shows the staged value, or its own status when the staged value is empty; every other row is unchanged |
| JobPage.SavedRows | src/pages/Job/index.tsx:121-140 | after a successful save, rows with that id show the status the server returned and no longer offer Save |
| JobPage.OptionalText | src/pages/Job/index.tsx:171-172 | an empty date or note is left out of the request; a non-empty one is sent as it is |
| JobPage.ParseTagsSpec | src/pages/Job/index.tsx:173 | empty input gives no tags; otherwise there is one tag per comma plus one, each being the trimmed piece with no comma in it and no whitespace at either end |
| JobPage.Page.constructor | src/pages/Job/index.tsx:70-82 | the initial state: no jobs, no staged edits, loading, default form values, status `"WISHLIST"`, no score |
| JobPage.Page.JobsLoaded | src/pages/Job/index.tsx:84-96 | the fetched list is stored on success; loading ends in either case |
| JobPage.Page.View | src/pages/Job/index.tsx:233-260 | skeletons iff loading; the empty notice iff not loading and there are no jobs; otherwise one row per job, in order, showing the job, its displayed status and that status's label, and whether it has a staged change |
| JobPage.Page.OpenJob | src/pages/Job/index.tsx:98-101 | the job is opened at once and looked up by its id; the score and keywords are left as they were until the lookup settles |
| JobPage.Page.MatchLoaded | src/pages/Job/index.tsx:101-113 | once the lookup settles, a match sets the score and its keywords (empty when they are missing); no match or a failed lookup clears both |
| JobPage.StaleScoreAfterReopen | src/pages/Job/index.tsx:98-114 | after one job's lookup set a score and the dialog was closed, opening another job shows that job with the earlier job's score until its own lookup settles |
| JobPage.Page.CloseJob | src/pages/Job/index.tsx:312 | closing the dialog clears the open job |
| JobPage.Page.StageStatus | src/pages/Job/index.tsx:116-118 | only the staged entry for that id changes; no request is made and the list is untouched |
| JobPage.Page.SaveStatus | src/pages/Job/index.tsx:120-141 | sends exactly the staged value; on success, the status from the server is applied to that id's jobs; on failure, a toast is raised and the list is kept; the id's staged entry, and only that entry, is removed in both cases |
| JobPage.Page.DeleteJob | src/pages/Job/index.tsx:143-162 | without confirmation, nothing is sent and nothing changes; with it, one delete is sent; on success every job with the id is removed; on failure the list is kept |
| JobPage.Page.Create | src/pages/Job/index.tsx:164-191 | without a company or a role, nothing is sent and nothing changes; otherwise the draft is sent; on success the job is appended, the dialog closes and the form is reset; on failure only a toast is raised |
| ResumeMatcherPage.FirstMissingSpec | src/pages/ResumeMatcher/index.tsx:50-75 | only the first missing input, checked in the order job, resume, job description, produces a notice, and there is no notice iff all three are present |
| ResumeMatcherPage.ToMatchResult | src/pages/ResumeMatcher/index.tsx:80-84 | the score is the response score; keywords default to `[]` and remarks to `""` |
| ResumeMatcherPage.RemarksShownIff | src/pages/ResumeMatcher/index.tsx:168 | the remark block is shown iff the server sent a non-empty remark |
| ResumeMatcherPage.Page.constructor | src/pages/ResumeMatcher/index.tsx:25-30 | the initial state: no job, no files, not loading, no result |
| ResumeMatcherPage.Page.JobsLoaded | src/pages/ResumeMatcher/index.tsx:33-47 | the job list is stored on success; a toast is raised on failure |
| ResumeMatcherPage.Page.Submit | src/pages/ResumeMatcher/index.tsx:49-79 | callable only while the check button is enabled, that is while not loading (src/pages/ResumeMatcher/index.tsx:142); a missing input raises its notice and sends nothing, leaving `loading` and `result` unchanged; otherwise loading starts and the three-field form is sent |
| ResumeMatcherPage.Page.Settle | src/pages/ResumeMatcher/index.tsx:80-95 | on success the result is replaced by the mapped response; on failure a toast is raised and the previous result stays; loading ends in either case |
| SignupPage.Form.constructor | src/pages/Account/Signup.tsx:10-15 | the initial state: empty fields and messages, not submitted |
| SignupPage.Form.EditName | src/pages/Account/Signup.tsx:58-61 | the field is updated and `submitted` is reset, which hides every "required" message |
| SignupPage.Form.EditEmail | src/pages/Account/Signup.tsx:74-77 | the field is updated and `submitted` is reset, which hides every "required" message |
| SignupPage.Form.EditPassword | src/pages/Account/Signup.tsx:90-93 | the field is updated and `submitted` is reset, which hides every "required" message |
| SignupPage.Form.Submit | src/pages/Account/Signup.tsx:17-36 | the form is marked submitted and both messages are cleared; with an empty field nothing is sent and each "required" message is shown iff its field is empty; on success the success message is set, the fields are cleared and the form is unmarked; on failure the fields are kept and `err` holds the normalised message |
| LoginPage.BearerRoundTrip | src/pages/Account/Login.tsx:30 | the `Bearer` header carries exactly the token it was built from, and only a `Bearer` header carries a token |
| LoginPage.LoginParamsFields | src/pages/Account/Login.tsx:23-25 | exactly two params are sent, `username` = email and then `password` = password |
| LoginPage.Form.constructor | src/pages/Account/Login.tsx:13-16 | the initial state: empty fields, not submitted, no error |
| LoginPage.Form.EditEmail | src/pages/Account/Login.tsx:47-50 | the field is updated and `submitted` is reset, which hides the error and the "required" messages without clearing `err` |
| LoginPage.Form.EditPassword | src/pages/Account/Login.tsx:63-66 | the field is updated and `submitted` is reset, which hides the error and the "required" messages without clearing `err` |
| LoginPage.Form.Submit | src/pages/Account/Login.tsx:18-32 | the form is marked submitted and `err` is not cleared; with an empty field nothing is sent; on success the token is stored, the header becomes `"Bearer " + access_token` and the page navigates to `/dashboard`; on failure the session is untouched, there is no navigation and `err` holds the normalised message |
| LoginPage.LoginThenRequest | src/pages/Account/Login.tsx:28-31 | after a successful login, the global default `Authorization` header carries exactly the returned token |
| StatsPage.TransformAt | src/pages/Stats/index.tsx:41-42 | there is one datum per entry, in enumeration order, whose name is the key and whose value is that key's count |
| StatsPage.TransformRoundTrip | src/pages/Stats/index.tsx:41-42 | reading the chart data back gives the mapping that was transformed |
| StatsPage.ToMapKeys | src/pages/Stats/index.tsx:41-42 | the mapping's keys are exactly the listed keys |
| StatsPage.TransformCount | src/pages/Stats/index.tsx:41-42 | for an object, the number of data equals the number of keys, and each value is its key's count |
| StatsPage.ColorAt | src/pages/Stats/index.tsx:78 | `index % 6` always selects a palette colour |
| StatsPage.ColorsCycle | src/pages/Stats/index.tsx:26 | two slices get the same colour iff their indices agree modulo 6, so the colours repeat with period 6 |
| StatsPage.Dashboard.constructor | src/pages/Stats/index.tsx:29-30 | the initial state: no stats, loading |
| StatsPage.Dashboard.View | src/pages/Stats/index.tsx:50-128 | skeletons iff loading; charts iff not loading and stats were loaded; the failure text otherwise |
| StatsPage.Dashboard.Settle | src/pages/Stats/index.tsx:32-38 | the stats are stored on success; loading ends whatever the outcome |

## Left out

- Rendering, styling, the UI component library, chart configuration and icons are presentation only. Only the decisions behind them are modelled: which view shows, what a row displays and which notices appear.
- The one-line HTTP wrappers in src/pages/Job/client.ts, src/pages/Account/client.ts and src/pages/Stats/client.ts are not modelled. Each call is an `Outcome` parameter of its handler.
- Wire encodings are not modelled. This covers the serialisation of `URLSearchParams` to `application/x-www-form-urlencoded`, the multipart body, and JSON's dropping of `undefined` members. Requests are modelled as ordered name/value lists and `Option` fields.
- Date formatting is not modelled, because it relies on a foreign library and on the locale. This covers `format(new Date(...))` and `toLocaleDateString`.
- `Math.round` of the match score is not modelled, because it is floating point. The score is an `int` and is kept as it is.
- `window.confirm`, `toast`, `console.error` and `navigate` are not modelled as behaviour. The answer to the confirmation is an input; toasts and the navigation target are recorded events; logging is dropped. The text of the confirmation prompt is not modelled.
- The 3000 ms `setTimeout` that clears Signup's success message is not modelled. It is a timer, not a decision.
- Session restore at start-up (src/App.tsx) and logout (src/pages/Dashboard/TopBar.tsx) are not part of this model. Only the session writes of a successful login are modelled.
- Overlapping handlers, such as two saves in flight, are not modelled. Each handler is one atomic step on the current state, like the source's functional `setX(prev => ...)` updates. The exceptions are the resume check and opening a job, each split at its `await` because state is visible in between: the check's `loading` flag, and the open job shown with the score and keywords of the previous lookup.
- JsText.ToLower: only 'A'..'Z' and U+212A KELVIN SIGN are mapped, while JavaScript maps every cased character. No other character has a lower-case form made only of ASCII letters, so the model decides the comparison with the ASCII status values exactly as JavaScript does.
- LoginPage.LoginThenRequest: later requests are sent through src/utils/axios, which is not part of this model; the model assumes they carry the global default `Authorization` header that the login writes.
- Strings are sequences of Unicode scalar values, not of UTF-16 code units. Lone surrogates cannot be expressed.
- A record's key enumeration order (integer-like keys first, then insertion order) is given as the order of its entries. It is not derived from the keys.
- Response bodies are trusted to have the declared shape. A JSON value of another type in a field, such as a non-number score, is not modelled. The exceptions are `detail` in error bodies, and the truthiness of the login and signup bodies that `if (result)` tests.
