# bizzpos merchant onboarding — a Dafny model

bizzpos is a Next.js front end for onboarding merchants. An applicant
signs in and fills in a four-step intake wizard:

1. the business details;
2. the owner's details;
3. three required documents and one optional one;
4. an acceptance box.

The wizard uploads the documents to a hosted file store. It then inserts one
application row with status `pending` into a hosted record store.
Administrators, recognised through an `admin_users` row, see every
application with three counters and set each one's status to pending,
approved or rejected. Applicants see their own applications, each with a
title, a short reference label and a coloured status pill. A small data
layer provides:

- the status-message texts;
- safe storage paths;
- the admin listing's page range;
- a per-status count.

This project models that logic and proves what it promises:

- **The intake wizard** (`ApplicationForm.IntakeForm`). It is a class over
  the wizard's state: the step, the error map, the inputs, the file slots,
  the acceptance flag, the loader and the redirect.
  - Its invariant is `1 <= step <= 4`, and every earlier step passed its
    check.
  - Validation *replaces* the error map with the current step's failures.
  - `HandleNext` advances only on a clean check. At step 4 it submits,
    either through the hosting page's handler or through the form's own.
- **The submission pipeline** (`Submission`), shared by the form's own
  handler and the submit page's `handleFinalSubmit`
  (`SubmitApplication.SubmitApplicationPage`).
  - Every upload is issued.
  - A failed upload ends the run before the insert.
  - Otherwise exactly one row is inserted, and it is built as the source's
    object literal builds it.
  - The backend (`HostedBackend.Backend`) is a class that logs every call.
    Its replies are functions fixed when it is created, so "no request was
    made" can be stated and proved.
- **The data layer** (`DbOperations`):
  - the three status-message templates, with a proved round trip back to
    the status and the notes;
  - file-name sanitisation as JavaScript performs it on UTF-16 code units,
    and the path built from it;
  - the `getAll` range and how its pages tile;
  - the `countByStatus` loop, as a method with loop invariants;
  - the fields a status update writes.
- **The admin dashboard** (`AdminDashboard`):
  - the admin gate;
  - the list and selected-item update after a status change;
  - the counters, with the pending and approved counts proved to be the
    per-status counts, which partition the list.
- **The admin e-mail check** (`IsAdmin`): exact, untrimmed membership in the
  comma-split allow-list.
- **The applicant dashboard** (`UserDashboard`):
  - the case-insensitive status pill;
  - the case-sensitive indicator colour;
  - the title fallback;
  - the `REF` label;
  - the loader.

Wherever the code talks to the hosted backend, the backend's answer is a
parameter. This covers authentication, storage, select, insert, update and
count. The clock (`Date.now()`, `new Date().toISOString()`) and the
`NEXT_PUBLIC_ADMIN_EMAILS` environment variable are parameters too.

`validateStep` replaces the whole error map
(`src/components/ApplicationForm.tsx` line 96), so errors left from other
steps are dropped.

## Model

| member | source | states |
|---|---|---|
| Types.StatusName | src/lib/types.ts:9 | a status is stored as one of the three strings `pending`, `approved`, `rejected` |
| Types.ParseStatus | src/lib/types.ts:9 | reading a stored string back gives the status whose name it is, and nothing for any other string |
| Types.StatusNameRoundTrip | src/lib/types.ts:9 | every status reads back as itself from its stored name |
| Strings.Split | src/lib/isAdmin.ts:4 | `split(',')` yields at least one piece, and no piece contains the separator |
| Strings.JoinSplit | src/lib/isAdmin.ts:4 | joining the pieces with the separator gives the string back, so no character is lost |
| Strings.Lower | src/app/dashboard/page.tsx:47 | `toLowerCase` on ASCII letters: the ASCII case mapping keeps the length and lower-cases each upper-case letter in place |
| Strings.Upper | src/app/dashboard/page.tsx:165 | `toUpperCase` on ASCII letters: the ASCII case mapping keeps the length and upper-cases each lower-case letter in place |
| Strings.LowerIdempotent | src/app/dashboard/page.tsx:47 | lower-casing twice is lower-casing once |
| Strings.LowerOfUpper | src/app/dashboard/page.tsx:47 | lower-casing forgets an earlier upper-casing |
| Strings.Decimal | src/lib/dbOperations.ts:189 | a timestamp is written as a non-empty string of decimal digits |
| Strings.DecimalRoundTrip | src/lib/dbOperations.ts:189 | the written timestamp reads back as the same number |
| Lists.UpdateWhere | src/app/admin/dashboard/page.tsx:80 | the guarded `map` keeps the length; an entry is rewritten exactly when the guard holds, and is otherwise left in place |
| Lists.UpdateWhereIdempotent | src/app/admin/dashboard/page.tsx:80 | repeating an idempotent rewrite whose result still satisfies the guard changes nothing more |
| Lists.Filter | src/app/admin/dashboard/page.tsx:99-100 | `filter` keeps only entries satisfying the guard, keeps every entry that does, and is no longer than the list |
| Lists.FilterMultiset | src/app/admin/dashboard/page.tsx:99-100 | each entry satisfying the guard is kept as many times as it occurs, and every other entry is dropped |
| Lists.FilterAppend | src/app/admin/dashboard/page.tsx:99-100 | filtering a concatenation filters each part and keeps the parts in order, so the kept entries stay in list order |
| HostedBackend.InsertCount | src/components/ApplicationForm.tsx:157 | the number of inserts in a call log is zero exactly when no call is an insert |
| HostedBackend.InsertCountAppend | src/components/ApplicationForm.tsx:157 | the inserts of two logs placed one after the other add up |
| HostedBackend.Backend.constructor | src/components/ApplicationForm.tsx:144 | a fresh backend has answered no call yet |
| HostedBackend.Backend.Upload | src/components/ApplicationForm.tsx:144 | an upload appends its path to the log and returns the store's error for that path |
| HostedBackend.Backend.Insert | src/components/ApplicationForm.tsx:157 | an insert appends its row to the log and returns the store's error for that row |
| IsAdmin.AdminEmails | src/lib/isAdmin.ts:4 | an unset variable gives an empty list; no entry contains a comma |
| IsAdmin.IsAdminEmail | src/lib/isAdmin.ts:1-6 | an absent or empty e-mail, an unset list, or an e-mail containing a comma is never admin |
| IsAdmin.SingleEntry | src/lib/isAdmin.ts:4-5 | a one-entry list admits exactly that address, compared exactly and case-sensitively |
| IsAdmin.FirstEntry | src/lib/isAdmin.ts:4-5 | a list admits its first entry and whatever the rest of the list admits, and nothing else |
| IsAdmin.NoTrimming | src/lib/isAdmin.ts:4-5 | entries are not trimmed: an address preceded by a space in the list is not admitted |
| IsAdmin.ListedEntriesAdmitted | src/lib/isAdmin.ts:4-5 | every non-empty listed entry is admitted |
| DbOperations.ComposeStatusMessage | src/lib/dbOperations.ts:136-143 | the message starts with the status's template (`StatusTemplate`), and is longer than it exactly when the notes are truthy |
| DbOperations.CreateStatusMessage | src/lib/dbOperations.ts:130-151 | the created message carries the given submission, user and status; its text starts with that status's template and reads back as that status with the notes exactly when they are truthy |
| DbOperations.NotStartsWith | src/lib/dbOperations.ts:136-140 | a string whose first character differs from a prefix's does not start with it |
| DbOperations.TemplateHeads | src/lib/dbOperations.ts:137-139 | the three `StatusTemplate` texts open with three different symbols |
| DbOperations.ParseAfterTemplate | src/lib/dbOperations.ts:142-143 | whatever follows a template is read back as the notes part of that template's status |
| DbOperations.ParseNotesAfterSeparator | src/lib/dbOperations.ts:143 | the `Admin Notes` separator followed by non-empty notes is read back as exactly those notes |
| DbOperations.RoundTripWithNotes | src/lib/dbOperations.ts:143 | a message composed with non-empty notes reads back as its status and exactly those notes |
| DbOperations.RoundTripWithoutNotes | src/lib/dbOperations.ts:143 | a message composed without notes, or with empty notes, reads back as its status alone |
| DbOperations.StatusMessageRoundTrip | src/lib/dbOperations.ts:136-143 | a composed message determines its status and its truthy notes: the templates never collide, and empty notes are the same as none |
| DbOperations.Sanitize | src/lib/dbOperations.ts:188 | the sanitised name is as long as the name in UTF-16 code units, and holds only `[a-zA-Z0-9._-]` |
| DbOperations.SanitizeAppend | src/lib/dbOperations.ts:188 | the global replace works piecewise on concatenations |
| DbOperations.SanitizeOneForOne | src/lib/dbOperations.ts:188 | on single-unit characters the replace is one-for-one: allowed characters stay and every other becomes `_` |
| DbOperations.SanitizeFixesPathChars | src/lib/dbOperations.ts:188 | a name made only of `[a-zA-Z0-9._-]` is left as it is |
| DbOperations.SanitizeIdempotent | src/lib/dbOperations.ts:188 | sanitising twice is sanitising once |
| DbOperations.GeneratePathSegments | src/lib/dbOperations.ts:186-190 | `GeneratePath`: a generated path splits into user, document type and `timestamp_name`; the timestamp is the part before the first `_` and reads back as the given time |
| DbOperations.GetAllRange | src/lib/dbOperations.ts:41-46 | the requested inclusive range starts at the offset and spans exactly `limit` rows, with the defaults filled in |
| DbOperations.RowsInRange | src/lib/dbOperations.ts:46 | an inclusive range selects the rows from its start to its end, clipped to the table: the page's length is the clipped width and its i-th row is the table's row at start plus i |
| DbOperations.GetAllDefaults | src/lib/dbOperations.ts:41 | without arguments, rows 0 to 49 are requested |
| DbOperations.PagesTile | src/lib/dbOperations.ts:41-46 | a page holds `limit` rows while the table has them, and the next page continues exactly where it ends |
| DbOperations.RecordedCount | src/lib/dbOperations.ts:84 | a failed query records 0; a missing count records 0; otherwise the count returned |
| DbOperations.CountByStatus | src/lib/dbOperations.ts:70-88 | the loop records a value for exactly the three statuses, and each is the value recorded for that status's reply |
| DbOperations.ApplyStatusUpdate | src/lib/dbOperations.ts:53-62 | an update writes the status and the update time, and writes the notes only when given; every other field is kept |
| DbOperations.UpdateStatusTable | src/lib/dbOperations.ts:53-62 | the rows with the id get the update and every other row is unchanged |
| DbOperations.UpdateStatusRepeat | src/lib/dbOperations.ts:53-62 | repeating the same update later only moves the update time |
| Submission.UploadPaths | src/components/ApplicationForm.tsx:150-155 | `UploadPaths`, built from `UploadPath`: four paths are uploaded when there is an additional document, three otherwise |
| Submission.UploadPathSegments | src/app/dashboard/submit-application/page.tsx:41 | `UploadPath`: a path splits into user, folder and `timestamp_name` when none of them holds a `/` (the file name is not sanitised), and the timestamp is the part before the first `_` |
| Submission.FirstFailure | src/components/ApplicationForm.tsx:150-155 | the batch reports no error exactly when every upload succeeded |
| Submission.FirstUploadFailure | src/app/dashboard/submit-application/page.tsx:52-57 | the batch error is the driver's licence's, else the business licence's, else the void check's, else the additional document's |
| Submission.UploadDocuments | src/app/dashboard/submit-application/page.tsx:40-57 | every upload is issued in document order; the result is the batch's first failure and the public URLs of the uploaded paths |
| Submission.UploadedUrls | src/components/ApplicationForm.tsx:150-155 | an additional URL exists exactly when an additional file was given |
| Submission.OptionalValue | src/components/ApplicationForm.tsx:154 | a missing URL is stored as null, and a null comes only from a missing URL |
| Submission.ComposeRowColumns | src/app/dashboard/submit-application/page.tsx:60-68 | `ComposeRow`: the row has the user, the spread fields, the four URL columns in document order (the optional one null when absent), and status `pending` written after the spread |
| Submission.ComposeRowField | src/app/dashboard/submit-application/page.tsx:62 | a spread field keeps its value unless a later entry has its name |
| Submission.ComposeRowUser | src/app/dashboard/submit-application/page.tsx:61-62 | `user_id` is the signed-in user's unless the spread fields carry one, which then wins |
| Submission.Submit | src/app/dashboard/submit-application/page.tsx:37-70 | the backend sees exactly the calls that the pipeline's specification `SubmitRun` lists, and the result is its failure |
| Submission.NoUserNoCalls | src/app/dashboard/submit-application/page.tsx:37 | without a signed-in user no upload or insert is made |
| Submission.AtMostOneInsert | src/app/dashboard/submit-application/page.tsx:52-68 | at most one row is inserted, exactly when a user is signed in and every upload succeeded, and it is the last request |
| Submission.UploadsAlwaysIssued | src/app/dashboard/submit-application/page.tsx:52-57 | a signed-in submission first issues every upload, whatever the replies |
| Submission.SubmitOutcome | src/app/dashboard/submit-application/page.tsx:44-70 | a submission succeeds exactly when a user is signed in, every upload succeeded and the insert reported no error; a failed upload is reported with the handler's prefix |
| SubmitApplication.ShownError | src/app/dashboard/submit-application/page.tsx:79 | the shown error is never empty, and is the thrown message whenever that has text |
| SubmitApplication.SubmitApplicationPage.constructor | src/app/dashboard/submit-application/page.tsx:12-16 | the page starts loading, with no user, error or success |
| SubmitApplication.SubmitApplicationPage.CheckAuth | src/app/dashboard/submit-application/page.tsx:19-27 | with nobody signed in it goes to `/login` and keeps loading; otherwise it records the user and shows the form |
| SubmitApplication.SubmitApplicationPage.HandleFinalSubmit | src/app/dashboard/submit-application/page.tsx:32-83 | the backend sees the pipeline's calls; `submitting` always ends false; `success` becomes true only after a clean insert; and any failure sets `error` to its message or to the fallback |
| ApplicationForm.WithField | src/components/ApplicationForm.tsx:68 | editing an input changes that input's value and no other |
| ApplicationForm.FieldStep | src/components/ApplicationForm.tsx:77-88 | each input is shown on step 1 or step 2, and the business inputs are the step-1 ones |
| ApplicationForm.MapFormDataCopies | src/components/ApplicationForm.tsx:110-122 | `MapFormData`: `mappedData` holds exactly the eleven column names, each with the value of its own input |
| ApplicationForm.MapFormDataRoundTrip | src/components/ApplicationForm.tsx:110-122 | the inputs can be read back from `mappedData`, so none is lost or merged |
| ApplicationForm.MapFormDataInjective | src/components/ApplicationForm.tsx:110-122 | different inputs give different records |
| ApplicationForm.FormRowColumns | src/components/ApplicationForm.tsx:157-175 | the form's own row carries the signed-in user and status `pending` |
| ApplicationForm.FormRowInput | src/components/ApplicationForm.tsx:159-169 | each input's column in the inserted row holds that input's value |
| ApplicationForm.SetSlot | src/components/ApplicationForm.tsx:73 | choosing a file changes that slot and no other |
| ApplicationForm.MissingInputs | src/components/ApplicationForm.tsx:79-88 | every entry belongs to an empty listed input and reads `Required` |
| ApplicationForm.MissingInputsComplete | src/components/ApplicationForm.tsx:79-88 | every empty listed input has its entry |
| ApplicationForm.MissingInputsFrame | src/components/ApplicationForm.tsx:79-88 | the entries depend only on the inputs listed |
| ApplicationForm.MissingSlots | src/components/ApplicationForm.tsx:89-92 | every entry belongs to an empty listed slot and reads `Required` |
| ApplicationForm.MissingSlotsComplete | src/components/ApplicationForm.tsx:89-92 | every empty listed slot has its entry |
| ApplicationForm.MissingSlotsFrame | src/components/ApplicationForm.tsx:89-92 | the entries depend only on the slots listed |
| ApplicationForm.StepOneInOrder | src/components/ApplicationForm.tsx:79-83 | the step-1 checks are the generic check of its four inputs |
| ApplicationForm.StepTwoInOrder | src/components/ApplicationForm.tsx:84-88 | the step-2 checks are the generic check of its four inputs |
| ApplicationForm.StepThreeInOrder | src/components/ApplicationForm.tsx:89-92 | the step-3 checks are the generic check of the three required slots |
| ApplicationForm.StepOneRules | src/components/ApplicationForm.tsx:79-83 | `ExpectedErrors` for step 1: step 1 passes iff business name, phone, address and tax id are filled in; each empty one gives exactly one entry under its own key, and there are no others |
| ApplicationForm.StepTwoRules | src/components/ApplicationForm.tsx:84-88 | `ExpectedErrors` for step 2: step 2 passes iff the owner's names, e-mail and SSN are filled in; each empty one gives exactly one entry under its own key |
| ApplicationForm.StepThreeRules | src/components/ApplicationForm.tsx:89-92 | `ExpectedErrors` for step 3: step 3 passes iff the three required documents are present; each missing one gives exactly one entry under its own key |
| ApplicationForm.DocumentsStepPassed | src/components/ApplicationForm.tsx:89-92 | passing the documents step provides the required documents that the handlers dereference |
| ApplicationForm.AdditionalNeverChecked | src/components/ApplicationForm.tsx:89-92 | the additional document never affects any step's check |
| ApplicationForm.OtherStepsInputs | src/components/ApplicationForm.tsx:77-95 | a step's check ignores the inputs of other steps |
| ApplicationForm.ClearError | src/components/ApplicationForm.tsx:69 | editing empties that key's error and leaves every other entry and the key set untouched |
| ApplicationForm.IntakeForm.constructor | src/components/ApplicationForm.tsx:39-64 | the form starts at step 1 with empty inputs, no files, no errors and the box unticked |
| ApplicationForm.IntakeForm.HandleInputChange | src/components/ApplicationForm.tsx:66-70 | exactly that input changes, only its error is cleared, and the step invariant is kept |
| ApplicationForm.IntakeForm.HandleFileChange | src/components/ApplicationForm.tsx:72-75 | exactly that slot changes, only its error is cleared, and the step invariant is kept |
| ApplicationForm.IntakeForm.ToggleAgree | src/components/ApplicationForm.tsx:294 | the acceptance flag flips and the step invariant is kept |
| ApplicationForm.IntakeForm.ValidateStep | src/components/ApplicationForm.tsx:77-98 | the error map is replaced by exactly the current step's failures, and the result is true iff there are none |
| ApplicationForm.IntakeForm.Back | src/components/ApplicationForm.tsx:305-307 | from step 2 on it goes back one step without validating and keeps `1 <= step <= 4` |
| ApplicationForm.IntakeForm.HandleSubmit | src/components/ApplicationForm.tsx:136-184 | the backend sees the pipeline's calls; success goes to `/dashboard?success=true`; failure replaces the errors with exactly the single `form` entry; the loader ends off |
| ApplicationForm.IntakeForm.FinishSubmit | src/components/ApplicationForm.tsx:108-133 | the record and the files go to the hosting page's handler when there is one, and to the form's own submission otherwise; the loader ends off |
| ApplicationForm.IntakeForm.Advance | src/components/ApplicationForm.tsx:101-106 | a failing step stays with its errors; a passing step before 4 advances by one; a passing step 4 asks for submission |
| ApplicationForm.IntakeForm.HandleNext | src/components/ApplicationForm.tsx:100-134 | on failure only the error map changes; before step 4 it advances by one with no request; at step 4 it submits, through the host or by itself; the step never passes 4 |
| AdminDashboard.ApplyUpdate | src/app/admin/dashboard/page.tsx:79-81 | every entry with the id gets the new status and keeps its other fields; other entries, the length and the order are unchanged |
| AdminDashboard.ApplyUpdateRepeat | src/app/admin/dashboard/page.tsx:246-249 | choosing the current status again changes nothing more |
| AdminDashboard.ApplyUpdateLastWins | src/app/admin/dashboard/page.tsx:246-249 | any status can follow any other, and the last choice is what the list shows |
| AdminDashboard.UpdateSelected | src/app/admin/dashboard/page.tsx:83-87 | the selected application follows the update only when its id is the one updated |
| AdminDashboard.CountStatus | src/app/admin/dashboard/page.tsx:99-100 | a status count never exceeds the list length |
| AdminDashboard.StatusCountsPartition | src/app/admin/dashboard/page.tsx:97-101 | each application is in exactly one status: the three counts add up to the length |
| AdminDashboard.FilterCountsPending | src/app/admin/dashboard/page.tsx:99 | the pending filter's length is the number of pending applications |
| AdminDashboard.FilterCountsApproved | src/app/admin/dashboard/page.tsx:100 | the approved filter's length is the number of approved applications |
| AdminDashboard.ComputeStats | src/app/admin/dashboard/page.tsx:97-101 | the total is the length; pending and approved are the per-status counts; these sum to at most the total; the rest are the rejected ones |
| AdminDashboard.UpdateRaisesCount | src/app/admin/dashboard/page.tsx:79-81 | setting a status never lowers the number of applications in it |
| AdminDashboard.UpdateMovesOne | src/app/admin/dashboard/page.tsx:79-81 | for an id listed once with another status, an update moves exactly one application into the new status |
| AdminDashboard.UnlistedUnchanged | src/app/admin/dashboard/page.tsx:79-81 | an update for an id that is not listed changes nothing |
| AdminDashboard.AdminDashboardPage.constructor | src/app/admin/dashboard/page.tsx:37-39 | the page starts with no applications, nothing selected and the loader on |
| AdminDashboard.AdminDashboardPage.FetchApps | src/app/admin/dashboard/page.tsx:41-51 | the fetch is requested; without error the list becomes the rows returned (none when null); an error keeps the list; the loader is cleared either way |
| AdminDashboard.AdminDashboardPage.CheckAdminAndLoad | src/app/admin/dashboard/page.tsx:53-69 | with no user nothing happens; without an admin row it goes home and fetches nothing; with one it fetches |
| AdminDashboard.AdminDashboardPage.Review | src/app/admin/dashboard/page.tsx:170 | reviewing a row selects that application |
| AdminDashboard.AdminDashboardPage.CloseReview | src/app/admin/dashboard/page.tsx:203 | closing clears the selection |
| AdminDashboard.AdminDashboardPage.UpdateStatus | src/app/admin/dashboard/page.tsx:71-91 | the update is requested for any status; on success the list and the selection follow it; on error both are kept and the failure alert is shown |
| UserDashboard.StatusStyles | src/app/dashboard/page.tsx:46-53 | each of the three lower-cased statuses gets its own style, and every other string gets the default |
| UserDashboard.StatusStylesIgnoreCase | src/app/dashboard/page.tsx:47 | the pill does not depend on letter case |
| UserDashboard.LowerOfLower | src/app/dashboard/page.tsx:47 | a string without upper-case letters is its own lower-case form |
| UserDashboard.StoredStatusStyles | src/app/dashboard/page.tsx:48-50 | the stored pending, approved and rejected statuses get the pending, approved and rejected styles |
| UserDashboard.IndicatorColour | src/app/dashboard/page.tsx:178-183 | emerald exactly for `approved`, rose exactly for `rejected`, amber for everything else, compared without lower-casing |
| UserDashboard.IndicatorClass | src/app/dashboard/page.tsx:178-183 | the halo uses shade 400 and the solid dot shade 500 of the indicator's colour |
| UserDashboard.PillAndIndicatorDiffer | src/app/dashboard/page.tsx:176-183 | every spelling of `approved` other than the stored one gets the approved pill but an amber indicator, because only the pill lower-cases |
| UserDashboard.ApprovedInCapitals | src/app/dashboard/page.tsx:47 | `APPROVED` lower-cases to `approved`, so it is such a spelling |
| UserDashboard.Title | src/app/dashboard/page.tsx:161 | the title is the business name if truthy, else the DBA name if truthy, else `Merchant Business`, and never empty |
| UserDashboard.RefLabel | src/app/dashboard/page.tsx:165 | the label is the id's first eight characters (all of a shorter id), upper-cased, with no lower-case letter left |
| UserDashboard.RefLabelPrefix | src/app/dashboard/page.tsx:165 | ids that share their first eight characters get the same label |
| UserDashboard.UserDashboardPage.constructor | src/app/dashboard/page.tsx:25-26 | the page starts with no applications and the loader on |
| UserDashboard.UserDashboardPage.LoadData | src/app/dashboard/page.tsx:28-38 | with no user nothing happens; otherwise that user's rows are requested and shown (none when null) and the loader is cleared |

## Left out

- Backend calls. These are authentication, storage upload, `getPublicUrl`, select, insert, update, `maybeSingle` and exact counts. Each becomes its reply, passed in as a parameter or fixed in `HostedBackend.Store`. The supabase-js client's implementation is not part of this model.
- `Promise.all` concurrency in the upload step. Submission.FirstFailure reports the first failure in issue order. The running code reports whichever upload rejects first in time, and this model has no timing. Every upload is issued in both.
- Submission.FirstUploadFailure: reports the first failure in issue order; `Promise.all` rejects with whichever upload fails first in time.
- Timers. This covers the ten-second polling of the applicant dashboard, the two-second redirect after a successful submission and the global loader's timer.
- Submission.UploadPaths: one clock reading `now` stamps all four upload paths. In the code each `uploadFile` call reads `Date.now()` itself, so the paths of one submission may carry different timestamps when the calls straddle a millisecond.
- Clock and date formatting. `Date.now()` and `toISOString()` become the `now` parameters. `toLocaleDateString` and the other rendering are not modelled.
- The stepper's progress percentage (floating-point presentation) and all markup are not modelled.
- The regular expression in `generatePath`. Its character class is stated directly as `DbOperations.IsSafeChar`.
- `generatePath` itself takes the timestamp as a parameter instead of reading the clock.
- Strings.Lower: lower-cases only the ASCII letters; `toLowerCase` maps all of Unicode and can lengthen a string (`'İ'` gives two code units).
- Strings.Upper: upper-cases only the ASCII letters; `toUpperCase` maps all of Unicode and can lengthen a string (`'ß'` gives `"SS"`).
- UserDashboard.RefLabel: takes the first eight characters. JavaScript's `slice` takes eight UTF-16 code units, which differs only for ids outside the Basic Multilingual Plane.
- DbOperations.ApplyStatusUpdate: an absent `adminNotes` is modelled as leaving the stored note as it was, because JSON drops `undefined` fields from the request body.
- `updateStatus`'s `select().single()` reply and the error wrapping are not modelled.
- Other data-layer operations are not modelled: `submissionOps.create`, `getById` and `getByUserId`, `messageOps.create`, `getByUserId` and `getBySubmissionId`, `fileOps.uploadDocument` and `deleteDocument`. Each is a single backend call plus error wrapping, with no logic of its own to state.
- Thrown errors in the data layer (`throw new Error(...)`) are not modelled. The `getAll` model states only the requested range and the rows it selects.
- The order of fetched rows (`created_at` descending) is the backend's, so the model takes the rows in the order given.
- ApplicationForm.IntakeForm.HandleInputChange: requires the input to belong to the current step, because only that step's inputs are rendered. The handler itself accepts any name.
- ApplicationForm.IntakeForm.HandleFileChange: requires step 3, for the same reason.
- ApplicationForm.IntakeForm.HandleSubmit: requires the three required files to be present. The `!` only asserts them non-null; the dereference is `file.name` inside `uploadFile` (ApplicationForm.tsx:143), which would throw on a missing file.
- SubmitApplication.SubmitApplicationPage.HandleFinalSubmit: requires the same. A missing file would throw a `TypeError` inside the handler, and both callers reach the handler only after the documents step has passed.
- ApplicationForm.IntakeForm.HandleNext: does not model the `catch` around the submission (ApplicationForm.tsx:129-130). Both handlers catch their own errors, so it is never reached.
- DbOperations.CountByStatus: the store's count replies are a function of the status. Repeated queries are assumed to answer the same way.
- The correspondence between the camelCase input names and the snake_case column names is a fixed table (`ApplicationForm.CamelKey`, `ApplicationForm.SnakeKey`). It is not derived by a case conversion.
- The navigation bar duplicates `isAdminEmail` and is not modelled. The same goes for the login form, the authentication hook and the presentational pages.
- The admin page's `useAuth` loading guard is not modelled. The admin lookup's `maybeSingle` is modelled only as "a row" or "no row": an error reply reads as no row, as the code's `if (!admin)` does.
- The Back and Next buttons are disabled while `loading` is set (ApplicationForm.tsx:308, 316). This guard is not modelled. Each handler runs to completion in this model, and `loading` is false again between calls, so the guard never blocks a call here.
