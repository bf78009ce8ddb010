# Portfolio admin data pipeline, in Dafny

This project models the admin back office of a Next.js portfolio site and
proves properties of that model. The admin area edits four kinds of
portfolio data: projects, work experience, skills and certifications. The
model covers these parts of it:

- **Bulk JSON import routes** (`POST /api/admin/<kind>/import`). Each one
  checks the session and the body's shape, then queries the ids that already
  exist. It then loops over the records in input order. For each record it
  normalises camelCase aliases with JavaScript's `||`, checks the required
  fields, checks for a duplicate id against the ids found before the loop,
  and applies the kind's own rule (a non-empty `technologies` array for
  projects, a proficiency from 0 to 100 for skills). A record that passes is
  inserted and gets one `CREATE` row in `audit_log`. The route answers with
  `{ success, imported, failed, errors, duplicates }` and status 201 or 207.
  - `ImportPipeline` holds the loop shared by the four routes. `Fold` is the
    loop as a function, `RunImport` and `ImportRecord` are the loop over a
    `Store.Table` and a `Store.AuditLog`, and `Post` is the handler.
  - `ProjectsImport`, `ExperienceImport`, `SkillsImport` and
    `CertificationsImport` hold each route's normaliser, required fields,
    per-record checks and inserted row.
- **Single-create and list routes** for certifications, experience and
  skills (`AdminRoutes`): `GET` returns the table in the route's `ORDER BY`;
  `POST` checks the required fields in order, inserts the body as it is,
  and writes one audit row.
- **The database as the routes see it** (`Store`). A table is a class whose
  rows the inserts append to. Its constraints and failures are a
  `TableRules` value, except the primary key on `id`, which is modelled
  explicitly. The audit log is a second class.
- **The Redux slices**:
  - `EntitySlices`: the `{ items, loading, error }` state machine of the four
    entity slices, and what their thunks resolve or reject with;
  - `UiSlice`: the toast list and the global loading flag.
- **Client pages and components**:
  - `ImportPage`: the JSON import page, which shapes the payload, reads the
    reply and schedules the redirect;
  - `ArrayInput`: the list input;
  - `ProjectForm`, `ExperienceForm` (current and older version),
    `CertificationForm` and `SkillForm`: the "new" forms and their submit
    bodies, with the rules they share in `FormCommon`;
  - `SkillsPage`: grouping by category and the sort inside each group;
  - `CertificationsPage`: the sorted copy and the expiry badge;
  - `ConfirmDialog`: the confirmation-dialog hook;
  - `PageHeader`: the path-to-header table;
  - `Animation`: the animation-variant pickers.
- **Authentication**:
  - `Auth`: the NextAuth `authorize`, `jwt`, `session` and `authorized`
    callbacks;
  - `SeedAdmin`: the script that creates the first administrator.

`Json` gives untyped JSON JavaScript's truthiness, so `!x` reads as
`!Truthy(x)` and `x || y` as `Or(x, y)`. `Text`, `Lists` and `Sorting` model
the standard-library operations the code calls:
- `trim`, `toLowerCase` and `join`;
- `filter` and `findIndex`;
- the stable `Array.prototype.sort`, both as a function and as an in-place
  insertion sort on an `array`.

Network calls, bcrypt, `JSON.parse`, the clock and the database's own
decisions are parameters, and the properties hold for every value of them.
The database is constrained in two ways only: the primary key on `id`
refuses an id that is already taken, and a row sent with an `id` is stored
under that `id`. What else the database stores for a row (column
defaults, timestamps, values coerced to the column types) is the
parameter `TableRules.fill`.

Some behaviours of the code that the model keeps as they are written:
- The skills importer checks a `proficiency` from 0 to 100. The skills
  form offers a `proficiency_level` from 1 to 5, and the `skills` table
  types `proficiency_level` as a number or null, with no range.
- The skills importer inserts the columns `name`, `proficiency`,
  `years_of_experience` and `description`. The `skills` table in
  lib/supabase/database.types.ts has none of them, and its inserts require
  `skill_name`. The model keeps the importer's row as written; whether the
  database refuses it is up to `TableRules.rejectInsert`.
- Required fields are truthiness tests, so a skill with proficiency `0` is
  reported as missing (`SkillsImport.ZeroProficiencyIsMissing`).
- The experience importer does not require `technologies`.
- The single-create experience route accepts an empty `technologies` array,
  because arrays are truthy.
- On the import page, `!res.ok && res.status !== 207` lets every 2xx status
  through, so its `status !== 207` test never decides anything.
- The skills list route orders by category first, then by `display_order`.

## Model

| member | source | states |
|---|---|---|
| ImportCommon.Missing | app/api/admin/projects/import/route.ts:79 | a field is reported exactly when it is required and falsy in the normalised record |
| ImportCommon.NoneMissing | app/api/admin/projects/import/route.ts:79-88 | the missing list is empty exactly when every required field is truthy |
| ImportCommon.Aliased | app/api/admin/projects/import/route.ts:54-70 | `record[key] \|\| record[alias]`: the snake_case key when it is truthy, otherwise the camelCase alias |
| ImportCommon.MissingInOrder | app/api/admin/projects/import/route.ts:79-84 | missing fields are listed in the order of the required list |
| ImportCommon.ElementTexts | app/api/admin/projects/import/route.ts:97 | an array id renders one text per element in the duplicate message |
| ProjectsImport.Decide | app/api/admin/projects/import/route.ts:79-113 | a record is inserted iff every required field is truthy, it is not a skipped duplicate, and `technologies` is a non-empty array; otherwise the first failing check in source order gives the error; an existing id is always flagged as a duplicate once required fields pass |
| ProjectsImport.InsertedRowPassedChecks | app/api/admin/projects/import/route.ts:79-131 | a row reaches the insert only with every required column present, truthy and equal to the normalised field, with a non-empty `technologies` array, and with an existing id only when duplicates are not skipped; `image_url` is never inserted |
| ProjectsImport.InsertedValues | app/api/admin/projects/import/route.ts:54-131 | `end_date` is null for a current project, else the date or its alias or null; `current` defaults to false; `highlights` to `[]`; URLs to null; `display_order` to 0; snake_case keys win over aliases |
| ExperienceImport.Decide | app/api/admin/experience/import/route.ts:77-100 | inserted iff the five required fields are truthy and it is not a skipped duplicate; there is no technologies check; missing-field and duplicate errors as in the source |
| ExperienceImport.InsertedRowPassedChecks | app/api/admin/experience/import/route.ts:77-119 | a row reaches the insert only with the five required columns present, truthy and equal to the normalised fields, and with an existing id only when duplicates are not skipped; `achievements` is never inserted |
| ExperienceImport.InsertedValues | app/api/admin/experience/import/route.ts:54-119 | `end_date` is null when current; `technologies` and `responsibilities` default to `[]`; `location` to null; `display_order` to 0 |
| SkillsImport.Decide | app/api/admin/skills/import/route.ts:73-107 | inserted iff the required fields are truthy, `proficiency` is a number in [0,100] and it is not a skipped duplicate; the range check runs before the duplicate check and flags nothing |
| SkillsImport.ZeroProficiencyIsMissing | app/api/admin/skills/import/route.ts:73-93 | a proficiency of 0 is rejected as a missing field, not as out of range |
| SkillsImport.InsertedRowPassedChecks | app/api/admin/skills/import/route.ts:73-122 | a row reaches the insert only with the required columns present, truthy and equal to the normalised fields, a proficiency in (0, 100] because 0 is falsy, and an existing id only when duplicates are not skipped |
| SkillsImport.InsertedValues | app/api/admin/skills/import/route.ts:54-122 | `years_of_experience` comes from the key or its alias, else null; `description` defaults to null; `display_order` to 0 |
| CertificationsImport.Decide | app/api/admin/certifications/import/route.ts:75-98 | inserted iff the four required fields are truthy and it is not a skipped duplicate |
| CertificationsImport.IssueDateAlias | app/api/admin/certifications/import/route.ts:59 | `issue_date` is missing iff both `issue_date` and `issueDate` are falsy |
| CertificationsImport.InsertedRowPassedChecks | app/api/admin/certifications/import/route.ts:75-115 | a row reaches the insert only with the four required columns present, truthy and equal to the normalised fields, and with an existing id only when duplicates are not skipped |
| CertificationsImport.InsertedValues | app/api/admin/certifications/import/route.ts:54-115 | expiry date, credential id and URL, and description are null when falsy; their aliases are read when the key is falsy |
| Store.InsertOutcome | app/api/admin/projects/import/route.ts:116-133 | an id already in the table is refused with the primary-key message; an accepted row is what the database makes of the sent row, stored under the id it was sent with, or a generated one, that no other row has |
| Store.IdsIn | app/api/admin/projects/import/route.ts:45-51 | the query returns exactly the asked-for ids present in the table, or fails as the database decides |
| Store.Table.Insert | app/api/admin/projects/import/route.ts:116-133 | the table gains the stored row on success and is unchanged on failure |
| Store.Table.SelectOrdered | app/api/admin/certifications/route.ts:16-24 | the result is every row exactly once, ascending by the order, or the database's error |
| Store.AuditLog.Append | app/api/admin/projects/import/route.ts:146-152 | the log gains exactly the new entry at its end |
| Store.ValueLeTotal | app/api/admin/skills/route.ts:16-20 | any two column values compare under `ORDER BY ... ASC` |
| Store.ValueLeTransitive | app/api/admin/skills/route.ts:16-20 | the column order is transitive |
| Store.ByDisplayOrderIsTotalPreorder | app/api/admin/certifications/route.ts:16-19 | ordering by `display_order` is a total preorder |
| Store.ByCategoryThenDisplayOrderIsTotalPreorder | app/api/admin/skills/route.ts:16-20 | ordering by category, then `display_order`, is a total preorder |
| Store.CategoryThenDisplayOrderSorted | app/api/admin/skills/route.ts:16-20 | rows in that order have ascending categories, and ascending display orders within one category |
| ImportPipeline.StepShape | app/api/admin/projects/import/route.ts:74-162 | one record either fails (one error entry with its index and raw data; rows and log untouched) or inserts (one row and its CREATE entry) |
| ImportPipeline.FoldCounts | app/api/admin/projects/import/route.ts:73-163 | `imported + failed` equals the number of records; `errors.length == failed`; one new row and one audit row per import |
| ImportPipeline.FoldErrorIndices | app/api/admin/projects/import/route.ts:73-163 | each error entry carries the record at its index, and indices strictly increase |
| ImportPipeline.FoldAudit | app/api/admin/projects/import/route.ts:145-154 | existing rows and log entries are kept, and the log gains one CREATE entry per new row, in the same order, with the stored row as `new_data` |
| ImportPipeline.FoldFailures | app/api/admin/projects/import/route.ts:77-162 | record i has an error entry iff its checks reject it or the table refuses its row, given the rows inserted before it |
| ImportPipeline.FoldErrorKinds | app/api/admin/projects/import/route.ts:79-143 | a rejected record fails with its check's error; a record that passed fails only with the table's message |
| ImportPipeline.FoldDuplicates | app/api/admin/projects/import/route.ts:90-102 | `duplicates` holds exactly the ids the checks flagged |
| ImportPipeline.DuplicatesStep | app/api/admin/projects/import/route.ts:91-92 | one more record adds its flagged id, if any, to the duplicates |
| ImportPipeline.RowsGrow | app/api/admin/projects/import/route.ts:116-133 | a row inserted at one step is still in the table at every later step |
| ImportPipeline.RepeatedIdFails | app/api/admin/projects/import/route.ts:44-51 | the existing-id set is not updated in the loop, but a batch holding one id twice still inserts it at most once, because of the primary key |
| ImportPipeline.ExistingIds | app/api/admin/projects/import/route.ts:44-51 | every id in the set is truthy, in the batch and in the table; a successful query finds every such id |
| ImportPipeline.ImportRecord | app/api/admin/projects/import/route.ts:74-162 | the loop body changes result, table and log exactly as `Step` says |
| ImportPipeline.RunImport | app/api/admin/projects/import/route.ts:73-166 | the loop computes `Fold`, and `success` is `failed == 0` |
| ImportPipeline.ImportedStatus | app/api/admin/projects/import/route.ts:165-168 | the status is 201 iff no record failed, otherwise 207 |
| ImportPipeline.ResponseJson | app/api/admin/projects/import/route.ts:17-178 | every answer is an object; a finished import sends the result object with no `error`, and every refusal sends a text `error` |
| ImportPipeline.Post | app/api/admin/projects/import/route.ts:14-179 | 401 without a session; 400 for a non-JSON or null body, a missing record array, or a null record, and then nothing is written; otherwise the result of the loop over the records |
| ImportPage.ShapePayload | components/admin/json-import-page.tsx:72-90 | unparseable text gives the JSON error; the text `null` gives the TypeError of reading a property of `null`; a top-level array is wrapped under the plural key; an object with an array under that key is sent as it is; any other shape gives the format error; `skipDuplicates` is always set from the checkbox |
| ImportPage.ShapedPayloadAccepted | components/admin/json-import-page.tsx:79-90 | every body the page sends passes the route's shape check and carries the user's records and `skipDuplicates` flag |
| ImportPage.ReadReply | components/admin/json-import-page.tsx:99-113 | the result is shown iff the reply is 2xx with a JSON body that is not `null`; a `null` body ends in the TypeError thrown at `data.success`; otherwise the body's error or "Failed to import ..." |
| ImportPage.RouteAnswersRead | components/admin/json-import-page.tsx:99-105 | against the route's own bodies, the page shows the result for 201 and 207, and the route's message ("Unauthorized", the format message, "Failed to parse import data") for 401 and 400 |
| ImportPage.RedirectExactlyOnCleanImport | components/admin/json-import-page.tsx:108-112 | against the route's result, a redirect is scheduled iff no record failed and at least one was imported |
| ImportPage.ImportLabel | components/admin/json-import-page.tsx:267 | "Importing..." while loading, else "Import " and the capitalised plural |
| ImportPage.Page.constructor | components/admin/json-import-page.tsx:36-41 | initially not loading, empty input, no result or error, `skipDuplicates` on |
| ImportPage.Page.HandleFileUpload | components/admin/json-import-page.tsx:43-63 | a non-JSON file only sets the error; a JSON file replaces the input and clears the error |
| ImportPage.Page.HandleImport | components/admin/json-import-page.tsx:65-118 | loading ends false; a shaping or reading error leaves no result and shows the message; a read result is kept, and the redirect is scheduled iff `data.success` is truthy and `data.imported > 0` under JavaScript's number conversion |
| Text.Capitalize | components/admin/json-import-page.tsx:121 | only the first character changes, to its upper case |
| Text.Trim | components/admin/array-input.tsx:30 | the result is the infix left after removing leading and trailing whitespace |
| Text.TrimEmpty | components/admin/array-input.tsx:30 | the trimmed text is empty iff the input is all whitespace |
| Text.ToLower | app/admin/projects/new/page.tsx:88 | each character is mapped to its lower case |
| ArrayInput.Added | components/admin/array-input.tsx:29-34 | the trimmed input is appended iff it is non-empty and not yet listed |
| ArrayInput.WithoutItem | components/admin/array-input.tsx:36-38 | exactly the entries different from the item remain |
| ArrayInput.AddedNoDuplicates | components/admin/array-input.tsx:29-34 | a list without duplicates keeps none after an add |
| ArrayInput.WithoutItemNoDuplicates | components/admin/array-input.tsx:36-38 | a list without duplicates keeps none after a removal |
| ArrayInput.RemoveUndoesAdd | components/admin/array-input.tsx:29-38 | removing an entry just added gives back the list |
| ArrayInput.WithoutItemKeepsOrder | components/admin/array-input.tsx:36-38 | removal keeps the order of the entries that stay |
| ArrayInput.ListInput.constructor | components/admin/array-input.tsx:27 | the text box starts empty |
| ArrayInput.ListInput.AddItem | components/admin/array-input.tsx:29-34 | the list becomes `Added`; the box is cleared only when the entry was added |
| ArrayInput.ListInput.RemoveItem | components/admin/array-input.tsx:36-38 | the list becomes `WithoutItem`, the box is unchanged |
| ArrayInput.ListInput.HandleKeyPress | components/admin/array-input.tsx:40-45 | Enter adds as `addItem` does, clearing the box exactly when the entry was accepted; any other key changes nothing |
| AdminRoutes.OrderingIsTotalPreorder | app/api/admin/skills/route.ts:16-20 | each route's `ORDER BY` is a total preorder |
| AdminRoutes.ResponseBody | app/api/admin/certifications/route.ts:35-79 | a refusal carries `{ error }`, a list its rows, a created row itself |
| AdminRoutes.FirstMissing | app/api/admin/certifications/route.ts:46-51 | none iff every required field is truthy; otherwise the first falsy one |
| AdminRoutes.FirstMissingIsFirstOfMissing | app/api/admin/certifications/route.ts:47-51 | the create route reports the first field that the import's filter would list |
| AdminRoutes.PassedCheckIsObject | app/api/admin/certifications/route.ts:47-51 | a body that passes a non-empty check is an object |
| AdminRoutes.CheckRequired | app/api/admin/certifications/route.ts:47-51 | the loop returns the first missing field |
| AdminRoutes.HandleGet | app/api/admin/certifications/route.ts:6-31 | 401 without a session; 500 with the database's message; else every row in the route's order |
| AdminRoutes.HandlePost | app/api/admin/certifications/route.ts:34-80 | 401 without a session; 500 for an unreadable or null body; 400 naming the first missing field; 500 with the insert error; else 201 with the stored row, one row appended and one CREATE entry logged; nothing written unless created |
| AdminRoutes.RepostMeetsPrimaryKey | app/api/admin/certifications/route.ts:54-75 | a row created from a body with an id keeps that id, so posting the same body again is refused by the primary key, whatever else the database filled in |
| EntitySlices.Removed | lib/redux/slices/projectsSlice.ts:163 | exactly the items with another id remain |
| EntitySlices.Replaced | lib/redux/slices/projectsSlice.ts:146-149 | the length is kept; the first item with the payload's id is overwritten; with no match nothing changes |
| EntitySlices.ReplacedKeepsIds | lib/redux/slices/projectsSlice.ts:144-150 | an update never changes which ids are cached, nor where |
| EntitySlices.DeleteUndoesCreate | lib/redux/slices/projectsSlice.ts:130-164 | deleting the id of a row just created gives back the cache |
| EntitySlices.RemovedIdempotent | lib/redux/slices/projectsSlice.ts:161-164 | deleting twice is deleting once |
| EntitySlices.EntitySlice.constructor | lib/redux/slices/projectsSlice.ts:24-28 | no items, not loading, no error |
| EntitySlices.EntitySlice.Pending | lib/redux/slices/projectsSlice.ts:112-115 | loading, error cleared, items unchanged |
| EntitySlices.EntitySlice.Rejected | lib/redux/slices/projectsSlice.ts:120-123 | not loading, error set, items unchanged |
| EntitySlices.EntitySlice.FetchFulfilled | lib/redux/slices/projectsSlice.ts:116-119 | items replaced by the payload |
| EntitySlices.EntitySlice.CreateFulfilled | lib/redux/slices/projectsSlice.ts:130-133 | the payload appended at the end |
| EntitySlices.EntitySlice.UpdateFulfilled | lib/redux/slices/projectsSlice.ts:144-150 | items become `Replaced` |
| EntitySlices.EntitySlice.DeleteFulfilled | lib/redux/slices/projectsSlice.ts:161-164 | items become `Removed` |
| EntitySlices.EntitySlice.ClearError | lib/redux/slices/projectsSlice.ts:106-108 | only the error changes, to none |
| EntitySlices.ProjectsSlice | lib/redux/slices/projectsSlice.ts:102-104 | a fresh slice named "projects" in the initial state |
| EntitySlices.ExperienceSlice | lib/redux/slices/experienceSlice.ts:102-104 | a fresh slice named "experience" in the initial state |
| EntitySlices.SkillsSlice | lib/redux/slices/skillsSlice.ts:96-98 | a fresh slice named "skills" in the initial state |
| EntitySlices.CertificationsSlice | lib/redux/slices/certificationsSlice.ts:99-101 | a fresh slice named "certifications" in the initial state |
| EntitySlices.FetchThunk | lib/redux/slices/projectsSlice.ts:31-43 | resolves with the body iff the reply is OK and parses; a non-OK reply rejects with "Failed to fetch ..." |
| EntitySlices.SaveThunk | lib/redux/slices/projectsSlice.ts:45-64 | resolves with the body iff OK; a non-OK reply rejects with the body's error, or "Failed to create/update ..." when it is falsy |
| EntitySlices.DeleteThunk | lib/redux/slices/projectsSlice.ts:87-100 | resolves with the id it was given iff OK, else rejects with "Failed to delete ..." |
| UiSlice.WithoutToast | lib/redux/slices/uiSlice.ts:34-36 | exactly the toasts with another id remain |
| UiSlice.RemoveUndoesAdd | lib/redux/slices/uiSlice.ts:27-36 | removing a toast just added under a fresh id gives back the list |
| UiSlice.RemoveKeepsOrder | lib/redux/slices/uiSlice.ts:34-36 | removal keeps the other toasts in order |
| UiSlice.Ui.constructor | lib/redux/slices/uiSlice.ts:15-18 | not loading, no toasts |
| UiSlice.Ui.SetGlobalLoading | lib/redux/slices/uiSlice.ts:24-26 | only the flag changes |
| UiSlice.Ui.AddToast | lib/redux/slices/uiSlice.ts:27-33 | one toast with the payload and the id appended at the end |
| UiSlice.Ui.RemoveToast | lib/redux/slices/uiSlice.ts:34-36 | the toasts become `WithoutToast`, the flag is unchanged |
| UiSlice.Ui.ClearToasts | lib/redux/slices/uiSlice.ts:37-39 | no toasts, the flag is unchanged |
| FormCommon.NullIfEmpty | app/admin/certifications/new/page.tsx:34-37 | `s \|\| null` is truthy iff `s` is non-empty, and is then `s` |
| FormCommon.EndDateValue | app/admin/projects/new/page.tsx:50 | null iff current or the date is empty, else the date |
| FormCommon.SetCurrent | app/admin/projects/new/page.tsx:150-156 | the checkbox handler of both forms: `current` becomes the box's value; checking clears the date, unchecking keeps it |
| FormCommon.CheckedThenSubmittedIsNull | app/admin/projects/new/page.tsx:50-156 | after the box was checked the submitted `end_date` is null, whatever the box does next until a date is typed; unchecking submits the earlier date, or null when it is empty |
| FormCommon.Strings | app/admin/experience/new/page.tsx:43-44 | a string list is sent element by element as a JSON array |
| FormCommon.SubmitError | app/admin/projects/new/page.tsx:54-62 | no message iff the reply is OK; otherwise the body's error, or the form's failure text when that is falsy |
| FormCommon.SubmitShowsRouteMessage | app/admin/certifications/new/page.tsx:41-49 | against the create route, the form moves on iff the row was created, and otherwise shows the route's message |
| FormCommon.Submission.constructor | app/admin/projects/new/page.tsx:21-22 | not loading, no error |
| FormCommon.Submission.HandleSubmit | app/admin/projects/new/page.tsx:39-64 | success navigates to the list and stays loading; failure shows the message and stops loading |
| ProjectForm.DashRuns | app/admin/projects/new/page.tsx:88 | every whitespace run becomes '-', so no whitespace remains; text without whitespace is unchanged |
| ProjectForm.ToLowerNoUpper | app/admin/projects/new/page.tsx:88 | lower-casing leaves no upper-case letter and fixes text that has none |
| ProjectForm.Slug | app/admin/projects/new/page.tsx:88 | the formatted id has no whitespace and no upper-case letter |
| ProjectForm.SlugIdempotent | app/admin/projects/new/page.tsx:88 | formatting a formatted id changes nothing |
| ProjectForm.SubmitBody | app/admin/projects/new/page.tsx:48-51 | the twelve form fields, with `end_date` null when current or empty and every other field as typed |
| ProjectForm.SubmittedIdHasNoSpace | app/admin/projects/new/page.tsx:88 | an id typed through the field is submitted without whitespace |
| ExperienceForm.SubmitBody | app/admin/experience/new/page.tsx:43-46 | the eleven fields, `end_date` as above, the lists as JSON arrays |
| ExperienceForm.SubmitBodyPassesRoute | app/api/admin/experience/route.ts:46-51 | the route accepts the body iff company, position and start date are filled, since any array passes; otherwise it names the first empty one |
| ExperienceForm.OldExperiencePage.constructor | app/admin/experience/new/page_old.tsx:12-31 | the initial form, empty boxes, not loading |
| ExperienceForm.OldExperiencePage.AddTechnology | app/admin/experience/new/page_old.tsx:60-65 | only `technologies` is updated, by `Added`; only its box is cleared, and only on success |
| ExperienceForm.OldExperiencePage.RemoveTechnology | app/admin/experience/new/page_old.tsx:67-69 | only `technologies` changes, by `WithoutItem` |
| ExperienceForm.OldExperiencePage.AddResponsibility | app/admin/experience/new/page_old.tsx:71-76 | only `responsibilities` and its box change, as for technologies |
| ExperienceForm.OldExperiencePage.RemoveResponsibility | app/admin/experience/new/page_old.tsx:78-80 | only `responsibilities` changes |
| ExperienceForm.OldExperiencePage.AddAchievement | app/admin/experience/new/page_old.tsx:82-87 | only `achievements` and its box change |
| ExperienceForm.OldExperiencePage.RemoveAchievement | app/admin/experience/new/page_old.tsx:89-91 | only `achievements` changes |
| ExperienceForm.OldExperiencePage.SetCurrentChecked | app/admin/experience/new/page_old.tsx:222 | only the form's `current` and `end_date` change, by `SetCurrent`; the boxes and loading flag are kept |
| ExperienceForm.AddedTechnologyEnablesSubmit | app/admin/experience/new/page_old.tsx:376 | the technology list is non-empty after an add iff it was before or the trimmed input is non-empty |
| CertificationForm.SubmitBody | app/admin/certifications/new/page.tsx:32-38 | the eight fields; each optional one is null when empty, else as typed |
| CertificationForm.SubmitBodyHasNoEmptyOptional | app/admin/certifications/new/page.tsx:34-37 | no optional field is sent as an empty string |
| CertificationForm.SubmitBodyPassesRoute | app/api/admin/certifications/route.ts:46-51 | the route accepts the body iff name, issuer and issue date are filled, else it names the first empty one |
| SkillForm.DigitRun | app/admin/skills/new/page.tsx:48 | the length of the leading run of digits |
| SkillForm.ParseInt | app/admin/skills/new/page.tsx:48 | `NaN` iff no digit follows the whitespace and the sign |
| SkillForm.ParseIntReadsIntText | app/admin/skills/new/page.tsx:48 | `parseInt` reads back the decimal text of every integer |
| SkillForm.ProficiencyLevelsParse | app/admin/skills/new/page.tsx:16-32 | option i reads as level i+1, and the default '3' is one of the options |
| SkillForm.SubmitBody | app/admin/skills/new/page.tsx:46-50 | the five fields; the level parsed (null for `NaN`); zero years sent as null |
| SkillForm.PickedLevelIsSent | app/admin/skills/new/page.tsx:48 | a level picked from the options is sent as the number it names |
| SkillForm.SubmitBodyPassesRoute | app/api/admin/skills/route.ts:47-52 | the route accepts the body iff a category and a name are given, else it names the first empty one |
| SkillForm.CategoriesAreNonEmpty | app/admin/skills/new/page.tsx:7-14 | the six category values are non-empty and distinct |
| SkillsPage.FirstOccurrencesMembers | app/admin/skills/page.tsx:55-61 | a category is listed iff some skill has it |
| SkillsPage.GroupedSizes | app/admin/skills/page.tsx:55-61 | the bucket sizes add up to the number of skills |
| SkillsPage.AddSkillCategories | app/admin/skills/page.tsx:56-59 | one step of the `reduce` keeps buckets in first-occurrence order |
| SkillsPage.AddSkillBucket | app/admin/skills/page.tsx:56-59 | one step puts the skill in its category's bucket and nowhere else |
| SkillsPage.GroupedMeaning | app/admin/skills/page.tsx:55-61 | one bucket per category, in first-occurrence order, each holding exactly its category's skills in input order |
| SkillsPage.GroupedCategories | app/admin/skills/page.tsx:55-61 | the bucket categories are distinct and are exactly the skills' categories |
| SkillsPage.FirstOccurrencesDistinct | app/admin/skills/page.tsx:56-57 | a category gets one bucket only |
| SkillsPage.FindGroup | app/admin/skills/page.tsx:56 | the position of the category's bucket, or -1 |
| SkillsPage.GroupSkills | app/admin/skills/page.tsx:55-61 | the `reduce` over `skills \|\| []` computes `Grouped` |
| SkillsPage.EmptyStateWhenNoGroups | app/admin/skills/page.tsx:71 | the empty state shows iff there is no bucket |
| SkillsPage.SortGroup | app/admin/skills/page.tsx:87-88 | the bucket is sorted by `display_order` |
| SkillsPage.RenderGroups | app/admin/skills/page.tsx:83-88 | every bucket in order, each one sorted |
| SkillsPage.RenderedGroupSorted | app/admin/skills/page.tsx:87-88 | a shown bucket is ascending, a permutation of its category's skills, and stable for equal orders |
| Sorting.SortByPermutation | app/admin/certifications/page.tsx:89-90 | the sort returns a permutation of its input |
| Sorting.SortBySorted | app/admin/certifications/page.tsx:89-90 | the sort returns its input in ascending order |
| Sorting.SortByStable | app/admin/certifications/page.tsx:89-90 | elements that compare equal keep their input order |
| Sorting.SortInPlace | app/admin/skills/page.tsx:87-88 | the in-place sort leaves the array equal to `SortBy` of its old contents |
| CertificationsPage.DisplayedIsSortedPermutation | app/admin/certifications/page.tsx:89-90 | the cards show every certification once, ascending by `display_order`, equal orders in store order |
| CertificationsPage.RenderList | app/admin/certifications/page.tsx:89-91 | the sorted copy is shown and the slice's own list is left alone |
| CertificationsPage.ExpiryIsPermanent | app/admin/certifications/page.tsx:64-67 | no date never expires, and an expired date stays expired |
| CertificationsPage.ExpiryBadge | app/admin/certifications/page.tsx:113-120 | "No Expiry" iff the date is falsy, "Expired" iff it has passed, else "Expires" |
| CertificationsPage.EmptyStateWhenNothingDisplayed | app/admin/certifications/page.tsx:77 | the empty state shows iff no card is shown |
| ConfirmDialog.ErrorFor | hooks/use-delete-confirmation.tsx:90-96 | the configured function if any, else the `Error`'s message, else the configured text |
| ConfirmDialog.DescriptionFor | hooks/use-delete-confirmation.tsx:100-115 | none without an item; a non-empty configured text or a function's text; the default text otherwise |
| ConfirmDialog.DeleteMessages | hooks/use-delete-confirmation.tsx:147-163 | success names the capitalised entity; failure shows the `Error`'s message or "Failed to delete ..." |
| ConfirmDialog.Dialog.constructor | hooks/use-delete-confirmation.tsx:47-64 | closed, no item, no toasts |
| ConfirmDialog.Dialog.OpenDialog | hooks/use-delete-confirmation.tsx:66-68 | open with the item |
| ConfirmDialog.Dialog.CloseDialog | hooks/use-delete-confirmation.tsx:70-72 | closed, no item |
| ConfirmDialog.Dialog.OnOpenChange | hooks/use-delete-confirmation.tsx:118 | closing from outside clears the dialog |
| ConfirmDialog.Dialog.HandleConfirm | hooks/use-delete-confirmation.tsx:74-98 | the handler alone: without an item nothing happens; else `onConfirm` gets the item; success toasts (if enabled) and calls `closeDialog`; failure toasts (if enabled) and does not call it |
| ConfirmDialog.Dialog.ClickAction | hooks/use-delete-confirmation.tsx:117-131 | a click on the Action button runs `handleConfirm` and the Action's own close; the dialog is closed after every click, also after a failed delete, and `onConfirm` and the toast follow the item that was open |
| ConfirmDialog.Dialog.GetDescription | hooks/use-delete-confirmation.tsx:100-101 | a description exactly when there is an item |
| PageHeader.SectionHeaders | components/admin/page-header-config.ts:33-161 | each section's list, "new" and edit pages get their headers |
| PageHeader.ListPageHeader | components/admin/page-header-config.ts:33-145 | a section's list page is titled with the section's name |
| PageHeader.NewPageHeader | components/admin/page-header-config.ts:54-153 | a "new" page gets "Add New ..." and a back link to its list |
| PageHeader.EditPageHeader | components/admin/page-header-config.ts:71-162 | every other path below a section gets "Edit ..." |
| PageHeader.DashboardGreeting | components/admin/page-header-config.ts:25-30 | "Welcome back, name!" with a name, "Welcome back!" without |
| PageHeader.ProjectsListActions | components/admin/page-header-config.ts:33-51 | Import JSON (secondary) then Add Project (primary) |
| PageHeader.HeaderExactlyOnAdminSections | components/admin/page-header-config.ts:23-165 | there is a header iff the path is the dashboard or a section's page |
| Animation.JsRem | lib/animation-utils.ts:82 | JavaScript's `%`: the remainder takes the dividend's sign |
| Animation.BandSize | lib/animation-utils.ts:80-88 | 4, 6 or 8 variants by screen width |
| Animation.EntranceVariantInBand | lib/animation-utils.ts:67-89 | for an index ≥ 0 the variant is `variants[index % 4]`, `[index % 6]` or `[index % 8]` by width |
| Animation.EntranceVariantPeriodic | lib/animation-utils.ts:80-89 | within a width band the variants repeat with the band's size |
| Animation.NegativeIndex | lib/animation-utils.ts:67-89 | a negative index gives a variant iff it is a multiple of the band size, and then "slideUp" |
| Animation.GetHoverVariant | lib/animation-utils.ts:93-109 | the tier follows the flag; a known element reads its own entry, any other reads the card's |
| Auth.Authorize | lib/auth/auth.config.ts:18-57 | "Missing credentials" iff either value is falsy; success iff a unique user is found and the password compares; success returns id, email and name only; every other failure is "Authentication failed" |
| Auth.FailuresLookAlike | lib/auth/auth.config.ts:26-56 | an unknown email and a wrong password give the same error |
| Auth.Jwt | lib/auth/auth.config.ts:61-68 | without a user the token is unchanged; with one its id, email and name are written and nothing else changes |
| Auth.Session | lib/auth/auth.config.ts:69-76 | with a token and a session user, the token's id, email and name are copied onto the user |
| Auth.SignInReachesSession | lib/auth/auth.config.ts:48-76 | after sign-in the session holds the user's id, email and name, and no password hash it did not already have |
| Auth.Authorized | lib/auth/auth.config.ts:77-92 | refused iff an admin page other than login is requested while logged out; redirected to "/admin" iff logged in on the login page |
| Auth.WhoReachesWhat | lib/auth/auth.config.ts:82-91 | a signed-in user reaches every page but login; a signed-out one reaches pages outside the admin panel and the login page |
| Auth.HeaderedPagesAreGuarded | lib/auth/auth.config.ts:77-92 | every page that has a header is closed to a signed-out visitor |
| SeedAdmin.IsEmailMatchesPattern | scripts/seed-admin.ts:41-45 | the check accepts exactly the strings `/^[^\s@]+@[^\s@]+\.[^\s@]+$/` matches |
| SeedAdmin.Seed | scripts/seed-admin.ts:21-105 | exit 1 with no insert on a bad setup or an insert error; exit 0 with no insert when the admin exists; otherwise exit 0 and one row with the email, `hash(password, 12)` and name "Admin" |
| SeedAdmin.SecondRunFindsAdmin | scripts/seed-admin.ts:59-69 | a second run finds the admin the first run created, so it inserts nothing |
| SeedAdmin.SeededAdminCanSignIn | scripts/seed-admin.ts:73-85 | the created admin signs in with the configured email and password |

## Left out

- Network I/O is not modelled: `fetch` in the thunks, forms and import page, and the Supabase client. Replies are parameters (`Reply`, `HttpReply`), and the database is `Store.TableRules`.
- The database's own decisions (NOT NULL, column types, unknown columns, lost connections, generated ids, column defaults, timestamps) are functions in `TableRules`. Properties hold for every choice of them. Only the primary key on `id` is explicit.
- Store.InsertOutcome: an `id` the row was sent with is stored exactly as sent. The database's coercion of that value to the column type, such as a number id stored as text, is not modelled.
- Store.AuditLog.Append: always accepts. The routes never read the audit insert's result. A thrown audit insert would fall into the per-record `catch` after the row was inserted, and that case is not modelled.
- The per-id `PUT` and `DELETE` routes and the dashboard statistics route are not part of this model. So the UPDATE and DELETE audit paths are not modelled.
- ImportCommon.ValueText: JavaScript's number-to-string conversion is the parameter `numText`, not a model of it.
- Store.ValueLe: text is ordered by code point. The database's collation is not modelled.
- Text.ToLower: maps ASCII letters only, and so do `UpperChar` and `Text.Capitalize`. Other scripts are not modelled.
- SkillForm.ParseInt: reads decimal text only. The `0x` prefix that `parseInt` without a radix accepts is not modelled.
- `JSON.parse` is the parameter `parse`, `None` when it throws. `FileReader`'s load is taken as immediate, and its `Failed to read file` branch is not modelled.
- The `setTimeout` redirect is recorded as the scheduled path and is not run.
- Toast ids are inputs, not `Date.now()` and `Math.random()`. `sonner` toasts are recorded as (type, text) pairs and are not rendered.
- Thrown messages are parameters (`thrown`), for example the TypeError text of a property read on `null`.
- ImportPage.GreaterThanZero: JavaScript's string-to-number conversion is the parameter `stringToNumber`. Arrays go through their `join` text, and objects are `NaN`.
- The current experience "new" page (app/admin/experience/new/page.tsx:35-60) reports through toasts and its submit handler is not modelled. `FormCommon.Submission` models the pages that keep an error line; its submit body is `ExperienceForm.SubmitBody`.
- CertificationsPage.IsExpired: dates are day numbers. `new Date(v)` is the parameter `dateOf`, the current day is `now`, and `toLocaleDateString` formatting is not modelled.
- Sorting.SortBy: the comparator is a total preorder, not the sign of a subtraction. A `NaN` comparison (a missing `display_order`) is not modelled.
- Animation.GetEntranceVariant: integer indexes only. A fractional index, which reads `undefined` in JavaScript, is not modelled.
- Animation.GetHoverVariant: returns the tier and the key read, not the variant's numbers. An element named after an inherited `Object.prototype` member, such as "toString", reads that inherited function in JavaScript; the model reads the card's entry instead.
- `getAnimationConfig`, `getDeviceCapabilities` and `getScreenData` read `window` and compute floating-point timings, so they are not modelled.
- ConfirmDialog.DescriptionFor: the JSX fallback description is modelled as its text.
- ConfirmDialog.Dialog.ClickAction: in the browser the Action closes the dialog while `onConfirm` is still pending. The model runs the handler to its end and closes after; the final state is the same, because the handler keeps using the item it read before the close. The interleaving itself is not modelled.
- Auth.Authorize: `.single()` is modelled as "exactly one row with that email". A query error, or a client that cannot be created, is folded into `NotFound`. bcrypt's `compare` is the parameter `compare`.
- The NextAuth session strategy, maximum age and secret are not modelled, and neither is the JWT machinery beyond the callbacks.
- SeedAdmin.Seed: console output and `dotenv` are not modelled. `hash` and the new id are parameters, and an insert failure is the parameter `insertError`.
- SeedAdmin.Seed: the password length is counted in characters, where JavaScript counts UTF-16 code units. The unexpected-error `catch` (lines 101-104) is covered only as far as an insert error reaches it.
- SkillsPage.Grouped: buckets come in first-occurrence order, as JavaScript orders string keys. A category that is an integer-like string would be listed first by `Object.entries`, and that is not modelled.
- SkillsPage.GroupSkills: the `reduce` runs into a plain `{}`. A category named after an inherited `Object.prototype` member, such as "constructor" or "toString", finds that member, skips the bucket's creation and throws at `push`, so the page fails to render. The model groups such a skill like any other.
- The page layout, sidebar, animations, themes, resume sections and login page are presentation only and are not modelled.
