# Company staff page: form and directory logic

This project models the logic of the company staff page of a company
administration dashboard. The page holds a staff form that is in create mode
or edits one staff record. It runs two local password checks and then calls
the backend's create or update operation. It also keeps a directory of staff
and vacancies, where at most one staff row is expanded. An expanded row lists
the vacancies that staff member created and exports them as spreadsheet rows.

Modules:

- `Wrappers`: `Option` and `Result`.
- `JsValues`: the JavaScript behaviour the page relies on. This covers
  truthiness of optional strings, numbers and `number | null` ids, the
  `err instanceof Error ? err.message : fallback` idiom, and `Promise.all`
  over two fetches.
- `StaffTypes`: the staff record, the form payload and the vacancy record.
  A field the backend may leave null or undefined is an `Option`.
- `StaffFormLogic`: the default form, the mapping from a record into the
  form, the validation, and the choice of backend call.
- `StaffDirectory`: the expand toggle, the per-staff vacancy filter and the
  spreadsheet export rows.
- `StaffPage`: class `CompanyStaffPage`. Its fields are the page's state
  cells: `form`, `staff`, `vacancies`, `submitting`, `editingStaffId`,
  `expandedStaffId`, `confirmPassword`, `error` and `success`. Each handler
  is a method that runs from start to finish. The outcomes of the backend
  calls it awaits are passed in as parameters.

On these points the model follows the code exactly:

- The code has no in-flight guard for submit. `handleSubmit` never reads
  `submitting`; only the disabled button uses it. So `HandleSubmit` has no
  such guard either.
- A failed local check sets `error` and leaves any earlier `success`
  message in place.
- After a successful save the lists are reloaded. That reload clears
  `error`, and if it fails it sets `error` while the success message stays.
- The edited id follows JavaScript truthiness, so an id of `0` counts as
  create mode. `EditingIdZeroActsAsCreate` states this.
- Toggling the same row twice restores the earlier state only when no other
  row was expanded before. When another row was open, the two presses
  collapse everything (`ToggleTwiceFromOtherRow`).

## Model

| member | source | states |
|---|---|---|
| `JsValues.MessageOf` | src/pages/Company/CompanyStaffPage.tsx:187 | An `Error` object gives its own message. Any other thrown value gives the fallback text. |
| `JsValues.PromiseAll` | src/pages/Company/CompanyStaffPage.tsx:98 | Succeeds exactly when both fetches succeed, carrying both lists. Otherwise it carries the rejection that came first, and the only rejection when just one failed. |
| `JsValues.TruthyId` | src/pages/Company/CompanyStaffPage.tsx:162-175 | The edited id counts as true exactly when it is neither null nor 0. This is the test behind `!editingStaffId` at line 162 and `if (editingStaffId)` at line 175. |
| `StaffFormLogic.DefaultFormValues` | src/pages/Company/CompanyStaffPage.tsx:16-42 | In `defaultForm` every text field is empty except employment type "full-time" and status "active". Experience and salary are 0, and the login password is empty. |
| `StaffFormLogic.MapRecordToForm` | src/pages/Company/CompanyStaffPage.tsx:116-142 | The password is always empty. Each field with default "" is the record's value when present and "" otherwise. Experience and salary are the value or 0. Employment type and status are never empty: they are the record's non-empty value, or else "full-time" and "active". Its helpers `JsValues.OrString` and `JsValues.OrNumber` model the fallback-to-default expressions of lines 117-140. |
| `StaffFormLogic.ValidateSubmit` | src/pages/Company/CompanyStaffPage.tsx:162-169 | "Login password is required for new staff" exactly when not editing (id null or 0) and the password is empty. Otherwise "Password and confirm password do not match" exactly when the password is non-empty and differs from the confirmation. Otherwise it passes. |
| `StaffFormLogic.SubmitRequest` | src/pages/Company/CompanyStaffPage.tsx:175-181 | A validated submit always makes one call, carrying the whole form. It is an update of the edited id exactly when that id is truthy, and a create otherwise. |
| `StaffFormLogic.SuccessMessage` | src/pages/Company/CompanyStaffPage.tsx:175-181 | The message is "Staff updated successfully." exactly when the edited id is truthy, and "Staff created successfully." otherwise. |
| `StaffFormLogic.EmptyRecordMapsToDefaultForm` | src/pages/Company/CompanyStaffPage.tsx:116-142 | A record with every optional field missing maps to `defaultForm`. So the mapping's defaults are those of lines 16-42. |
| `StaffFormLogic.EditSavedRecord` | src/pages/Company/CompanyStaffPage.tsx:116-142 | Editing a record that the backend stored from form `f` gives back `f` with the password cleared, provided employment type and status were non-empty. |
| `StaffFormLogic.EditWithoutPasswordIsSent` | src/pages/Company/CompanyStaffPage.tsx:162-176 | A form primed from a record with a non-zero id passes validation with no password and no confirmation. The call made is an update of that record. |
| `StaffFormLogic.EditingIdZeroActsAsCreate` | src/pages/Company/CompanyStaffPage.tsx:162-179 | With an edited id of 0 the password is demanded, and a validated submit creates a record instead of updating one. |
| `StaffFormLogic.DefaultFormNeedsPassword` | src/pages/Company/CompanyStaffPage.tsx:162-165 | The default form cannot be submitted in create mode. |
| `StaffDirectory.Toggle` | src/pages/Company/CompanyStaffPage.tsx:374 | The result is null exactly when row `id` was the expanded one; otherwise it is `id`. So at most one row is expanded, and it is the row just toggled. |
| `StaffDirectory.ToggleTwiceRestores` | src/pages/Company/CompanyStaffPage.tsx:374 | When no row or row `id` was expanded, toggling `id` twice restores the state. |
| `StaffDirectory.ToggleTwiceFromOtherRow` | src/pages/Company/CompanyStaffPage.tsx:342 | With another row expanded, toggling `id` expands `id` only, and a second toggle collapses everything. |
| `StaffDirectory.VacanciesByStaff` | src/pages/Company/CompanyStaffPage.tsx:193-194 | Every vacancy returned comes from the list and was created by the given staff id. The result is no longer than the list. |
| `StaffDirectory.VacanciesByStaffComplete` | src/pages/Company/CompanyStaffPage.tsx:193-194 | Every vacancy of the list created by the given staff id is returned. |
| `StaffDirectory.VacanciesByStaffAppend` | src/pages/Company/CompanyStaffPage.tsx:193-194 | Filtering a concatenation concatenates the filtered parts, so source order is kept. |
| `StaffDirectory.VacanciesByStaffKeepsAll` | src/pages/Company/CompanyStaffPage.tsx:193-194 | A list whose vacancies all belong to the staff id is returned whole and in order. |
| `StaffDirectory.VacanciesByStaffIdempotent` | src/pages/Company/CompanyStaffPage.tsx:193-194 | Filtering twice gives the same result as filtering once. |
| `StaffDirectory.ExportRow` | src/pages/Company/CompanyStaffPage.tsx:344-353 | The row has exactly the keys JobTitle, Department, Type, Openings, MatchThreshold, McqQuestions, McqPassThreshold and Status, in that order. Each key holds the vacancy's value unchanged, and numbers stay numbers. |
| `StaffDirectory.ExportRows` | src/pages/Company/CompanyStaffPage.tsx:344-353 | There is one row per vacancy, at the same position. Each row has the fixed keys, and reading it back recovers that vacancy's eight exported fields. |
| `StaffDirectory.ExportRowsAppend` | src/pages/Company/CompanyStaffPage.tsx:344 | Exporting a concatenation concatenates the exports, so order is kept. |
| `StaffDirectory.ReadRowInvertsExport` | src/pages/Company/CompanyStaffPage.tsx:344-353 | Reading an exported row back gives exactly the vacancy's eight exported fields. |
| `StaffDirectory.ExportScenario` | src/pages/Company/CompanyStaffPage.tsx:342-353 | Staff 1 with one vacancy that has match threshold 82.6: that vacancy is listed, there is one export row, and its MatchThreshold cell is the number 82.6, unrounded. |
| `StaffPage.CompanyStaffPage.constructor` | src/pages/Company/CompanyStaffPage.tsx:83-92 | The initial state: the default form, empty lists, create mode, nothing expanded, not submitting, and empty confirmation, error and success. |
| `StaffPage.CompanyStaffPage.LoadStaff` | src/pages/Company/CompanyStaffPage.tsx:94-106 | The error is cleared. Both lists are replaced only when both fetches succeed. Otherwise both lists are kept and the error is the first rejection's message, or "Unable to load staff". Nothing else changes. |
| `StaffPage.CompanyStaffPage.StartEdit` | src/pages/Company/CompanyStaffPage.tsx:144-150 | The form is the record mapped into the form, and the edited id is the record's id. Confirmation, error and success are cleared. Lists, expanded row and `submitting` are unchanged. |
| `StaffPage.CompanyStaffPage.CancelEdit` | src/pages/Company/CompanyStaffPage.tsx:152-158 | Whatever the prior state: the form is the default form, the edited id is null, and confirmation, error and success are empty. Lists, expanded row and `submitting` are unchanged. |
| `StaffPage.CompanyStaffPage.HandleSubmit` | src/pages/Company/CompanyStaffPage.tsx:160-191 | A failed check makes no call and only sets the error, with the password-required check first. Otherwise the update or create call carries the whole form and `submitting` ends false. On success the state matches `CancelEdit`, the mode's message is shown and the lists are reloaded. On failure form, mode and confirmation are kept and the error is shown. |
| `StaffPage.CompanyStaffPage.ToggleExpand` | src/pages/Company/CompanyStaffPage.tsx:374 | The expanded row becomes `Toggle` of the old one and `id`. Nothing else changes. |

## Left out

- Rendering is UI and not modelled: the JSX, the `Field` and `Detail`
  components, the styling, and the address and date display strings.
- `downloadExcel` and `downloadPdf` are not modelled. They hand the rows to
  external spreadsheet and PDF libraries and write files. The model stops at
  the rows passed to the spreadsheet writer.
- The PDF table body and the on-screen vacancy table are not modelled.
  Formatting percentages with `Number(...).toFixed(0)` and "%" is
  floating-point display formatting.
- Numbers are `real` values. `Number(...)` coercion of string-typed numbers,
  NaN, and binary floating point are not modelled.
- The record types come from the services layer of the repository, which is
  not part of this model. Their field types are inferred from how the page
  uses them: optional strings and numbers on the staff record, and a
  nullable creator id on the vacancy.
- The creation timestamp of a staff record is carried but never used,
  because it only feeds a display string.
- The four backend calls are foreign code and not modelled. Their outcomes
  are parameters: the two list fetches, and the create or update call.
  `Promise.all` timing is reduced to one flag saying which fetch rejected
  first.
- The `loading` flag only drives a placeholder row, so it is not modelled.
- The mount-time `useEffect` load is not a separate member. It is one call
  of `LoadStaff` after the constructor.
- The per-field input handlers (`update` and the confirmation `onChange`)
  are not methods. They set one field of the form or the confirmation, and
  a caller writes those public fields directly.
- The HTML `required` attributes are not modelled, because the browser
  enforces them and `handleSubmit` does not.
- Concurrency is not modelled. A user typing while a save is awaited, and
  state writes after the page is unmounted, need interleaving that the
  sequential model does not have.
