# TaxFormPro page rules in Dafny

TaxFormPro is a web application for ordering tax documents: W-2 forms, paystubs and tax
refund consultations. Users sign up, log in, choose a form type, fill in its fields and
submit an application. Administrators review applications, change their status, delete
them, download the files attached to them, and define the form types and the extra fields
each type asks for.

This project models the deterministic rules inside those pages. Each page becomes one
module:

- the pure computations become functions, each with a contract saying what its result
  means, plus lemmas relating them;
- the React component state becomes a class whose methods update its fields.

Database and storage calls are not modelled as calls. Their outcome (success or failure,
the rows returned) is a parameter of the method that receives it, and the method says
what it sends and how the page state changes in each case.

Shared modules:

- `Wrappers`: the `Option` datatype.
- `Text`: ASCII character classes, lower-casing, substring search, decimal rendering and
  JavaScript truthiness of optional strings.
- `Status`: the status names and the badge class map shared by three pages.
- `PercentCoding`: `encodeURIComponent` (UTF-8 for every character) and
  `decodeURIComponent` (ASCII escapes).
- `Seqs`: order-preserving filter and `slice(0, n)`.

Page modules:

- `Auth`: `src/lib/auth.ts`, redirect path and the role and profile look-ups.
- `Login`: `src/pages/Login.tsx`.
- `Signup`: `src/pages/Signup.tsx`.
- `NewApplication`: `src/pages/dashboard/NewApplication.tsx`.
- `UserApplications`: `src/pages/dashboard/UserApplications.tsx`.
- `UserDashboard`: `src/pages/dashboard/UserDashboard.tsx`.
- `AdminDashboard`: `src/pages/admin/AdminDashboard.tsx`.
- `AdminApplications`: `src/pages/admin/AdminApplications.tsx`.
- `AdminFormTypes`: `src/pages/admin/AdminFormTypes.tsx`.
- `FileUpload`: `src/components/FileUpload.tsx`.
- `Paystub`: `src/pages/Paystub.tsx`.
- `TaxRefund`: `src/pages/TaxRefund.tsx`.

Conventions:

- Money is integer cents.
- Dates are day numbers. The calendar's "n months earlier" is a function parameter.
- The WHATWG URL parser's pathname is a function parameter.
- JavaScript's `x || y` on optional strings treats `""` like a missing value (`Text.Or`).

## Model

| member | source | states |
|---|---|---|
| Status.Badge | src/pages/admin/AdminApplications.tsx:318-327 | every badge class starts with "status-badge"; among the status strings the database stores, the bare base class is returned exactly for statuses outside the five known ones |
| Auth.GetRedirectPath | src/lib/auth.ts:74-76 | admins go to /admin; every other role goes to /dashboard (both directions) |
| Auth.GetUserRole | src/lib/auth.ts:28-37 | no role iff the query failed or found no row; otherwise the row's role |
| Auth.GetUserProfile | src/lib/auth.ts:39-48 | no profile iff the query failed or found no row; otherwise that row |
| Auth.ErrorHidesRow | src/lib/auth.ts:35-36 | a failed query yields no role and no profile, whatever data came back |
| Login.RedirectTarget | src/pages/Login.tsx:48 | the page the user came from wins; then the role's home page; with neither, /dashboard |
| Login.TargetWithoutFrom | src/pages/Login.tsx:48 | without an origin page the target is /admin or /dashboard, and /admin exactly for the admin role |
| Login.HandleSubmit | src/pages/Login.tsx:24-54 | navigates iff sign-in returned a user, to the redirect target for the role the submitted render saw; shows the error message iff sign-in failed; loading always ends |
| Login.SignedOutRenderGoesToDashboard | src/pages/Login.tsx:20-50 | a form rendered while signed out has no role, so a sign-in without a saved page goes to /dashboard, administrators included |
| Signup.Requirements | src/pages/Signup.tsx:20-25 | the four checks are: a length of at least 8 UTF-16 code units, an upper-case letter, a lower-case letter, a digit |
| Signup.Every | src/pages/Signup.tsx:27 | true iff every entry is met |
| Signup.AllRequirementsMetIff | src/pages/Signup.tsx:27 | the password passes iff all four conditions hold |
| Signup.HandleSubmit | src/pages/Signup.tsx:30-74 | a weak password is rejected first, then a confirmation mismatch; sign-up is called iff both checks pass; an account is created iff sign-up returned a user |
| Signup.NavigateTo | src/pages/Signup.tsx:30-74 | the page moves on, to /login, exactly when an account was created |
| Signup.EnabledExactlyWhenSignUpIsCalled | src/pages/Signup.tsx:155 | the submit button is enabled exactly for the inputs whose submission reaches sign-up |
| Signup.StrongPasswordExample | src/pages/Signup.tsx:20-27 | "Passw0rd" passes |
| Signup.WeakPasswordExample | src/pages/Signup.tsx:20-27 | "password1" fails, for lack of an upper-case letter |
| Signup.AstralCharactersCountTwice | src/pages/Signup.tsx:21 | a six-character password with two emoji meets the length check, since each emoji counts as two |
| Text.Utf16Length | src/pages/Signup.tsx:21 | `length` lies between the character count and twice it, and is 0 only for the empty string |
| Text.Utf16LengthOfBmp | src/pages/Signup.tsx:21 | for text without characters beyond U+FFFF, `length` is the character count |
| NewApplication.MergeFormData | src/pages/dashboard/NewApplication.tsx:113-116 | the stored keys are the W-2 keys plus the form's keys; the form's value wins on a clash, otherwise the W-2 value is kept |
| NewApplication.NewRecord | src/pages/dashboard/NewApplication.tsx:118-124 | the row carries the user, the chosen type, the type's base price as total, status "pending" and the merged data |
| NewApplication.W2KeysAlwaysStored | src/pages/dashboard/NewApplication.tsx:49-63 | every W-2 key is stored with every application, whatever the form type |
| NewApplication.DisplayedValue | src/pages/dashboard/NewApplication.tsx:147 | a custom field shows its entered text, or "" when nothing was entered |
| NewApplication.EditChangesOnlyThatField | src/pages/dashboard/NewApplication.tsx:155 | editing one field shows the new text there and changes no other field |
| NewApplication.Wizard.constructor | src/pages/dashboard/NewApplication.tsx:40-63 | step 1, nothing selected or loaded, the initial W-2 values |
| NewApplication.Wizard.LoadFormTypes | src/pages/dashboard/NewApplication.tsx:75-90 | a successful load replaces the list, a failed one keeps it; loading ends either way |
| NewApplication.Wizard.LoadCustomFields | src/pages/dashboard/NewApplication.tsx:92-105 | a successful load replaces the fields, a failed one keeps them |
| NewApplication.Wizard.SelectFormType | src/pages/dashboard/NewApplication.tsx:256 | the clicked type becomes the selection |
| NewApplication.Wizard.ContinueToDetails | src/pages/dashboard/NewApplication.tsx:283-285 | step 2 is reached only with a form type selected |
| NewApplication.Wizard.ContinueToReview | src/pages/dashboard/NewApplication.tsx:486 | step 3 is reached from step 2 without any field check |
| NewApplication.Wizard.BackToSelection | src/pages/dashboard/NewApplication.tsx:483 | back to step 1, the selection and data kept |
| NewApplication.Wizard.BackToDetails | src/pages/dashboard/NewApplication.tsx:549 | back to step 2, the data kept |
| NewApplication.Wizard.SetField | src/pages/dashboard/NewApplication.tsx:155 | the field takes the typed text; every other entry is unchanged |
| NewApplication.Wizard.SetW2Field | src/pages/dashboard/NewApplication.tsx:339 | a W-2 text input takes the typed text; the W-2 block keeps exactly its keys |
| NewApplication.Wizard.Submit | src/pages/dashboard/NewApplication.tsx:107-144 | without a selection or a user nothing is sent; otherwise exactly the new record is inserted; only a successful insert navigates to the applications list; submitting ends |
| NewApplication.W2HappyPath | src/pages/dashboard/NewApplication.tsx:113-124 | a $14.99 W-2 order is stored pending at 1499 cents with the typed name and salary |
| UserApplications.FilterByStatus | src/pages/dashboard/UserApplications.tsx:139-141 | "all" shows the whole list; otherwise exactly the applications of that status |
| UserApplications.FilterByStatusAppend | src/pages/dashboard/UserApplications.tsx:139-141 | filtering keeps the list's order: the filter of a concatenation is the concatenation of the filters |
| UserApplications.FilterByStatusSingle | src/pages/dashboard/UserApplications.tsx:139-141 | one row is kept exactly when the filter is "all" or its status; with the previous lemma this fixes the filtered list |
| UserApplications.Badge | src/pages/dashboard/UserApplications.tsx:127-137 | the shared badge map, except that "in_progress" is styled like "in_review" |
| UserApplications.StatusIcon | src/pages/dashboard/UserApplications.tsx:111-125 | the clock for pending, in review and in progress; the check for approved and completed; the cross for rejected |
| UserApplications.ApplicationsList.constructor | src/pages/dashboard/UserApplications.tsx:48-53 | an empty list filtered by "all", loading, no deletion pending |
| UserApplications.ApplicationsList.Visible | src/pages/dashboard/UserApplications.tsx:139-141 | the shown rows are exactly the loaded rows passing the filter |
| UserApplications.ApplicationsList.Load | src/pages/dashboard/UserApplications.tsx:61-76 | a successful load replaces the list, a failed one keeps it; loading ends |
| UserApplications.ApplicationsList.SetStatusFilter | src/pages/dashboard/UserApplications.tsx:49 | the filter takes the chosen value |
| UserApplications.ApplicationsList.ConfirmDelete | src/pages/dashboard/UserApplications.tsx:106-109 | only a pending application can be marked for deletion; the dialog opens |
| UserApplications.ApplicationsList.DeleteApplication | src/pages/dashboard/UserApplications.tsx:78-104 | the marked application's id is sent, and it is always pending; success closes the dialog, clears the mark and requests the list again; deleting ends |
| UserDashboard.ComputeStats | src/pages/dashboard/UserDashboard.tsx:54-63 | the total is the number of applications and the three counts never exceed it |
| UserDashboard.StatsPartition | src/pages/dashboard/UserDashboard.tsx:54-56 | the three counts plus the uncounted statuses add up to the total |
| UserDashboard.StatsOfNewApplication | src/pages/dashboard/UserDashboard.tsx:54-63 | any new application raises the total by one and raises exactly the counter its status belongs to (pending, approved or completed) by one, or none of them for an uncounted status |
| UserDashboard.Recent | src/pages/dashboard/UserDashboard.tsx:198 | exactly the first min(5, n) of the n applications, in fetched order |
| UserDashboard.StatusIcon | src/pages/dashboard/UserDashboard.tsx:71-84 | the clock for pending and in review; the check for approved and completed; the cross for rejected |
| UserDashboard.IconsAgreeExceptInProgress | src/pages/dashboard/UserDashboard.tsx:71-84 | the dashboard's and the list's icons agree on every status but "in_progress", which only the list shows as waiting |
| UserDashboard.BadgesAgreeExceptInProgress | src/pages/dashboard/UserDashboard.tsx:86-95 | the dashboard's and the list's badges agree on every status but "in_progress" |
| AdminDashboard.SumPricesAppend | src/pages/admin/AdminDashboard.tsx:52-54 | the price sum of two lists is the sum of their sums |
| AdminDashboard.Revenue | src/pages/admin/AdminDashboard.tsx:52-54 | revenue is never negative when no price is |
| AdminDashboard.RevenueNonNegative | src/pages/admin/AdminDashboard.tsx:52-54 | a sum of non-negative prices is non-negative |
| AdminDashboard.RevenueOfAppended | src/pages/admin/AdminDashboard.tsx:52-54 | another application adds its price to revenue iff it is completed |
| AdminDashboard.ComputeStats | src/pages/admin/AdminDashboard.tsx:49-62 | users default to 0; the total is the list's length; pending and completed never exceed it; revenue is the completed applications' prices |
| AdminDashboard.CompletionRate | src/pages/admin/AdminDashboard.tsx:158-160 | 0 with no applications, otherwise 100 times completed over total rounded half up |
| AdminDashboard.CompletionRateIsPercentage | src/pages/admin/AdminDashboard.tsx:158-160 | the rate lies between 0 and 100 |
| AdminDashboard.CompletionRateExtremes | src/pages/admin/AdminDashboard.tsx:158-160 | all completed gives 100; none completed gives 0 |
| AdminDashboard.DashboardRateIsPercentage | src/pages/admin/AdminDashboard.tsx:49-62 | the rate shown for computed stats is a percentage |
| AdminDashboard.StatsOfNoApplications | src/pages/admin/AdminDashboard.tsx:49-62 | with no applications the total, pending, completed and revenue are all 0 |
| AdminDashboard.StatsOfNewApplication | src/pages/admin/AdminDashboard.tsx:49-62 | one more application adds 1 to the total, 1 to pending iff its status is "pending", 1 to completed and its price to revenue iff its status is "completed"; with the previous lemma this fixes every counter |
| AdminDashboard.PendingDefinitionsDiffer | src/pages/admin/AdminDashboard.tsx:50 | an application in review counts as pending in the user dashboard's stats but not in the admin dashboard's |
| Seqs.Take | src/pages/admin/AdminDashboard.tsx:64 | the recent list is the first n rows in fetched order, or all of them when there are fewer |
| AdminApplications.AttachProfile | src/pages/admin/AdminApplications.tsx:76-85 | the row gets the owner's e-mail and name, or an empty e-mail and no name without a profile; nothing else changes |
| AdminApplications.EmptySearchShowsFetchedRows | src/pages/admin/AdminApplications.tsx:82-85 | every fetched row matches the empty search |
| AdminApplications.FilterApplications | src/pages/admin/AdminApplications.tsx:329-338 | a row is shown iff it matches the search and the status filter; a specific filter shows only that status |
| AdminApplications.FilterPreservesOrder | src/pages/admin/AdminApplications.tsx:329 | filtering keeps the list's order |
| AdminApplications.SearchIgnoresCase | src/pages/admin/AdminApplications.tsx:331-333 | a query and its lower-case form select the same rows |
| AdminApplications.EmptySearch | src/pages/admin/AdminApplications.tsx:331-333 | the empty query matches exactly the rows with an e-mail, a name or a type name present |
| AdminApplications.Toggled | src/pages/admin/AdminApplications.tsx:300-310 | the clicked id flips its membership; every other id keeps its own |
| AdminApplications.ToggleTwice | src/pages/admin/AdminApplications.tsx:300-310 | clicking the same checkbox twice restores the selection |
| AdminApplications.Ids | src/pages/admin/AdminApplications.tsx:296 | exactly the ids of the listed rows |
| AdminApplications.SelectAll | src/pages/admin/AdminApplications.tsx:292-298 | clears when the selection's size equals the visible count, otherwise selects exactly the visible ids |
| AdminApplications.IdsCount | src/pages/admin/AdminApplications.tsx:292-298 | rows with distinct ids give as many ids as rows |
| AdminApplications.SelectAllThenClear | src/pages/admin/AdminApplications.tsx:292-298 | select-all selects every visible row and a second click clears |
| AdminApplications.ApplyPatch | src/pages/admin/AdminApplications.tsx:97-107 | the update replaces status and notes and keeps every other column |
| AdminApplications.PatchIdempotent | src/pages/admin/AdminApplications.tsx:97-107 | applying the same update twice equals applying it once |
| AdminApplications.RunEnd | src/pages/admin/AdminApplications.tsx:141 | the greedy `.+` stops at the first line terminator or the end |
| AdminApplications.FirstMatch | src/pages/admin/AdminApplications.tsx:141 | the leftmost position where the pattern matches, or none |
| AdminApplications.CapturedPath | src/pages/admin/AdminApplications.tsx:141-145 | a capture exists iff the pattern matches somewhere; it is non-empty and free of line terminators |
| AdminApplications.CaptureAfterFirstMarker | src/pages/admin/AdminApplications.tsx:141-145 | after the first marker, the capture is the rest of the pathname |
| AdminApplications.StoragePathFromPathname | src/pages/admin/AdminApplications.tsx:141-147 | a storage path is non-empty and found only where the pattern matches |
| AdminApplications.PublicPathnameCapture | src/pages/admin/AdminApplications.tsx:145 | in a public object pathname the captured group is everything after the marker |
| AdminApplications.PublicPathnameDecodes | src/pages/admin/AdminApplications.tsx:141-147 | a public object pathname yields the percent-decoding of the text after the marker, and nothing when that text has a malformed escape |
| AdminApplications.EscapedSlashIsDecoded | src/pages/admin/AdminApplications.tsx:146 | an escaped `/` (`%2F`) in the URL comes back as `/` in the storage path |
| AdminApplications.MalformedEscapeFallsBackToUrl | src/pages/admin/AdminApplications.tsx:134-151 | when the text after the marker does not decode, a URL-only entry is fetched from its URL |
| AdminApplications.DisplayName | src/pages/admin/AdminApplications.tsx:134 | the download name is `name`, else `fileName`, else "download" |
| AdminApplications.Plan | src/pages/admin/AdminApplications.tsx:125-151 | a non-object entry is rejected; `path` wins, then `storagePath`, then the path recovered from `url`; without any of them there is no path |
| AdminApplications.UrlIgnoredWhenPathKnown | src/pages/admin/AdminApplications.tsx:137-140 | with a recorded path the URL is never parsed |
| AdminApplications.PublicPathnameYieldsStoragePath | src/pages/admin/AdminApplications.tsx:141-147 | a public object pathname yields its storage path back |
| AdminApplications.UrlOnlyEntryResolves | src/pages/admin/AdminApplications.tsx:134-151 | an entry with only a name and a public object URL is downloaded from storage, under that name, from the path the URL names |
| AdminApplications.DownloadFile | src/pages/admin/AdminApplications.tsx:123-220 | which source is tried and what the user is told, for every plan and every outcome of the fetch and the storage download |
| AdminApplications.ApplicationsPage.constructor | src/pages/admin/AdminApplications.tsx:47-56 | an empty list, empty search, filter "all", nothing selected or open, loading |
| AdminApplications.ApplicationsPage.Load | src/pages/admin/AdminApplications.tsx:64-95 | a successful load replaces the rows, a failed one keeps them; loading ends |
| AdminApplications.ApplicationsPage.SetSearchQuery | src/pages/admin/AdminApplications.tsx:48 | the search takes the typed text |
| AdminApplications.ApplicationsPage.SetStatusFilter | src/pages/admin/AdminApplications.tsx:49 | the filter takes the chosen value |
| AdminApplications.ApplicationsPage.ToggleSelectOne | src/pages/admin/AdminApplications.tsx:300-310 | the selection becomes the toggled selection |
| AdminApplications.ApplicationsPage.ToggleSelectAll | src/pages/admin/AdminApplications.tsx:292-298 | the selection becomes select-all against the rows shown |
| AdminApplications.ApplicationsPage.OpenDetails | src/pages/admin/AdminApplications.tsx:312-316 | the dialog opens on the row with its stored notes, or "" |
| AdminApplications.ApplicationsPage.SetAdminNotes | src/pages/admin/AdminApplications.tsx:53 | the notes take the typed text |
| AdminApplications.ApplicationsPage.UpdateStatus | src/pages/admin/AdminApplications.tsx:97-121 | the update targets the application the dialog shows; the new status is sent with the edited notes; only success closes the dialog and requests the list again |
| AdminApplications.ApplicationsPage.DeleteApplication | src/pages/admin/AdminApplications.tsx:222-255 | the delete is sent iff the confirmation is skipped or accepted; success deselects the id, closes the dialog and requests the list again |
| AdminApplications.ApplicationsPage.BulkDelete | src/pages/admin/AdminApplications.tsx:257-290 | the whole selection is sent iff it is non-empty and confirmed; success clears it and requests the list again; the busy flag ends |
| AdminFormTypes.DropSpaces | src/pages/admin/AdminFormTypes.tsx:150 | the remainder after a run of whitespace is no longer and does not start with whitespace |
| AdminFormTypes.DropSpacesSuffix | src/pages/admin/AdminFormTypes.tsx:150 | dropping whitespace introduces no new character |
| AdminFormTypes.CollapseKeeps | src/pages/admin/AdminFormTypes.tsx:150 | every character of the result is an original non-whitespace character or "_" |
| AdminFormTypes.NormalizeFieldName | src/pages/admin/AdminFormTypes.tsx:150 | a stored field name has no whitespace and no upper-case letter |
| AdminFormTypes.CollapseWithoutSpaces | src/pages/admin/AdminFormTypes.tsx:150 | a name without whitespace is left as it is |
| AdminFormTypes.NormalizeIdempotent | src/pages/admin/AdminFormTypes.tsx:150 | normalizing a normalized name changes nothing |
| AdminFormTypes.CollapseRun | src/pages/admin/AdminFormTypes.tsx:150 | a whole whitespace run becomes one "_" |
| AdminFormTypes.CollapseWordThen | src/pages/admin/AdminFormTypes.tsx:150 | text without whitespace is kept as it is in front of any text |
| AdminFormTypes.CollapseTwoWords | src/pages/admin/AdminFormTypes.tsx:150 | two words around a whitespace run are stored joined by one underscore |
| AdminFormTypes.NamesCanCollide | src/pages/admin/AdminFormTypes.tsx:150 | "Bank  Name" and "bank name" are stored under the same name, "bank_name" |
| AdminFormTypes.FieldInsert | src/pages/admin/AdminFormTypes.tsx:146-157 | the inserted field has the normalized name, the typed label, type and flag, and the current field count as its order |
| AdminFormTypes.NewFieldSortsLast | src/pages/admin/AdminFormTypes.tsx:154 | with orders 0..n-1, a new field sorts after every existing one |
| AdminFormTypes.DeletionThenAddTies | src/pages/admin/AdminFormTypes.tsx:154 | after deleting any field but the last from a list numbered 0..n-1, a new field gets the same order as the last field left |
| AdminFormTypes.DeletingLastKeepsConsecutive | src/pages/admin/AdminFormTypes.tsx:154 | deleting the last field keeps the numbering 0..n-2, so the next field sorts last again |
| AdminFormTypes.FormTypesPage.constructor | src/pages/admin/AdminFormTypes.tsx:47-69 | nothing loaded or selected, dialogs closed, the initial edit and new-field forms |
| AdminFormTypes.FormTypesPage.LoadFormTypes | src/pages/admin/AdminFormTypes.tsx:81-98 | a successful load replaces the list and selects its first type only when nothing is selected; loading ends |
| AdminFormTypes.FormTypesPage.LoadCustomFields | src/pages/admin/AdminFormTypes.tsx:100-113 | a successful load replaces the fields, a failed one keeps them |
| AdminFormTypes.FormTypesPage.Select | src/pages/admin/AdminFormTypes.tsx:245 | the clicked type becomes the selection |
| AdminFormTypes.FormTypesPage.OpenEditDialog | src/pages/admin/AdminFormTypes.tsx:201-209 | the edit form starts from the type's values, a missing description as "" |
| AdminFormTypes.FormTypesPage.ChangeEditForm | src/pages/admin/AdminFormTypes.tsx:440-467 | the edit form takes the typed values |
| AdminFormTypes.FormTypesPage.ChangeNewField | src/pages/admin/AdminFormTypes.tsx:332-372 | the new-field form takes the typed values |
| AdminFormTypes.FormTypesPage.UpdateFormType | src/pages/admin/AdminFormTypes.tsx:115-142 | the edit form is sent for the selected type, nothing without one; only success closes the dialog and requests the form types again |
| AdminFormTypes.FormTypesPage.AddCustomField | src/pages/admin/AdminFormTypes.tsx:144-176 | the field is inserted for the selected type only; success closes the dialog, resets the form and requests the selected type's fields again |
| AdminFormTypes.FormTypesPage.DeleteCustomField | src/pages/admin/AdminFormTypes.tsx:178-199 | the delete names the id alone; only success reloads the selected type's fields |
| FileUpload.Extension | src/components/FileUpload.tsx:42 | the text after the last dot, or the whole name without a dot; never contains a dot |
| FileUpload.StoragePath | src/components/FileUpload.tsx:43 | every upload lands in the user's own folder |
| FileUpload.ExtensionAfterDot | src/components/FileUpload.tsx:42 | the extension of "stem.ext" is "ext" |
| FileUpload.StoragePathKeepsExtension | src/components/FileUpload.tsx:42-43 | the stored object has the uploaded file's extension |
| FileUpload.DecimalInjective | src/components/FileUpload.tsx:43 | distinct timestamps render differently |
| FileUpload.DistinctTimesDistinctPaths | src/components/FileUpload.tsx:43 | uploads at distinct times get distinct paths |
| FileUpload.UploadedPathRecovered | src/components/FileUpload.tsx:43 | the download page recovers an uploaded object's path from its public URL |
| FileUpload.ImageAcceptExamples | src/components/FileUpload.tsx:18-29 | the default accept list is not treated as images; "image/*" is |
| FileUpload.UploadSlot.constructor | src/components/FileUpload.tsx:15-24 | the preview shows an existing file's URL, its name is shown; not uploading |
| FileUpload.UploadSlot.UploadFile | src/components/FileUpload.tsx:38-73 | the object goes to the computed path; success reports its public URL and name and updates the preview; failure keeps both; uploading ends |
| FileUpload.UploadSlot.ClearFile | src/components/FileUpload.tsx:75-81 | the preview and name are cleared and empty values are reported |
| Paystub.ToggleId | src/pages/Paystub.tsx:90-97 | the id flips its membership, others keep theirs; an absent id is appended |
| Paystub.RemovingShrinks | src/pages/Paystub.tsx:93 | removing a present id shortens the list |
| Paystub.ToggleAbsentTwice | src/pages/Paystub.tsx:90-97 | adding and then removing an id restores the list |
| Paystub.StepOf | src/pages/Paystub.tsx:107-132 | every frequency steps backwards; only an unknown frequency keeps the date |
| Paystub.GeneratePayDates | src/pages/Paystub.tsx:99-135 | as many dates as requested, starting today, each one step before the previous |
| Paystub.ChainOrdered | src/pages/Paystub.tsx:99-135 | along a chain, later dates are never after earlier ones, and strictly before for a known frequency |
| Paystub.PayDatesOrdered | src/pages/Paystub.tsx:99-135 | generated pay dates run backwards in time |
| Paystub.PreviewOf | src/pages/Paystub.tsx:408-424 | with a positive count, the first six dates and the number of the rest |
| Paystub.PayDateCountOptions | src/pages/Paystub.tsx:397 | the count selector offers exactly 1 to 26 |
| Paystub.Submit | src/pages/Paystub.tsx:137-151 | accepted iff company name, employee name and e-mail are filled in |
| Paystub.FreshFormRejected | src/pages/Paystub.tsx:137-145 | submitting the initial form is rejected |
| Paystub.CompanyAddressNotChecked | src/pages/Paystub.tsx:138 | the company address plays no part in the check |
| Paystub.PaystubForm.constructor | src/pages/Paystub.tsx:50-84 | the initial form |
| Paystub.PaystubForm.UpdateField | src/pages/Paystub.tsx:86-88 | the field takes the value; every other field is unchanged |
| Paystub.PaystubForm.ToggleExemption | src/pages/Paystub.tsx:90-97 | the exemptions become the toggled list; every other field is unchanged |
| TaxRefund.Message | src/pages/TaxRefund.tsx:100-108 | the message opens with the greeting and the name line and closes with the user's own text |
| TaxRefund.MessageIgnoresEstimatedIncome | src/pages/TaxRefund.tsx:100-108 | the estimated income is not sent |
| TaxRefund.ChatLink | src/pages/TaxRefund.tsx:117-119 | the chat link is the number's address followed by the percent-encoded message |
| TaxRefund.ChatLinkIsUrlSafe | src/pages/TaxRefund.tsx:100 | the encoded text uses only URL-safe characters |
| TaxRefund.ChatLinkCarriesMessage | src/pages/TaxRefund.tsx:100-119 | decoding the link's text gives back an ASCII message |
| TaxRefund.ContactLinkIsChatLinkWithoutText | src/pages/TaxRefund.tsx:122-124 | the contact button's link is the chat link's prefix |
| TaxRefund.RefundForm.constructor | src/pages/TaxRefund.tsx:72-81 | the initial form, not submitted |
| TaxRefund.RefundForm.UpdateField | src/pages/TaxRefund.tsx:83-85 | the field takes the text; every other field is unchanged |
| TaxRefund.RefundForm.HandleSubmit | src/pages/TaxRefund.tsx:87-120 | a chat link is opened iff name, e-mail and phone are filled, carrying the message; the page counts as submitted from then on |
| PercentCoding.Decode | src/pages/admin/AdminApplications.tsx:146 | text without `%` decodes to itself; a decoding is never longer than its input and is empty only for empty input |
| PercentCoding.DecodeCopies | src/pages/admin/AdminApplications.tsx:146 | a character other than `%` is copied in front of the decoded rest |
| PercentCoding.DecodePlainPrefix | src/pages/admin/AdminApplications.tsx:146 | a stretch without `%` is copied in front of the decoded rest, and the whole fails when the rest does |
| PercentCoding.DecodeTruncatedEscape | src/pages/admin/AdminApplications.tsx:146 | a `%` followed by fewer than two characters fails |
| PercentCoding.DecodeNonHexEscape | src/pages/admin/AdminApplications.tsx:146 | a `%` not followed by two hexadecimal digits fails |
| PercentCoding.DecodeEscape | src/pages/admin/AdminApplications.tsx:146 | `%hl` becomes the character 16*h+l in front of the decoded rest; an escaped octet of 0x80 or more fails |
| PercentCoding.DecodeEscapedSlash | src/pages/admin/AdminApplications.tsx:146 | `%2F` between plain text decodes to `/` |
| PercentCoding.EncodeIsUrlSafe | src/pages/TaxRefund.tsx:100 | the encoding contains only unreserved characters and escapes |
| PercentCoding.DecodeEncode | src/pages/TaxRefund.tsx:100 | decoding the encoding of an ASCII text gives it back |
| Text.Lower | src/pages/admin/AdminApplications.tsx:331 | lower-casing keeps the length and lower-cases each character on its own |
| Text.Decimal | src/components/FileUpload.tsx:43 | the rendering of a timestamp is a non-empty string of digits |

## Left out

- Supabase queries, inserts, updates, deletes and storage calls are not performed. Their outcome is a parameter. Each method states what it would send and, where the page then loads a list again, that it requests the reload.
- Toasts, `console.error`, navigation effects and JSX rendering are not modelled, beyond the navigation target and the outcome a method reports.
- The `useAuth` hook is not modelled: the signed-in user and role are parameters.
- `src/hooks/useAuth.tsx` is not part of this model.
- `getCurrentUser`, `signUp`, `signIn` and `signOut` in `src/lib/auth.ts` only forward to the auth client. Their results are the `AuthResponse` parameter.
- The profile look-ups that `fetchApplications` runs in parallel are modelled one row at a time (`AttachProfile`); their concurrency is not.
- `setTimeout` delays (1500 ms before opening the chat, 100 ms before the login redirect) are not modelled. The effect happens at once.
- `window.open` is modelled as the link returned.
- Prices are integer cents, not floating-point numbers. `parseFloat` of the admin price field and its NaN case are not modelled.
- The completion rate uses exact arithmetic. `Math.round` on a binary double may differ from it by floating-point error.
- `new Date()`, `setDate`, `setMonth` and `setFullYear` are abstracted. Dates are day numbers; "n months earlier" is the `monthsBack` parameter; annually is 12 months back.
- `toLocaleDateString` formatting is not modelled.
- `Date.now()` is the `now` parameter of `UploadFile`.
- The WHATWG URL parser is the `pathnameOf` parameter.
- `UploadedPathRecovered` assumes the storage client's public URL path has the shape `/storage/v1/object/public/application-files/<path>`.
- PercentCoding.Decode: escapes of bytes at or above 0x80 (multi-byte UTF-8) are treated as malformed, so non-ASCII text does not round-trip in this model.
- Text.Lower: only ASCII letters are case-folded, and only ASCII whitespace counts as `\s`. JavaScript also folds and matches other Unicode characters.
- TaxRefund.Message: the contract states the opening line and the closing message only. The lines for e-mail, phone, tax year and filing status are in the body, and `MessageIgnoresEstimatedIncome` covers the one omitted field.
- UserDashboard.ComputeStats: the contract bounds the counts. The exact partition is stated by `StatsPartition` and `StatsOfNewApplication`.
- The two dashboards' `loading` flags, and the rows they keep when a fetch fails, are not modelled: their statistics and recent lists are functions of the fetched rows.
- The status label shown to users (`status.replace("_", " ")`) is display text and is not modelled.
- The Paystub page's `step` state and the multi-card layout are not modelled.
- `handleFileChange` is not modelled: its early return when no file is chosen is plain UI, and the HEIC/MIME checks of the `accept` list are left to the browser.
- The form-type `is_active` filter and the `order` clauses of queries run in the database. Loaded lists are taken as returned.
- The browser's `confirm` dialog is the `confirmed` parameter.
- Login.RedirectTarget: the role it receives is the one the submitted render captured, which a signed-out visitor does not have. The auth state that changes after sign-in does not reach the scheduled redirect. Whether the routes then move an administrator from /dashboard to /admin is not part of this model.
- Status.Badge: the class lookup covers the status strings the database stores. A JavaScript object lookup also answers inherited keys such as "constructor" or "toString"; no stored status takes them, so they are not modelled.
