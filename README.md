# Opinion feedback portal — a verified model of its front-end logic

The portal lets employees of a group of affiliated companies submit improvement opinions by quarter. Administrators search the opinions, answer them and export them to a spreadsheet. Opinions whose moderation score reaches the blind threshold are kept out of the export. Users and sessions are managed by the pages themselves. This project models, in Dafny, the logic buried in the portal's React components:

- **the query and export pipeline of the administration panel and the opinion list** (`AdminPanel`, `OpinionList`, `Dates`, `Store`):
  - a year and quarter become a date window;
  - opinion rows are joined with the category, affiliate and user tables; the requester (joined on `user_id`) and the responsible department (joined on `proc_id`) are two separate joins;
  - the text, category, affiliate and status filters are applied;
  - the export drops blinded rows, numbers the rest from 1 into seven fixed columns and reports how many rows it excluded.
- **the moderation and response rules** (`Moderation`, `OpinionDetailModal`, `OpinionDetail`):
  - the blinding predicate, with its threshold defined once;
  - the validation order of an administrator's answer;
  - the update written to the store, and the local copy changed only after the store accepted the write;
  - the display defaults of the detail page.
- **submission, registration, user management and the dashboard counters** (`OpinionSubmissionForm`, `UserRegistrationForm`, `UserManagement`, `DashboardStats`).
- **the sign-in, session, route-guard, dashboard-tab and sidebar state machines** (`Login`, `AuthContext`, `ProtectedRoute`, `DashboardPage`, `AppSidebar`, `Browser`).

How the source's values and effects are represented:

- **Tables.** Database tables are sequences of rows.
  - A nullable column is an `Option`.
  - JavaScript's `x || d` is `OrElse(x, d)`: `d` when `x` is null or empty.
  - A query's `.eq`/`.gte`/`.lte` chain is a list of constraints that a row must all satisfy.
  - `.single()` is `Store.SingleUser`, which gives a user only when exactly one row matches.
- **Timestamps** are ISO-8601 strings and are compared as strings, as the store and the pages compare them.
- **Parameters.** These become parameters of the operations that use them:
  - the password hash;
  - the clock (as a timestamp string, or as milliseconds for the session);
  - the date parser behind `formatDate`;
  - whether a store write succeeded.
- **Component state.** Each component's state is a Dafny class. Its fields are the component's state variables, and its methods are the handlers and effects that change them.
- **Pure helpers.** Code that only computes a value (quarter mapping, joins, filters, colours, validation) is written as functions and lemmas.

## Model

| member | source | states |
|---|---|---|
| Dates.QuarterOfMonth | src/components/AdminPanel.tsx:58-64 | months 1-3 give Q1, 4-6 Q2, 7-9 Q3; every other month, including out-of-range values, gives Q4 |
| Dates.QuarterDateRange | src/components/AdminPanel.tsx:82-96 | both ends of a quarter's window are dates of the given year of equal length, and the start is no later than the end |
| Dates.QuarterWithinYear | src/components/OpinionList.tsx:66-80 | any timestamp inside a quarter's window is inside the full-year window ("all") of the same year |
| Dates.QuartersDisjoint | src/components/AdminPanel.tsx:82-96 | no timestamp lies in the windows of two different quarters of the same year |
| Dates.QuarterDaysOrdered | src/components/AdminPanel.tsx:82-96 | a later quarter starts after the last instant (`T23:59:59`) an earlier quarter admits |
| Dates.MonthInItsQuarter | src/components/OpinionSubmissionForm.tsx:96-103 | every day of a month lies in the window of the quarter the submission form derives from that month, so a submission's quarter and the quarter search agree |
| Dates.MonthDigits | src/components/OpinionSubmissionForm.tsx:96-103 | a month 1..12 is written as two digits |
| Dates.FormatDate | src/components/AdminPanel.tsx:51-56 | '' stays ''; an unparseable date is returned unchanged; otherwise the result is the prefix of the ISO rendering that ends at its first 'T' (the whole rendering when it has none), and it holds no 'T' |
| Dates.DatePartOfIso | src/components/OpinionDetail.tsx:70-75 | the part before the first 'T' holds no 'T' and is the prefix of the ISO string that ends at the string's end or just before a 'T' |
| Store.NameOf | src/components/AdminPanel.tsx:163-164 | the looked-up name belongs to an entry with that id, or is the fallback; an id matching no entry always gives the fallback; the first entry with the id gives its name, or the fallback when that name is NULL or empty |
| Store.DeptOf | src/components/AdminPanel.tsx:166-174 | a non-empty department comes from a user with that employee id; an absent or empty key, or a key nobody has, gives ''; with a non-empty key, the first user with it gives that user's department, '' when NULL |
| Store.DeptOfUnique | src/components/AdminPanel.tsx:166-174 | when exactly one user has the employee id, the join yields that user's department ('' when it has none) |
| Store.SingleUser | src/contexts/AuthContext.tsx:82-90 | a user is returned exactly when one row has the employee id, and it is that row: whenever exactly the row at index i has the id, the result is that row |
| Store.SatisfiesAppend | src/components/OpinionList.tsx:90-133 | adding one constraint to a query keeps exactly the rows that satisfy the old constraints and the new one |
| AdminPanel.SearchQuery | src/components/AdminPanel.tsx:107-139 | a row satisfies the constructed query iff its `created_at` lies in the year/quarter window and, unless the status filter is 'all', its status equals the filter |
| AdminPanel.Enrich | src/components/AdminPanel.tsx:161-189 | department from the requester join on `user_id`, responsible department from the processor join on `proc_id`, category fallback '기타', affiliate fallback '알 수 없음', `seq` falling back to `id`, name falling back to '익명', the score carried over; status defaulting to '접수'; title, proposal and answer defaulting to ''; empty optional texts becoming absent; the registration date formatted from `created_at` |
| AdminPanel.EnrichAll | src/components/AdminPanel.tsx:161-189 | every row is enriched, in order, and none is added or lost |
| AdminPanel.TwoJoinsStaySeparate | src/components/AdminPanel.tsx:163-181 | with distinct requester and processor, the requester's department lands in `dept` and the processor's in `prod_dept` |
| AdminPanel.FilterRows | src/components/AdminPanel.tsx:191-215 | the rows left after the successive filter passes are exactly the enriched rows that pass every filter, in their original order |
| AdminPanel.Keeps | src/components/AdminPanel.tsx:191-215 | a kept row has the chosen category and affiliate unless 'all' is chosen, and contains the trimmed, lower-cased search text in name, id, title or proposal when the text is not blank; a blank text with 'all' twice keeps every row |
| AdminPanel.NoFilterKeepsAll | src/components/AdminPanel.tsx:193-214 | a blank search text with category and affiliate 'all' keeps every row |
| AdminPanel.SearchIgnoresCase | src/components/AdminPanel.tsx:193-201 | a title that contains the trimmed search text, in any letter case, is kept |
| AdminPanel.FiltersKeepOrder | src/components/AdminPanel.tsx:134-214 | the filters only remove rows: any order the rows were in (the id-descending order) still holds after them |
| AdminPanel.SearchResultSound | src/components/AdminPanel.tsx:98-218 | every row of the search result passes the client filters and is the enrichment of a table row inside the query window |
| AdminPanel.SearchResult | src/components/AdminPanel.tsx:98-218 | no more rows than the table; every shown row passes the filters; every table row inside the query window whose joined form passes the filters is shown |
| AdminPanel.RunSearch | src/components/AdminPanel.tsx:107-215 | the query built from year, quarter and status, the joins and the three filter passes give exactly the search result |
| AdminPanel.AdminPanelState.constructor | src/components/AdminPanel.tsx:66-75 | the panel starts at the current year and quarter, every filter 'all' or empty, nothing searched and no data |
| AdminPanel.AdminPanelState.HandleSearch | src/components/AdminPanel.tsx:98-236 | the filters are untouched; a failed query leaves no data; otherwise the data is the search result and the panel is marked searched; loading ends either way |
| AdminPanel.Cells | src/components/AdminPanel.tsx:262-284 | an export row has as many cells as the seven-column header and the width list, and each cell holds the field of its column, in header order |
| AdminPanel.ToExportRow | src/components/AdminPanel.tsx:262-270 | the k-th row carries the number k, the processor's department, the category, the title, the requester's department, the proposal and the answer |
| AdminPanel.ExportOpinions | src/components/AdminPanel.tsx:238-260 | empty data fails with "no data"; data that is all blinded fails with "nothing downloadable"; otherwise the rows are numbered 1..N and the written plus excluded rows add up to the input |
| AdminPanel.ExportWritesUnblinded | src/components/AdminPanel.tsx:250-270 | the exported rows are exactly the unblinded opinions, in order, each mapped to its numbered row |
| AdminPanel.ExcludedAreBlinded | src/components/AdminPanel.tsx:295 | the excluded count is the number of blinded opinions |
| AdminPanel.ExportMessage | src/components/AdminPanel.tsx:295-298 | the notice mentions excluded rows, with their number, exactly when some were excluded |
| OpinionList.ListQuery | src/components/OpinionList.tsx:90-133 | a row satisfies the built query iff it lies in the year/quarter window, after `dateFrom` when given, before `dateTo` + 'T23:59:59' when given, and has the filtered status unless 'all' |
| OpinionList.ListWindowWithinYear | src/components/OpinionList.tsx:109-120 | a row found with a quarter is also found with quarter 'all' for the same year |
| OpinionList.ListEnrich | src/components/OpinionList.tsx:154-172 | category fallback '기타', affiliate fallback '알 수 없음', status fallback '접수'; title, situation, proposal and submitter defaulting to ''; content equal to the title, registration date equal to `created_at`; id, seq and quarter copied, `updated_at` present only when non-empty |
| OpinionList.DateToDayDroppedAsWritten | src/components/OpinionList.tsx:234-240 | as written, a row registered on the `dateTo` day, which the query admits, fails the client's date check |
| OpinionList.QueriedRowsPassDayBounds | src/components/OpinionList.tsx:123-128 | with the date check corrected to compare days, every timestamp the query admits passes it |
| OpinionList.AsWrittenWithinDayBounds | src/components/OpinionList.tsx:234-240 | every row the as-written date check keeps also passes the day-to-day check, so the defect only drops rows |
| OpinionList.MatchesDate | src/components/OpinionList.tsx:234-240 | the accumulated date check equals the as-written predicate: each bound that is set is compared with the whole `reg_date` timestamp |
| OpinionList.FilteredOpinions | src/components/OpinionList.tsx:225-243 | no data shows nothing; otherwise an opinion is shown iff it is in the data and passes search, category and the as-written date checks, and each passing opinion is shown exactly as many times as it was loaded |
| OpinionList.FilteredOpinionsKeepOrder | src/components/OpinionList.tsx:225-243 | the filter keeps any order of the loaded list, such as id-descending |
| OpinionList.NoFilterShowsAll | src/components/OpinionList.tsx:225-243 | an empty search, category 'all' and no dates show every opinion, in order |
| OpinionList.SearchIgnoresCase | src/components/OpinionList.tsx:226-229 | a proposal containing the search term in any letter case matches |
| OpinionList.StatusColor | src/components/OpinionList.tsx:201-218 | unknown statuses get the gray tone, and gray is used only for '보류' and unknown statuses |
| OpinionList.StatusColorsDistinct | src/components/OpinionList.tsx:201-218 | two statuses with the same non-gray tone are the same status |
| OpinionList.StatusText | src/components/OpinionList.tsx:220-222 | the status itself when it is non-empty, and '알 수 없음' for an empty one |
| OpinionDetailModal.ValidateResponse | src/components/admin/OpinionDetailModal.tsx:101-115 | the checks run in order: no administrator profile, then no status, then a blank answer (whatever the status); success only when all three pass |
| OpinionDetailModal.UpdateFor | src/components/admin/OpinionDetailModal.tsx:127-137 | the update is keyed by the opinion's `seq` and carries the status, the answer, the administrator's employee id and name (possibly NULL) and the time |
| OpinionDetailModal.ApplyResponse | src/components/admin/OpinionDetailModal.tsx:140-151 | exactly status, answer, responder id and responder name take the written values; every other field stays |
| OpinionDetailModal.ApplyResponseIdempotent | src/components/admin/OpinionDetailModal.tsx:146-151 | applying the same answer twice is the same as applying it once |
| OpinionDetailModal.ResponseKeepsBlinding | src/components/admin/OpinionDetailModal.tsx:77 | answering never changes whether an opinion is blinded or exportable |
| OpinionDetailModal.ExportAndDialogAgree | src/components/admin/OpinionDetailModal.tsx:77 | the dialog's blinding and the export's filter (`AdminPanel.tsx:250`) use the one threshold: an opinion is exported iff the dialog does not blind it |
| OpinionDetailModal.AnsweredShowsResultCard | src/components/admin/OpinionDetailModal.tsx:365 | after a non-blank answer with status '답변완료', a non-administrator sees the result card |
| OpinionDetailModal.ResponseModal.constructor | src/components/admin/OpinionDetailModal.tsx:48-52 | the dialog holds its opinion with an empty status, an empty answer and no submission in progress |
| OpinionDetailModal.ResponseModal.Open | src/components/admin/OpinionDetailModal.tsx:55-72 | opening copies the opinion's status and answer into the form |
| OpinionDetailModal.ResponseModal.HandleSubmit | src/components/admin/OpinionDetailModal.tsx:101-166 | a rejected answer sends nothing and changes nothing; an accepted one sends the update keyed by `seq`, and the local opinion changes only when the write succeeded |
| OpinionDetailModal.StatusColor | src/components/admin/OpinionDetailModal.tsx:79-90 | gray exactly for statuses outside the dialog's three |
| OpinionDetailModal.ResponseStatusColorsDistinct | src/components/admin/OpinionDetailModal.tsx:79-90 | the dialog's three statuses get three different tones |
| Moderation.IsBlinded | src/components/admin/OpinionDetailModal.tsx:77 | an opinion is blinded iff its negativity score is at least 3, the threshold the export also uses (`src/components/AdminPanel.tsx:249-250`) |
| Moderation.BlindingMonotone | src/components/AdminPanel.tsx:249-250 | a score above a blinded one is blinded too |
| OpinionDetailModal.FirstRuleTone | src/components/admin/OpinionDetailModal.tsx:92-99 | the tone is that of a rule whose keyword the category contains; with non-gray rules, gray exactly when no rule matches |
| OpinionDetailModal.CategoryColor | src/components/admin/OpinionDetailModal.tsx:92-99 | the category tone is the first matching rule's tone, with rules in the source's order |
| OpinionDetailModal.CategoryGrayIffNoKeyword | src/components/admin/OpinionDetailModal.tsx:92-99 | a category is gray iff it contains none of the keywords |
| OpinionDetail.ResponderLookup | src/components/OpinionDetail.tsx:115-129 | no lookup without a non-empty processor id; with one, a responder is found iff exactly one user has that employee id, and then it is that user |
| OpinionDetail.SubmitterLookup | src/components/OpinionDetail.tsx:107-112 | a submitter is found iff exactly one user has the opinion's `user_id` ('' when NULL) as employee id, and then it is that user |
| OpinionDetail.FormatOpinion | src/components/OpinionDetail.tsx:138-161 | defaults '미분류', '미지정', '미지정', '익명' and '접수'; the submission time is `reg_date`, else `created_at`, else ''; a zero score becomes absent; the id as text, the seq, the four texts `asis`, `tobe`, `effect` and `case_study` and `updated_at` present only when non-empty, and `proc_date` equal to `updated_at`; a found submitter gives its department and name, a found responder its department and name when non-empty |
| OpinionDetail.DetailPage.constructor | src/components/OpinionDetail.tsx:63-67 | the page starts with no opinion, empty notes and status, and data loading |
| OpinionDetail.DetailPage.FetchOpinionDetail | src/components/OpinionDetail.tsx:78-181 | a fetched row becomes the formatted opinion and fills the answer and status fields; a failed fetch changes nothing; loading ends |
| OpinionDetail.DetailPage.HandleSaveAdminNotes | src/components/OpinionDetail.tsx:213-261 | the update carries status, answer, processor 'admin001' and one shared timestamp; the local opinion changes only after a successful write, and then its processing date and update time are both that timestamp; the shown processing date keeps equal to the update time |
| OpinionDetail.StatusColor | src/components/OpinionDetail.tsx:190-207 | unknown statuses get the gray tone |
| OpinionDetail.ReviewAndProgressShareColor | src/components/OpinionDetail.tsx:190-207 | '검토중' and '처리중' share a tone, and '답변완료' has another |
| DashboardStats.Submitters | src/components/DashboardStats.tsx:57-67 | exactly the non-NULL `user_id` values of the opinions |
| DashboardStats.UserCount | src/components/DashboardStats.tsx:57-67 | at most the number of opinions, and 0 iff no opinion has a `user_id` |
| DashboardStats.SubmittersBound | src/components/DashboardStats.tsx:57-67 | the number of distinct submitters never exceeds the number of opinions |
| DashboardStats.AnsweredNotCountedAsWritten | src/components/DashboardStats.tsx:72-79 | as written, a table of answered ('답변완료') opinions shows 0 processed |
| DashboardStats.ProcessedCountAsWritten | src/components/DashboardStats.tsx:72-79 | as written: 0 when the count query fails; otherwise at most the total, and 0 iff no opinion has status '처리완료' |
| DashboardStats.ProcessedCount | src/components/DashboardStats.tsx:72-79 | the corrected count is 0 when the query fails, and otherwise the number of answered or completed opinions, at most the total |
| DashboardStats.ProcessedCountSplits | src/components/DashboardStats.tsx:72-79 | the corrected count is the count as written plus the number of answered opinions |
| DashboardStats.ProcessedCountCoversAsWritten | src/components/DashboardStats.tsx:72-79 | the corrected count is never below the count as written |
| DashboardStats.ProcessedRate | src/components/DashboardStats.tsx:229-230 | 0 without opinions; otherwise within half a percent of 100·processed/total, halves rounding up |
| DashboardStats.ProcessedRateBounds | src/components/DashboardStats.tsx:229-230 | the rate is a percentage: 0 with nothing processed, 100 with everything processed |
| DashboardStats.PendingCount | src/components/DashboardStats.tsx:231 | pending and processed add up to the total |
| DashboardStats.ChartNames | src/components/DashboardStats.tsx:113-146 | the chart lists the loaded names in order, or exactly the default names, in order, when nothing was loaded |
| DashboardStats.RecentOpinions | src/components/DashboardStats.tsx:148-152 | the first ten opinions (all when fewer), each keeping the id, title, status and quarter of the opinion at its position and labelled with the chart names cycled by position, with fallbacks '일반' and '본사' |
| DashboardStats.RecentKeepsOrder | src/components/DashboardStats.tsx:148-152 | the recent opinions keep the id-descending order of the table |
| DashboardStats.Displayed | src/components/DashboardStats.tsx:280 | at most five recent opinions are shown, the first ones |
| DashboardStats.DashboardWith | src/components/DashboardStats.tsx:24-172 | any failed query except the processed count is fatal; the card shows the given processed count, the total, pending as their difference and a rate in 0..100 |
| DashboardStats.LoadDashboard | src/components/DashboardStats.tsx:24-172 | as written: any failed query except the processed count is fatal; the processed count is the '처리완료' count (0 when its query fails); the totals are consistent |
| DashboardStats.LoadDashboardCorrected | src/components/DashboardStats.tsx:24-172 | with the corrected count: fails exactly when the as-written card fails, and shows a processed count never below it |
| DashboardStats.EmojiFor | src/components/DashboardStats.tsx:318-328 | known categories get their emoji, others 💡 |
| DashboardStats.DefaultCategoriesHaveEmoji | src/components/DashboardStats.tsx:318-328 | each default chart category has an emoji of its own |
| OpinionSubmissionForm.RequiredFields | src/components/OpinionSubmissionForm.tsx:114-116 | eight required fields, among them the title and the employee id |
| OpinionSubmissionForm.ValidateSubmission | src/components/OpinionSubmissionForm.tsx:114-135 | rejected iff a field is empty, then iff the category or affiliate name is unknown; otherwise the ids of the first loaded category and the first loaded affiliate with the chosen names |
| OpinionSubmissionForm.NewRecord | src/components/OpinionSubmissionForm.tsx:137-148 | status '접수' and the submission time as `reg_date`; the title as both title and content; situation and proposal as `asis` and `tobe`; the submitter's employee id and the quarter; the chosen category and affiliate ids |
| OpinionSubmissionForm.Reset | src/components/OpinionSubmissionForm.tsx:170-180 | the reset clears category, title, situation and proposal and keeps affiliate, department, employee id, name and quarter |
| OpinionSubmissionForm.Prefill | src/components/OpinionSubmissionForm.tsx:77-93 | company, department, id and name come from stored user info, '' when missing; other fields stay |
| OpinionSubmissionForm.ResetFormIsRejected | src/components/OpinionSubmissionForm.tsx:170-180 | a reset form cannot be submitted again as is |
| OpinionSubmissionForm.ResetIdempotent | src/components/OpinionSubmissionForm.tsx:170-180 | resetting twice equals resetting once, and reset commutes with the prefill |
| OpinionSubmissionForm.PrefilledFormAccepted | src/components/OpinionSubmissionForm.tsx:77-135 | a form prefilled from complete user info and filled with known choices is accepted |
| OpinionSubmissionForm.SubmittedOpinionListed | src/components/OpinionSubmissionForm.tsx:137-148 | the inserted record, read back by the opinion list, shows status '접수', its title as content and the chosen category |
| OpinionSubmissionForm.SubmittedOpinionDownloadable | src/components/OpinionSubmissionForm.tsx:137-148 | a new submission is never blinded and can be exported |
| OpinionSubmissionForm.SubmissionForm.constructor | src/components/OpinionSubmissionForm.tsx:23-36 | an empty form, not submitting, with no master data |
| OpinionSubmissionForm.SubmissionForm.LoadMasterData | src/components/OpinionSubmissionForm.tsx:41-75 | each loaded list replaces the old one, an empty answer gives an empty list, a failed load keeps the old list |
| OpinionSubmissionForm.SubmissionForm.LoadUserInfo | src/components/OpinionSubmissionForm.tsx:77-93 | stored user info prefills the form; without it nothing changes |
| OpinionSubmissionForm.SubmissionForm.SetCurrentQuarter | src/components/OpinionSubmissionForm.tsx:96-108 | only the form's quarter changes, to the month's quarter |
| OpinionSubmissionForm.SubmissionForm.HandleSubmit | src/components/OpinionSubmissionForm.tsx:111-190 | an incomplete form or unknown choice sends nothing; an accepted one sends the new record and resets the form only when the insert succeeded |
| UserManagement.Transform | src/components/UserManagement.tsx:67-76 | role defaults to 'user' and status to 'active', and a non-empty stored role or status is kept; name, email, department and creation time default to ''; affiliate name looked up |
| UserManagement.TransformKeepsRole | src/components/UserManagement.tsx:67-76 | a listed user counts as administrator iff the stored role is 'admin' |
| UserManagement.EmptyTermMatchesAll | src/components/UserManagement.tsx:93-99 | an empty term matches every user |
| UserManagement.SearchIgnoresCase | src/components/UserManagement.tsx:93-99 | matching a term and its lowercase form are the same |
| UserManagement.BeforeTotal | src/components/UserManagement.tsx:100-107 | the sort order compares every two users |
| UserManagement.BeforeTrans | src/components/UserManagement.tsx:100-107 | the sort order is transitive |
| UserManagement.Insert | src/components/UserManagement.tsx:100-107 | insertion adds exactly the one user |
| UserManagement.SortUsers | src/components/UserManagement.tsx:100-107 | sorting is a permutation |
| UserManagement.InsertSorted | src/components/UserManagement.tsx:100-107 | insertion into a sorted list keeps it sorted |
| UserManagement.SortUsersSorted | src/components/UserManagement.tsx:100-107 | the sorted list has every administrator before every other user and names in order within each group |
| UserManagement.FilteredUsersCorrect | src/components/UserManagement.tsx:93-107 | the shown list is a permutation of the matching users, holds exactly them, and is sorted admin-first then by name |
| UserManagement.FilteredUsers | src/components/UserManagement.tsx:93-107 | a permutation of the users matching the term, so never more users than were loaded |
| UserManagement.EmptySearchShowsAll | src/components/UserManagement.tsx:93-99 | an empty search shows every user |
| UserManagement.ToggledRole | src/components/UserManagement.tsx:119 | the new role is 'admin' exactly when the user was not one, and is 'admin' or 'user' |
| UserManagement.ToggleTwice | src/components/UserManagement.tsx:119 | toggling twice gives the role back exactly for 'admin' and 'user' |
| UserManagement.WithRole | src/components/UserManagement.tsx:135-141 | only entries with the employee id change, and only in their role |
| UserManagement.UserList.constructor | src/components/UserManagement.tsx:32-35 | no users, no search term, loading |
| UserManagement.UserList.FetchUsers | src/components/UserManagement.tsx:38-87 | a loaded table replaces the list, each row transformed in order; a failure keeps the list; loading ends |
| UserManagement.UserList.HandleAdminToggle | src/components/UserManagement.tsx:117-146 | the flipped role is written; only after a successful update does the list change, in that user's role alone |
| UserManagement.SwitchFlipsOneUser | src/components/UserManagement.tsx:135-141 | with unique employee ids, the toggle flips the chosen user's administrator status and leaves every other user as it was |
| UserRegistrationForm.FillFromExisting | src/components/UserRegistrationForm.tsx:78-97 | an existing user's name, email and department fill the form, and the affiliate is the name of the first loaded affiliate with the user's `company_id`, or '' when none has it |
| UserRegistrationForm.ValidateRegistration | src/components/UserRegistrationForm.tsx:115-148 | checks in order: a required field empty, a password needed but missing, a mismatch, an unknown affiliate, each an iff; when every check passes, the id of the first affiliate with the chosen name |
| UserRegistrationForm.PasswordRequiredIff | src/components/UserRegistrationForm.tsx:127-133 | with no password typed, it is demanded iff the user is new; an existing user never fails a password check |
| UserRegistrationForm.BuildUserData | src/components/UserRegistrationForm.tsx:154-186 | role 'user' and status 'active' always; a hash only when a password was typed; a creation time only for a new user |
| UserRegistrationForm.Updated | src/components/UserRegistrationForm.tsx:170-178 | the record's employee id, name, email, department, affiliate id, status and role are written; a sent hash replaces the old one and without one the old hash stays; the user's id and creation time are kept |
| UserRegistrationForm.UpdateWritesUserRole | src/components/UserRegistrationForm.tsx:154-178 | re-saving an administrator through the form makes them a plain user |
| UserRegistrationForm.ErrorNotice | src/components/UserRegistrationForm.tsx:201-215 | the duplicate-id notice is shown exactly for error code 23505 |
| UserRegistrationForm.RegistrationForm.constructor | src/components/UserRegistrationForm.tsx:15-26 | an empty form, not loading, not an existing user, no affiliates |
| UserRegistrationForm.RegistrationForm.LoadCompanies | src/components/UserRegistrationForm.tsx:28-50 | a loaded list replaces the affiliates, an empty answer gives none, a failure keeps them |
| UserRegistrationForm.RegistrationForm.HandleInputChange | src/components/UserRegistrationForm.tsx:52-104 | a field change is stored; an employee id of three or more characters triggers the lookup, which fills the form from the single existing user |
| UserRegistrationForm.RegistrationForm.HandleSubmit | src/components/UserRegistrationForm.tsx:115-245 | a rejected form sends nothing; an accepted one sends the built record; success resets every field and the existing-user flag |
| Login.FirstWithId | src/pages/Login.tsx:68-84 | the user found has the employee id; none is found iff no user has it |
| Login.CheckCredentials | src/pages/Login.tsx:25-100 | checks in order: an empty field, an unknown id, a wrong hash, an inactive account; success gives an active user with matching hash |
| Login.PasswordBeforeStatus | src/pages/Login.tsx:90-100 | an inactive account with a wrong password is reported as a wrong password |
| Login.LandingUrl | src/pages/Login.tsx:221-227 | administrators land on the dashboard tab, everyone else on the submission tab |
| Login.CompanyName | src/pages/Login.tsx:158-167 | no or zero affiliate id gives ''; a non-empty name belongs to the affiliate with that id; when exactly one affiliate has the id, its name ('' when NULL) |
| Login.StorageInfo | src/pages/Login.tsx:199-207 | stored user info has the role defaulted to 'user' and every other missing field to '' |
| Login.CookieValues | src/pages/Login.tsx:178-196 | exactly the seven session cookies: the affiliate name, id, `isAdmin` as 'true'/'false', role defaulted to 'user', department, name and email defaulted to '' |
| Login.StoredRoleAgrees | src/pages/Login.tsx:174-207 | the cookies and the stored user info carry the same affiliate, department, id, name, email and role; the stored role is never empty and is 'admin' exactly when the account's role is, as the `isAdmin` cookie says |
| Login.LoginPage.constructor | src/pages/Login.tsx:19-23 | the page starts not loading |
| Login.LoginPage.HandleLogin | src/pages/Login.tsx:25-234 | the failure reported is the first failed check; every failure after the empty-field check clears the session cookies and user info; success writes the cookies and user info of the single matching user and returns the landing URL for its role |
| AuthContext.CheckSignIn | src/contexts/AuthContext.tsx:82-100 | no single matching user, then a wrong hash, then an inactive account, each an iff; success iff all three pass, and it gives that user, active and with matching hash |
| AuthContext.FetchUserProfile | src/contexts/AuthContext.tsx:31-62 | a profile exists iff exactly one user has the id, and then it is that user with its affiliate's name or '' |
| AuthContext.NewSession | src/contexts/AuthContext.tsx:112-128 | the session carries the account's id and role and expires 24 hours after sign-in |
| AuthContext.SessionLifetime | src/contexts/AuthContext.tsx:195-199 | a new session is dropped on restore exactly when the clock is past sign-in plus 24 hours |
| AuthContext.Expired | src/contexts/AuthContext.tsx:195-199 | an expired session has an expiry time the clock is past; one with no expiry time, or 0, never expires |
| AuthContext.ExpiryPersists | src/contexts/AuthContext.tsx:195-199 | a session expired at one time is expired at every later time |
| AuthContext.SignInLandsLikeLoginPage | src/contexts/AuthContext.tsx:139-145 | the provider's landing page depends only on role == 'admin' and equals the sign-in page's |
| AuthContext.SignInAgreesWithLoginPage | src/contexts/AuthContext.tsx:82-100 | when the id names exactly one account, the provider and the sign-in page accept the same account and refuse for the same reason |
| AuthContext.AuthState.constructor | src/contexts/AuthContext.tsx:25-28 | the provider starts loading with no user, profile or session |
| AuthContext.AuthState.SignIn | src/contexts/AuthContext.tsx:73-155 | a refusal changes nothing but loading; success stores the new session and token, sets the user and loads the profile, and returns the landing URL |
| AuthContext.AuthState.SignOut | src/contexts/AuthContext.tsx:158-175 | the token, user, profile and session are all cleared |
| AuthContext.AuthState.GetSession | src/contexts/AuthContext.tsx:182-225 | no token, an unreadable or an expired one clears everything; a live one restores the session and user, and reloads the profile when the session names a user |
| AuthContext.AuthState.RefreshUserProfile | src/contexts/AuthContext.tsx:65-70 | with a signed-in user the profile is reloaded; otherwise nothing changes |
| AuthContext.SignInThenRestore | src/contexts/AuthContext.tsx:127-199 | a session signed in at `t` is restored iff the restore happens no later than `t` plus 24 hours, and cleared otherwise |
| ProtectedRoute.ProfileRole | src/components/ProtectedRoute.tsx:24 | the role checked is the profile's, absent without a profile |
| ProtectedRoute.Render | src/components/ProtectedRoute.tsx:32-62 | loading view iff loading or signed out; denied view iff a non-administrator on an administrators' route; the content otherwise |
| ProtectedRoute.RedirectOf | src/components/ProtectedRoute.tsx:16-30 | to sign-in iff done loading and signed out; to the dashboard iff a signed-in non-administrator on an administrators' route |
| ProtectedRoute.RenderAgreesWithRedirect | src/components/ProtectedRoute.tsx:16-60 | the denied view comes exactly with the redirect to the dashboard, sign-in redirects only show the loading view, and content never comes with a redirect |
| ProtectedRoute.PlainRouteIgnoresRole | src/components/ProtectedRoute.tsx:12 | with the default `requireAdmin` the role never changes the view or the redirect, and access is never denied |
| ProtectedRoute.GuardAfterSignOut | src/components/ProtectedRoute.tsx:16-42 | after sign-out every route shows the loading view and redirects to sign-in |
| ProtectedRoute.GuardAfterSignIn | src/components/ProtectedRoute.tsx:44-62 | after sign-in an administrators' route shows its content iff the loaded profile's role is 'admin' |
| DashboardPage.TabUrl | src/app/dashboard/page.tsx:91-101 | the submission tab gives '/dashboard', any other tab '/dashboard?tab=' followed by the tab |
| DashboardPage.TabParam | src/app/dashboard/page.tsx:63 | a tab parameter is read exactly from URLs of the tab form |
| DashboardPage.TabUrlRoundTrip | src/app/dashboard/page.tsx:91-101 | reading back a tab change's URL gives the tab, except that the submission tab leaves no parameter |
| DashboardPage.TabUrlInjective | src/app/dashboard/page.tsx:96-100 | different tabs push different URLs |
| DashboardPage.ShownPanel | src/app/dashboard/page.tsx:268-274 | statistics, management and user panels only for administrators, the form iff the submission tab, the detail only with a selected opinion |
| DashboardPage.NonAdminPanels | src/app/dashboard/page.tsx:268-274 | a non-administrator sees at most the submission form or an opinion's detail |
| DashboardPage.DashboardPageState.constructor | src/app/dashboard/page.tsx:24-27 | submission tab, not administrator, nothing selected, menu closed |
| DashboardPage.DashboardPageState.LoadUserInfo | src/app/dashboard/page.tsx:30-57 | stored info sets the administrator flag from the role, and the role's default tab only when the URL names none |
| DashboardPage.DashboardPageState.ApplySearchParams | src/app/dashboard/page.tsx:60-73 | an opinion id wins and opens its detail; otherwise a tab parameter becomes the tab and clears the selection |
| DashboardPage.DashboardPageState.HandleTabChange | src/app/dashboard/page.tsx:91-102 | the tab becomes active, the menu closes, and the pushed URL reads back as that tab |
| DashboardPage.DashboardPageState.HandleLogout | src/app/dashboard/page.tsx:75-89 | the seven session cookies and the user info are removed, other cookies stay, and the page goes to '/login' |
| DashboardPage.OpenAfterLogin | src/app/dashboard/page.tsx:30-73 | arriving from sign-in, administrators see the statistics panel and everyone else the submission form |
| DashboardPage.ReloadAfterTabChange | src/app/dashboard/page.tsx:43-54 | reloading after a tab change returns to that tab, except that an administrator reloading the submission tab lands on the statistics tab |
| AppSidebar.CookieSep | src/components/AppSidebar.tsx:93 | the separator is '; ' + name + '=' |
| AppSidebar.GetCookie | src/components/AppSidebar.tsx:90-95 | a value exists iff the split gives exactly two pieces, and it holds no ';' |
| AppSidebar.SplitFirstHasNoSep | src/components/AppSidebar.tsx:93 | the first piece of a split never holds the separator |
| AppSidebar.GetCookieReads | src/components/AppSidebar.tsx:90-95 | on a well-formed cookie header, the value of the only entry with the name; null when the name is absent or repeated |
| AppSidebar.SplitBlocks | src/components/AppSidebar.tsx:93 | splitting a header on `'; name='` gives one piece more than there are entries with the name |
| AppSidebar.Sidebar.constructor | src/components/AppSidebar.tsx:44-46 | the dialog is closed, the password empty and the mobile menu closed |
| AppSidebar.Sidebar.ApplyProfile | src/components/AppSidebar.tsx:55-60 | a loaded profile sets the administrator mode to role == 'admin'; nothing else changes |
| AppSidebar.Sidebar.HandleMenuClick | src/components/AppSidebar.tsx:97-103 | the tab is set; the mobile menu closes only on a phone |
| AppSidebar.Sidebar.HandleAdminToggle | src/components/AppSidebar.tsx:105-114 | leaving the mode is immediate and goes to the submission tab; entering only opens the dialog |
| AppSidebar.Sidebar.SetPassword | src/components/AppSidebar.tsx:286 | only the password field changes |
| AppSidebar.Sidebar.HandlePasswordSubmit | src/components/AppSidebar.tsx:116-134 | accepted iff the password is right: then the mode is entered, the dialog closes and the dashboard opens; a wrong password changes nothing else; the field is cleared either way |
| AppSidebar.Sidebar.HandleDialogClose | src/components/AppSidebar.tsx:136-139 | the dialog closes and the password is cleared |
| AppSidebar.Sidebar.HandleLogout | src/components/AppSidebar.tsx:145-152 | signing out clears the provider's user, profile, session and token, and the page goes to '/login' |
| AppSidebar.ToggleThenSubmit | src/components/AppSidebar.tsx:105-134 | from outside the mode, toggle then submit enters the mode exactly when the typed password is right |
| Browser.ClientStorage.ClearSession | src/app/dashboard/page.tsx:75-88 | the seven session cookies and user info are removed; every other cookie stays |
| Browser.ClientStorage.SetCookies | src/pages/Login.tsx:191-196 | the given cookies are set over the old ones |
| Browser.ClientStorage.StoreUserInfo | src/pages/Login.tsx:198-208 | the user info entry is written; cookies stay |

## Left out

- Supabase, react-query caching and refetching, and `Promise.all`. Tables are sequences, and a failing query is a `Result` or a boolean parameter where the page reacts to the failure; the lookups named in the next line do not model it. Only the filter semantics of `.eq`, `.gte`, `.lte`, `.not` and `.order` are modelled.
- Network failures of lookups the model reads straight from the tables: the sign-in page's query by employee id (`src/pages/Login.tsx:68-80`, where a failure without data reads as an unknown id), its `.single()` re-read (`src/pages/Login.tsx:142-153`, modelled only as no single row being found), the provider's user lookups in `src/contexts/AuthContext.tsx`, and the detail page's submitter and responder lookups (`src/components/OpinionDetail.tsx:107-129`, where a failure reads as no user).
- Exceptions and `catch` blocks. Each failure becomes one of these parameters or outcomes, and toasts and console logging are not modelled.
- Writing the spreadsheet workbook and file. Only the row mapping, the column constants and the excluded count are modelled.
- SHA-256. The hash is a function parameter.
- `new Date()`, `Date.now()`, `toISOString` and `toLocaleDateString`:
  - the current time, the current month and year, and the ISO rendering of a parsed date are parameters;
  - a year that does not parse (`NaN`) is not modelled.
- Timestamps with time zones. They are compared as ISO strings.
- Cookies. Expiry dates and URI encoding are not modelled, and an expired cookie is an absent one.
- Local storage and the session token. They are structured values, not JSON text. The session and token id strings, built from the clock and random digits, are left out.
- Router pushes. They appear only as returned URLs. URL parsing covers only the forms the pages produce.
- The asynchronous order of the effects, the `mounted` flag and re-renders. Each effect and handler runs to completion, one at a time.
- JSX, CSS classes and charts. Colours are an abstract `Tone`.
- Writes of `last_login_at`. Nothing reads them.
- The sign-in page's success dialog and its close handler. They only navigate.
- `SearchFilters.tsx`, `layout.tsx`, `not-found.tsx`, `app/page.tsx`, `app/admin/page.tsx`, `app/login/page.tsx`, `pages/Admin.tsx` and `app/opinion/[id]/page.tsx`. They are presentational or routing wrappers.
- The moderation scorer. No shown code computes `negative_score`, so the score is an input.
- Aliasing. The answer dialog's opinion is a value held by the dialog, so the panel's list does not see the update.
- DashboardStats.ChartNames: the random counts of the placeholder charts (`Math.random`) are left out, and only the names are modelled.
- DashboardStats.ProcessedRate: `Math.round` over a floating-point quotient is integer rounding with halves up; floating-point error is not modelled.
- Strings.Lower: lowercasing covers ASCII letters only. Korean text has no letter case.
- UserManagement.SortUsers: Korean `localeCompare` collation is an abstract total preorder on names.
- Login.LoginPage.HandleLogin: the repeated query on id, hash and status is the boolean `secondQueryFails` plus the single-user lookup.
- OpinionDetail.StatusColor: its contract only requires unknown statuses to be gray. `ReviewAndProgressShareColor` relates the known ones.

## Findings

| source | as written | input that shows it | evidently intended | confidence | as-written member | corrected member |
|---|---|---|---|---|---|---|
| src/components/OpinionList.tsx:234-240 | the client keeps a row only if `reg_date <= dateTo`. `reg_date` is a full `created_at` timestamp, but `dateTo` is a bare day. | `dateTo` = "2024-03-31" and `created_at` = "2024-03-31T09:00:00". The query admits the row through `dateTo + 'T23:59:59'` (lines 123-128), but the client drops it because the timestamp is longer than the day. | rows from the whole `dateTo` day pass, as the query's bound says | not executed | OpinionList.DateToDayDroppedAsWritten | OpinionList.QueriedRowsPassDayBounds |
| src/components/DashboardStats.tsx:72-79 | the processed count counts status '처리완료' only | a table whose opinions were all answered through the answer dialog or the detail page. Both offer '답변완료' as a status (`OpinionDetailModal.tsx:337`, `OpinionDetail.tsx:465`) and write the chosen status (`OpinionDetailModal.tsx:127-137`, `OpinionDetail.tsx:213-231`), so the dashboard reports 0 processed. | answered opinions count as processed | not executed | DashboardStats.AnsweredNotCountedAsWritten | DashboardStats.ProcessedCount |

The rest of the model follows the code as written: the opinion list's filter (`OpinionList.FilteredOpinions`) uses the as-written date check, and `DashboardStats.LoadDashboard` shows the as-written count. The corrected definitions are `OpinionList.InDayBounds` and `DashboardStats.ProcessedCount`, with `DashboardStats.LoadDashboardCorrected` showing the corrected card.

Three further behaviours follow from the source. They are not counted as defects:

- **Registration role.** The registration form always writes role 'user'. Re-saving an existing administrator through it therefore removes their administrator role (`UserRegistrationForm.UpdateWritesUserRole`).
- **Reload on the submission tab.** `handleTabChange` leaves no tab parameter for the submission tab. An administrator who reloads that tab lands on the statistics tab (`DashboardPage.ReloadAfterTabChange`).
- **Answer dialog.** The answer dialog requires a non-blank answer whatever status is chosen, and it does not check the status against a vocabulary.
