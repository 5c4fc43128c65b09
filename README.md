# cp-judge in Dafny

A model of the core of cp-judge, a competitive-programming judge built on Next.js and tRPC.
A signed-in user submits a program for a problem. The judging router stores the submission
with one PENDING row per test case and sends each test case to a Judge0 server. Each
completion updates its row and publishes a `submission-update` event. The problem page's code
editor follows those events and shows a progress bar and a final toast.

The model also covers the code around that core:
- the `problem` and `profile` routers over a store of users, follows, tags, problems and
  submissions;
- the pager and the badge colours of the admin problem list;
- the test-case viewer and the add-test-case dialog;
- the forms that create and edit a problem;
- the login and registration schemas;
- the profile card with its save, cancel and follow toggle.

Layout, one module per source file (plus two shared modules):

| file | module | models |
|---|---|---|
| common.dfy | Common | `Option`, tRPC error codes, `Result`, `filter` and `findIndex` on sequences |
| store.dfy | Store | the Prisma tables as one `Tables` value, held by a `Database` object |
| judge.dfy | Judge | `judge.ts`: status mapping, language table, the event emitter, `submit`, `onSubmissionUpdate` |
| problem_router.dfy | ProblemRouter | `problem.ts` |
| profile_router.dfy | ProfileRouter | `profile.ts` |
| code_editor.dfy | CodeEditor | `code-editor.tsx` |
| pagination.dfy | Pagination | `problem-pagination.tsx` |
| search_params.dfy | SearchParams | the `URLSearchParams` get/set that the list page and pager use |
| admin_problems.dfy | AdminProblems | `app/admin/problems/page.tsx` |
| test_case_dialog.dfy | TestCaseDialog | `test-case-dialog.tsx` |
| tag_list.dfy | TagList | the tag add/remove rule shared by both problem forms |
| edit_problem.dfy | EditProblem | `edit-problem.tsx` |
| new_problem.dfy | NewProblem | `app/admin/problems/new/page.tsx` |
| add_test_dialog.dfy | AddTestDialog | `add-test-dialog.tsx` |
| zod_schemas.dfy | ZodSchemas | `lib/zod.ts` |
| profile_card.dfy | ProfileCard | `profilecard.tsx` |

How the model is built:
- Server procedures that write to the database are methods on a `Database` object. Each one
  states its whole effect as a new `Tables` snapshot.
- Read-only procedures are functions from `Tables` to a `Result`.
- React components are classes whose fields are the component's state. Their handlers are
  methods, and what a handler sends to the server is recorded in a list field.
- The Judge0 HTTP call is replaced by a `JudgeOutcome` per test case.
- The concurrent fan-out of `submit` is modelled as the completions arriving one at a time, in
  the order given by a permutation `order` of the test-case indices.

Where the code and its documentation disagree, the model follows the code:
- The submission's own status is never written after it is created (see Findings).
- The registration refinement runs whenever all four fields are strings, even when one of them
  failed a length check. That is how zod version 3 treats a refinement over a non-aborted
  object.
- A non-owner's profile update is refused with a plain `Error`, which tRPC reports as an
  internal server error. It is not a FORBIDDEN.

## Model

| member | source | states |
|---|---|---|
| Judge.MapStatus | src/server/api/routers/judge.ts:84-94 | the mapped verdict is terminal exactly for Judge0 codes 3 to 8; every other code stays PENDING |
| Judge.MapStatusIsBijective | src/server/api/routers/judge.ts:84-94 | codes 3..8 and the six terminal verdicts are in one-to-one correspondence (3 ACCEPTED, 4 WRONG_ANSWER, 5 TIME_LIMIT_EXCEEDED, 6 COMPILATION_ERROR, 7 RUNTIME_ERROR, 8 MEMORY_LIMIT_EXCEEDED) |
| Judge.LanguageId | src/server/api/routers/judge.ts:25-58 | NONE is the only language with id 0; every other language has an id between 46 and 85 |
| Judge.LanguageOfId | src/server/api/routers/judge.ts:25-58 | reading the table backwards from a language's id gives that language back |
| Judge.LanguageIdsDistinct | src/server/api/routers/judge.ts:25-58 | no two languages share a Judge0 id |
| Judge.CompletionAgreesWithEvent | src/server/api/routers/judge.ts:146-188 | a response writes its mapped verdict and `message ?? ""` to the row, and the event carries the same status; a failure leaves the row unchanged and publishes status -1 "Error" with the error text as stderr and message |
| Judge.EventBus.constructor | src/server/api/routers/judge.ts:195-214 | the emitter starts with no listeners, no streams and no events |
| Judge.EventBus.Subscribe | src/server/api/routers/judge.ts:197-208 | exactly one listener is registered for the submission, under a fresh handle, with an empty stream; nothing else changes |
| Judge.EventBus.Unsubscribe | src/server/api/routers/judge.ts:210-212 | the torn-down listener is no longer registered, every other listener still is, and the list keeps its order |
| Judge.EventBus.Emit | src/server/api/routers/judge.ts:165-170 | the event is appended to the published log and forwarded to exactly the streams whose registered listener has its submission id |
| Judge.DeliverKeepsOwnEvents | src/server/api/routers/judge.ts:202-206 | delivery preserves the invariant that each stream has received only events of its own submission |
| Judge.Submit | src/server/api/routers/judge.ts:97-126 | unknown slug: NOT_FOUND "Problem not found"; no test cases: NOT_FOUND "No test cases found"; in both cases nothing is written; otherwise one PENDING submission with one placeholder row per test case, returning its id and the test-case count |
| Judge.Placeholders | src/server/api/routers/judge.ts:108-126 | there are as many placeholder rows as test cases; row i is PENDING with output "" and the expected output of test case i |
| Judge.Complete | src/server/api/routers/judge.ts:128-190 | one completion rewrites only row idx of its submission and emits exactly one event for idx |
| Judge.Dispatch | src/server/api/routers/judge.ts:128-190 | whatever the completion order, afterwards row i holds outcome i, one event per completion has been published in completion order, and each subscriber's stream has received exactly the events of its own submission |
| Judge.CompleteNext | src/server/api/routers/judge.ts:128-190 | one step of the fan-out extends the completed prefix of `order` by one index, its row and its event |
| Judge.AllJudged | src/server/api/routers/judge.ts:128-190 | once every index of a permutation is done, every row holds its own outcome, whatever the order |
| Judge.EachIndexExactlyOnce | src/server/api/routers/judge.ts:128-190 | a dispatch of n test cases publishes n events of that submission, each with total n, and every index below n at exactly one position |
| Judge.SubmitAndJudge | src/server/api/routers/judge.ts:97-193 | submit followed by the whole fan-out: an unknown slug gives NOT_FOUND "Problem not found", a problem without test cases NOT_FOUND "No test cases found", and every other slug succeeds; errors write nothing and publish nothing; on success the stored submission has every row judged but its own status still PENDING, and the events are those of the dispatch |
| Judge.OverallVerdict | src/server/api/routers/judge.ts:153-163 | a submission's verdict is ACCEPTED exactly when every row is ACCEPTED; otherwise it is the verdict of some row |
| Judge.SettledVerdict | src/server/api/routers/judge.ts:153-163 | a judged submission settles to ACCEPTED exactly when Judge0 answered status 3 for every test case |
| Judge.SubmitJudgeAndSettle | src/server/api/routers/judge.ts:97-193 | the corrected procedure: the same errors, messages and success condition as SubmitAndJudge, but the stored submission takes its overall verdict, so it is ACCEPTED exactly when every test case was |
| Judge.Settle | src/server/api/routers/judge.ts:153-163 | only the status of one submission changes, to the overall verdict of its rows |
| ProblemRouter.UpsertTags | src/server/api/routers/problem.ts:76-85 | after the upsert loop the tag set is the old set plus the input names; nothing else changes |
| ProblemRouter.AppendedSlugIsFound | src/server/api/routers/problem.ts:64-74 | once a problem with a fresh slug is inserted, looking up that slug finds it |
| ProblemRouter.Create | src/server/api/routers/problem.ts:48-115 | schema failure: BAD_REQUEST; non-admin: FORBIDDEN; slug in use: BAD_REQUEST; none of these writes anything; when all three checks pass the call succeeds; success inserts exactly the new problem under the next id and upserts its tags |
| ProblemRouter.InsertProblem | src/server/api/routers/problem.ts:76-114 | the create transaction adds the input tags and appends exactly the new problem, whose slug lookup then finds it |
| ProblemRouter.AppendKeepsWellFormed | src/server/api/routers/problem.ts:64-114 | appending a problem with a fresh id and an unused slug keeps ids and slugs unique |
| ProblemRouter.FreshTestCases | src/server/api/routers/problem.ts:466-480 | one created test case per input, in input order, with the input's texts and consecutive fresh ids |
| ProblemRouter.ReplaceKeepsWellFormed | src/server/api/routers/problem.ts:432-497 | rewriting a problem under its own id with a slug no other problem has keeps the tables well formed |
| ProblemRouter.Update | src/server/api/routers/problem.ts:388-518 | schema failure: BAD_REQUEST; non-admin: FORBIDDEN; unknown id: NOT_FOUND; changed slug already used: BAD_REQUEST; errors write nothing; when every check passes the call succeeds; success replaces the problem's fields, tags and test cases |
| ProblemRouter.SlugFreeForUpdate | src/server/api/routers/problem.ts:417-429 | the slug check of update (only a changed slug is looked up) guarantees that no other problem has the slug |
| ProblemRouter.RewriteProblem | src/server/api/routers/problem.ts:432-497 | the update transaction rewrites only that problem, adds the input tags, and advances the id counter by the number of new test cases |
| ProblemRouter.CreateTestCases | src/server/api/routers/problem.ts:466-480 | the create loop returns the fresh test cases in input order, and only the id counter changes |
| ProblemRouter.UpdateReplacesTestCases | src/server/api/routers/problem.ts:434-480 | after an update, the test cases are exactly the input list in order, with pairwise distinct ids at or above the counter value before the update; the tags are the input names; id and author are kept |
| ProblemRouter.GetBySlug | src/server/api/routers/problem.ts:117-182 | empty slug: BAD_REQUEST; NOT_FOUND exactly when no problem has the slug; otherwise that problem with its first test case, or none when it has no test case |
| ProblemRouter.GetBySlugs | src/server/api/routers/problem.ts:184-262 | NOT_FOUND exactly when no problem's slug is listed; valid slugs with a match succeed, and the result is the summaries of exactly the matching problems, each once, in creation order, with their accepted counts |
| ProblemRouter.Summaries | src/server/api/routers/problem.ts:235-241 | one summary per problem, position by position |
| ProblemRouter.SummariesCover | src/server/api/routers/problem.ts:184-241 | every problem whose slug is listed has its summary in the result |
| ProblemRouter.NothingIsEverSolved | src/server/api/routers/problem.ts:213-221 | while every submission is PENDING, every problem's solved count is 0 |
| ProblemRouter.SolvedCountAdd | src/server/api/routers/problem.ts:213-221 | a new submission adds one to its problem's solved count exactly when it is ACCEPTED |
| ProblemRouter.SolvedCount | src/server/api/routers/problem.ts:213-221 | the solved count is 0 exactly when no submission of the problem is ACCEPTED, and never exceeds the number of submissions |
| ProblemRouter.SubmissionCount | src/server/api/routers/problem.ts:334-338 | the submission count is 0 exactly when the problem has no submission, and lies between the solved count and the number of submissions |
| ProblemRouter.SubmissionCountAdd | src/server/api/routers/problem.ts:334-338 | the count is 0 on an empty table, and a new submission adds one exactly when it belongs to the problem, so the count is the number of the problem's submissions |
| ProblemRouter.Row | src/server/api/routers/problem.ts:350-359 | a listing row copies the problem's id, title, difficulty, slug and tags, its submission count is the problem's SubmissionCount (at least the solved count, 0 exactly when there is no submission), and its author is AuthorLabel of the author |
| ProblemRouter.PageSlice | src/server/api/routers/problem.ts:281-344 | the page holds the problems at positions (page-1)*perPage onwards, at most perPage of them |
| ProblemRouter.AdminList | src/server/api/routers/problem.ts:263-386 | a page or perPage that is NaN or out of range: BAD_REQUEST; non-admin: FORBIDDEN; a valid administrator's request succeeds, with one row per problem of the page slice, the total, and a page count with (pageCount-1)*perPage < total <= pageCount*perPage |
| ProblemRouter.PagesArePrefix | src/server/api/routers/problem.ts:281-344 | pages 1 to n laid end to end are the first n*perPage problems |
| ProblemRouter.PagesPartition | src/server/api/routers/problem.ts:281-365 | pages 1 to pageCount list every problem exactly once and in order; every page after the last is empty |
| ProblemRouter.GetTestCases | src/server/api/routers/problem.ts:522-547 | FORBIDDEN exactly for non-admins; an administrator's request succeeds, with the problem's test cases in creation order, none for an unknown id |
| ProfileRouter.GetProfile | src/server/api/routers/profile.ts:12-18 | the user with that username if there is one; None exactly when there is none |
| ProfileRouter.FollowOutcome | src/server/api/routers/profile.ts:121-168 | follow succeeds exactly when the target exists, is not the caller and is not yet followed; each refusal has its own code and message |
| ProfileRouter.UnfollowOutcome | src/server/api/routers/profile.ts:170-198 | unfollow succeeds exactly when the pair exists; otherwise NOT_FOUND |
| ProfileRouter.FollowUser | src/server/api/routers/profile.ts:121-168 | success adds exactly the pair (me, target); a refusal changes nothing; nobody ever follows themselves |
| ProfileRouter.UnfollowUser | src/server/api/routers/profile.ts:170-198 | success removes exactly the pair; a refusal changes nothing |
| ProfileRouter.FollowThenUnfollowRestores | src/server/api/routers/profile.ts:162-198 | after a successful follow, the unfollow succeeds and restores the follow set |
| ProfileRouter.FollowersOf | src/server/api/routers/profile.ts:59-82 | exactly the users that follow the profile |
| ProfileRouter.FollowingsOf | src/server/api/routers/profile.ts:94-117 | exactly the users the profile follows |
| ProfileRouter.GetLastFollowers | src/server/api/routers/profile.ts:51-84 | [] for an unknown username; otherwise min(3, #followers) of the profile's followers, the first ones in table order |
| ProfileRouter.GetLastFollowings | src/server/api/routers/profile.ts:86-119 | [] for an unknown username; otherwise min(3, #followings) of the users the profile follows, the first ones in table order |
| ProfileRouter.GetLastFollowersIsShortList | src/server/api/routers/profile.ts:51-84 | at most three users, all followers, and all of them when there are three or fewer |
| ProfileRouter.UpdatedUserKeepsWellFormed | src/server/api/routers/profile.ts:39-48 | a profile update keeps user ids and usernames unique |
| ProfileRouter.Update | src/server/api/routers/profile.ts:20-49 | fields over their limits or a bad email: BAD_REQUEST; an unknown or foreign profile: refused; the session user's own existing profile with valid input: success; errors write nothing; success changes only that user, and only the fields that were given |
| ProfileRouter.UpdateIdempotent | src/server/api/routers/profile.ts:39-48 | sending the same update twice leaves the user as after the first; id and username never change |
| CodeEditor.Lines | src/components/problem/code-editor.tsx:67 | splitting on '\n' yields at least one piece |
| CodeEditor.LinesRoundTrip | src/components/problem/code-editor.tsx:67 | joining the pieces back with '\n' gives the code; there is one piece more than there are newlines, and no piece contains '\n' |
| CodeEditor.LineNumbers | src/components/problem/code-editor.tsx:67 | the gutter shows 1..k, where k is the number of newlines plus one |
| CodeEditor.ProgressInRange | src/components/problem/code-editor.tsx:77 | for 0 <= idx < total the progress lies in (0, 100], and it is 100 exactly for the last index |
| CodeEditor.Receive | src/components/problem/code-editor.tsx:71-82 | a disabled subscription changes nothing; an enabled one sets the progress of the event; the subscription is dropped and loading stops only on the final event, and an event never starts loading |
| CodeEditor.ReceiveToasts | src/components/problem/code-editor.tsx:79-87 | at most one toast, exactly on the final event of a followed run; it is the success toast exactly when Judge0's status id is 3 |
| CodeEditor.Run | src/components/problem/code-editor.tsx:71-89 | no sequence of events switches the editor to another submission or starts loading |
| CodeEditor.StopsOnlyOnFinalIndex | src/components/problem/code-editor.tsx:71-89 | in any arrival order, the run ends (loading off, subscription disabled) exactly when the event with the last index has arrived |
| CodeEditor.StaysIdle | src/components/problem/code-editor.tsx:71-74 | once the subscription is disabled, later events change nothing and show no toast |
| CodeEditor.Editor.constructor | src/components/problem/code-editor.tsx:61-65 | the editor starts on the C++ template, idle, with progress 0 and no submission |
| CodeEditor.Editor.ChangeLanguage | src/components/problem/code-editor.tsx:121-126 | the language changes and the code becomes that language's template |
| CodeEditor.Editor.EditCode | src/components/problem/code-editor.tsx:158 | only the code changes |
| CodeEditor.Editor.HandleSubmit | src/components/problem/code-editor.tsx:99-115 | progress resets to 0; success stores the submission id and keeps loading; failure stops loading with the "Error submitting code" toast |
| CodeEditor.Editor.OnData | src/components/problem/code-editor.tsx:75-89 | while the subscription is enabled, the progress becomes (idx+1)/total*100; only the last index stops loading, drops the submission id, and shows success exactly when its status id is 3, "Failed: ..." otherwise; the code is kept |
| CodeEditor.Editor.OnError | src/components/problem/code-editor.tsx:90-95 | a subscription error stops loading, drops the submission id and shows "Error receiving updates" |
| CodeEditor.PrematureSuccess | src/components/problem/code-editor.tsx:79-87 | with two test cases where the last index is accepted and arrives first, the run ends at once with "All test cases passed!", although the other test case is a wrong answer |
| CodeEditor.CountingIsOrderIndependent | src/components/problem/code-editor.tsx:75-89 | the corrected consumer finishes exactly when all n indices have arrived, in any order, and reports success exactly when all were accepted |
| CodeEditor.DispatchIsOnePerIndex | src/server/api/routers/judge.ts:128-190 | the events of a dispatch carry every index exactly once, as the corrected consumer needs |
| Pagination.PageRange | src/components/admin/problem-pagination.tsx:18-25 | at most seven items; [] when there are no pages; the first link is 1 and the last is total; links increase strictly within [1, total]; every ellipsis hides at least one page; the current page always has a link; the list is AllPages for at most seven pages, otherwise StartWindow, EndWindow or MiddleWindow according to where the current page lies |
| Pagination.StartWindow | src/components/admin/problem-pagination.tsx:21 | [1, 2, 3, 4, ..., total] |
| Pagination.EndWindow | src/components/admin/problem-pagination.tsx:22 | [1, ..., total-3, total-2, total-1, total] |
| Pagination.MiddleWindow | src/components/admin/problem-pagination.tsx:24 | [1, ..., current-1, current, current+1, ..., total] |
| Pagination.AllPages | src/components/admin/problem-pagination.tsx:19 | exactly the pages 1..total |
| Pagination.PageRangeCoversAll | src/components/admin/problem-pagination.tsx:18-25 | every page from 1 to total is either linked or hidden behind an ellipsis between its two neighbours |
| Pagination.EdgeCovers | src/components/admin/problem-pagination.tsx:21-22 | the start and end windows leave no page uncovered |
| Pagination.MiddleCovers | src/components/admin/problem-pagination.tsx:24 | the middle window leaves no page uncovered |
| Pagination.NumberOr | src/components/admin/problem-pagination.tsx:32-33 | a missing, non-numeric or zero parameter gives the default; any other number is kept |
| Pagination.CeilDiv | src/components/admin/problem-pagination.tsx:35 | the result r satisfies r - 1 < a/b <= r |
| Pagination.TotalPagesFits | src/components/admin/problem-pagination.tsx:35 | with a positive page size, the pages hold every problem and the last page is not empty |
| Pagination.TotalPages | src/components/admin/problem-pagination.tsx:33-35 | with the page size from the query (10 by default): a positive size gives (totalPages-1)*perPage < totalProblems <= totalPages*perPage; a negative one gives totalPages <= 0 and no page link |
| Pagination.PreviousTarget | src/components/admin/problem-pagination.tsx:47-52 | the previous arrow navigates exactly when page > 1, to page - 1 |
| Pagination.NextTarget | src/components/admin/problem-pagination.tsx:74-79 | the next arrow navigates exactly when page < totalPages, to page + 1 |
| Pagination.PageUrlParams | src/components/admin/problem-pagination.tsx:37-41 | the link's query has `page` set to the target page, exactly once, and every other parameter as before |
| SearchParams.GetFilterOther | src/app/admin/problems/page.tsx:70-72 | dropping the pairs of one name removes that name and leaves the lookup of every other name unchanged |
| SearchParams.GetSet | src/app/admin/problems/page.tsx:70-72 | after `set`, the name has the new value and occurs once; every other name looks up as before |
| SearchParams.SetKeepsOthers | src/components/admin/problem-pagination.tsx:38-39 | `set` of one name leaves `get` of every other name unchanged |
| SearchParams.SetOverrides | src/app/admin/problems/page.tsx:70-72 | a second `set` of the same name overrides the first |
| AdminProblems.DifficultyColor | src/app/admin/problems/page.tsx:29-33 | "secondary" exactly up to 300, "default" exactly for 301..600, "destructive" exactly above 600 |
| AdminProblems.DifficultyColorMonotone | src/app/admin/problems/page.tsx:29-33 | a harder problem never gets a lower band |
| AdminProblems.OutlineNeverChosen | src/app/admin/problems/page.tsx:29-33 | the "outline" variant is never returned |
| AdminProblems.AcceptedDifficultiesAreSecondary | src/app/admin/problems/page.tsx:29-33 | every difficulty the server accepts (1 to 10) is shown as "secondary" |
| AdminProblems.QueryOf | src/app/admin/problems/page.tsx:42-46 | each parameter is its query value, or its default when missing |
| AdminProblems.EmptyQueryDefaults | src/app/admin/problems/page.tsx:42-46 | an empty query lists page "1" of "10", sorted by "createdAt" "desc", with an empty search |
| AdminProblems.HandleFilterChange | src/app/admin/problems/page.tsx:65-74 | the key takes the value, page becomes "1" unless the reset is turned off, and every other parameter is kept |
| TestCaseDialog.WidthFor | src/components/admin/test-case-dialog.tsx:26-29 | max-w-7xl exactly above 500, 5xl exactly for 301..500, 4xl exactly for 101..300, 2xl exactly up to 100 |
| TestCaseDialog.ContentWidth | src/components/admin/test-case-dialog.tsx:20-30 | the dialog is as wide as the wider of the widths each text needs on its own |
| TestCaseDialog.ContentWidthSymmetric | src/components/admin/test-case-dialog.tsx:21-24 | swapping input and expected output gives the same width |
| TestCaseDialog.WidthMonotone | src/components/admin/test-case-dialog.tsx:26-29 | a longer text never makes the dialog narrower |
| TestCaseDialog.Truncate | src/components/admin/test-case-dialog.tsx:32-34 | a short text is unchanged; a long one becomes its first maxLength characters followed by "...", of length maxLength+3 |
| TestCaseDialog.TruncateIdempotent | src/components/admin/test-case-dialog.tsx:32-34 | truncating twice is truncating once |
| TagList.AddedTag | src/components/admin/edit-problem.tsx:98-103 | a non-empty, absent tag is appended; otherwise the list is unchanged; the old tags keep their places, and a duplicate-free list stays duplicate-free |
| TagList.WithoutTag | src/components/admin/edit-problem.tsx:105-107 | every copy of the tag goes, every other tag stays, and a duplicate-free list stays duplicate-free |
| TagList.WithoutTagAppend | src/components/admin/edit-problem.tsx:105-107 | removal distributes over concatenation, so the tags that stay keep their order |
| TagList.WithoutTagSingle | src/components/admin/edit-problem.tsx:105-107 | on one tag, removal drops exactly the removed name |
| TagList.AddThenRemoveRestores | src/components/admin/edit-problem.tsx:98-107 | removing a tag just added gives back the list it was added to |
| TagList.RemoveAbsent | src/components/admin/edit-problem.tsx:105-107 | removing an absent tag changes nothing |
| EditProblem.WithoutTestCase | src/components/admin/edit-problem.tsx:109-111 | exactly the test cases with other ids are kept |
| EditProblem.WithoutTestCaseAppend | src/components/admin/edit-problem.tsx:109-111 | removal distributes over concatenation, so the test cases that stay keep their order |
| EditProblem.WithoutTestCaseSingle | src/components/admin/edit-problem.tsx:109-111 | on one test case, removal drops it exactly when it has the removed id |
| EditProblem.ServerTestCases | src/components/admin/edit-problem.tsx:89-96 | the request carries the form's test cases one for one, with their ids and texts |
| EditProblem.SchemasAgree | src/components/admin/edit-problem.tsx:40-47 | the form schema and the server schema agree except on two bounds: the form allows difficulty above 10 and the server allows slugs over 100 characters |
| EditProblem.DialogTestCasesAreAccepted | src/components/admin/edit-problem.tsx:113-120 | test cases from the dialog always pass the server's test-case schema |
| EditProblem.EditForm.constructor | src/components/admin/edit-problem.tsx:60-74 | the form starts from the stored problem, an empty tag box and no requests |
| EditProblem.EditForm.SetValues | src/components/admin/edit-problem.tsx:64-74 | only the field values change |
| EditProblem.EditForm.SetNewTag | src/components/admin/edit-problem.tsx:230 | only the tag box changes |
| EditProblem.EditForm.AddTag | src/components/admin/edit-problem.tsx:98-103 | the tag list follows TagList.AddedTag, and the box is cleared exactly when a tag was added |
| EditProblem.EditForm.RemoveTag | src/components/admin/edit-problem.tsx:105-107 | the tag list becomes TagList.WithoutTag of the old one: every copy of the tag goes and the others stay in order (TagList.WithoutTagAppend, TagList.WithoutTagSingle); nothing else changes |
| EditProblem.EditForm.RemoveTestCase | src/components/admin/edit-problem.tsx:109-111 | the list becomes EditProblem.WithoutTestCase of the old one: the test cases with that id go and the others stay in order (EditProblem.WithoutTestCaseAppend, EditProblem.WithoutTestCaseSingle); nothing else changes |
| EditProblem.EditForm.HandleAddTestCase | src/components/admin/edit-problem.tsx:113-120 | exactly one test case is appended, carrying this problem's id |
| EditProblem.EditForm.Submit | src/components/admin/edit-problem.tsx:89-96 | when the form schema passes, one request is sent with the problem id, the values, the tags and the test cases unchanged; otherwise nothing is sent |
| EditProblem.SameMillisecondRemovesBoth | src/components/admin/edit-problem.tsx:109-111 | two test cases added whole seconds apart get the same id, and removing the second removes the first as well |
| EditProblem.FreshId | src/components/admin/edit-problem.tsx:113-120 | the id differs from every id already in the list |
| EditProblem.EditForm.HandleAddTestCaseFresh | src/components/admin/edit-problem.tsx:113-120 | the corrected handler appends one test case under a fresh id |
| EditProblem.FreshAddThenRemoveRestores | src/components/admin/edit-problem.tsx:109-120 | with a fresh id, removing the test case just added gives back the list |
| AddTestDialog.MillisecondId | src/components/admin/add-test-dialog.tsx:50 | the id is the clock's millisecond part in decimal, one to three digits |
| AddTestDialog.Accepted | src/components/admin/add-test-dialog.tsx:43-53 | a test case is produced exactly when both files have content, with those texts and the millisecond id |
| AddTestDialog.IdsRepeatEverySecond | src/components/admin/add-test-dialog.tsx:50 | clocks a whole number of seconds apart give the same id |
| AddTestDialog.Dialog.constructor | src/components/admin/add-test-dialog.tsx:23-25 | the dialog starts closed with both fields empty |
| AddTestDialog.Dialog.SetOpen | src/components/admin/add-test-dialog.tsx:62 | only the open flag changes |
| AddTestDialog.Dialog.FileUpload | src/components/admin/add-test-dialog.tsx:27-41 | a file for the input sets only the input, one for the expected output sets only the expected output, and no file changes nothing |
| AddTestDialog.Dialog.Clear | src/components/admin/add-test-dialog.tsx:86 | the clear button empties only its own field |
| AddTestDialog.Dialog.HandleSubmit | src/components/admin/add-test-dialog.tsx:43-59 | with a missing file, only an error notice; otherwise `onAdd` is called once with the texts, both fields are cleared and the dialog closes |
| AddTestDialog.Dialog.Cancel | src/components/admin/add-test-dialog.tsx:116-120 | both fields are cleared and the dialog closes; nothing is added |
| NewProblem.WithText | src/app/admin/problems/new/page.tsx:78-86 | only the named field takes the value |
| NewProblem.ValidationMatchesServer | src/app/admin/problems/new/page.tsx:51-63 | within the slider's range, the page's validation accepts exactly what the server's create schema accepts |
| NewProblem.InitialIsIncomplete | src/app/admin/problems/new/page.tsx:38-46 | the initial form is invalid, its difficulty is within the slider's range, and it has no tags |
| NewProblem.ValidationErrors | src/app/admin/problems/new/page.tsx:51-63 | a field has a message exactly when its check fails, with that check's message; a title that is too long gets the length message |
| NewProblem.ValidationErrorsMeaning | src/app/admin/problems/new/page.tsx:51-63 | there are no messages exactly when the form is valid |
| NewProblem.CreateForm.constructor | src/app/admin/problems/new/page.tsx:38-49 | the page starts with the initial values, no errors and no calls |
| NewProblem.CreateForm.ValidateForm | src/app/admin/problems/new/page.tsx:51-63 | the recorded errors are the validation messages, and the result is true exactly when the form is valid, that is when there are none |
| NewProblem.CreateForm.HandleSubmit | src/app/admin/problems/new/page.tsx:65-76 | `create` is called once with the form's input exactly when the form is valid |
| NewProblem.CreateForm.HandleInputChange | src/app/admin/problems/new/page.tsx:78-86 | only the named text field changes |
| NewProblem.CreateForm.HandleDifficultyChange | src/app/admin/problems/new/page.tsx:88-93 | only the difficulty changes |
| NewProblem.CreateForm.SetNewTag | src/app/admin/problems/new/page.tsx:192 | only the tag box changes |
| NewProblem.CreateForm.AddTag | src/app/admin/problems/new/page.tsx:95-103 | the tags follow TagList.AddedTag, and the box is cleared exactly when a tag was added |
| NewProblem.CreateForm.RemoveTag | src/app/admin/problems/new/page.tsx:105-110 | the tags become TagList.WithoutTag of the old ones, the others staying in order; nothing else changes |
| NewProblem.CreateForm.OnCreateSuccess | src/app/admin/problems/new/page.tsx:25-28 | the page navigates to the new problem |
| NewProblem.CreateForm.OnCreateError | src/app/admin/problems/new/page.tsx:29-35 | a refusal that mentions administrators navigates to /problems; any other error stays on the page |
| NewProblem.Contains | src/app/admin/problems/new/page.tsx:29-35 | the scan finds the word exactly when it occurs in the message |
| NewProblem.ForbiddenLeavesPage | src/server/api/routers/problem.ts:58-61 | create's refusal of a non-administrator is a message that sends the page back to the list |
| ZodSchemas.CheckIssues | src/lib/zod.ts:3-24 | no issue exactly when every check passes; one issue per failing check at most, each at the field's path |
| ZodSchemas.FieldIssues | src/lib/zod.ts:3-24 | a missing field reports only that it is required; a present one reports its check issues |
| ZodSchemas.LoginAccepts | src/lib/zod.ts:3-10 | login passes exactly for an email of at least 5 characters in email format and a password of 8 to 32 characters |
| ZodSchemas.LoginIssues | src/lib/zod.ts:3-10 | at most four issues, each at `email` or `password`, those of the email first; a missing field reports that it is required |
| ZodSchemas.TwoChecks | src/lib/zod.ts:3-24 | a field with two checks passes exactly when it is present and passes both |
| ZodSchemas.RegisterAccepts | src/lib/zod.ts:12-28 | registration passes exactly for a username of 5..32, a valid email of at least 5 characters, and two equal passwords of 8..32 |
| ZodSchemas.RegisterIssues | src/lib/zod.ts:12-28 | at most nine issues, each at one of the four fields: the field issues in order, then at most the mismatch issue |
| ZodSchemas.MismatchReported | src/lib/zod.ts:25-28 | whenever all fields are present and the passwords differ, "Passwords do not match" is reported at confirmPassword; it is never reported when a password is missing |
| ZodSchemas.CheckMessagesDiffer | src/lib/zod.ts:12-28 | no field check reports the mismatch message |
| ZodSchemas.ConfirmMessages | src/lib/zod.ts:22-24 | no issue of the confirmPassword length checks carries the mismatch message |
| ProfileCard.FromProfile | src/components/profile/profilecard.tsx:18-25 | the form copy holds the profile's fields, each missing value as "" |
| ProfileCard.WithField | src/components/profile/profilecard.tsx:77-85 | the named field takes the value; the other fields, the id and the email are kept |
| ProfileCard.Payload | src/components/profile/profilecard.tsx:92-99 | the request holds all six form fields as they are |
| ProfileCard.SaveUneditedShowsSameCard | src/components/profile/profilecard.tsx:87-112 | saving an unedited form stores a profile whose form copy is the same; missing fields become "" |
| ProfileCard.FollowingStatus | src/components/profile/profilecard.tsx:29-36 | true exactly when the profile has a username, someone is signed in, and the fetched short list contains the signed-in user |
| ProfileCard.Card.constructor | src/components/profile/profilecard.tsx:17-25 | the card starts out of edit mode, with the form copied from the profile |
| ProfileCard.Card.StartEditing | src/components/profile/profilecard.tsx:244 | edit mode turns on; nothing else changes |
| ProfileCard.Card.HandleInputChange | src/components/profile/profilecard.tsx:77-85 | only the named field changes |
| ProfileCard.Card.HandleSave | src/components/profile/profilecard.tsx:87-100 | a blank name gives "Name is required" and sends nothing; otherwise exactly the six fields are sent |
| ProfileCard.Card.HandleCancel | src/components/profile/profilecard.tsx:102-112 | the form goes back to the stored profile and edit mode ends |
| ProfileCard.Card.OnUpdateSuccess | src/components/profile/profilecard.tsx:39-45 | edit mode ends |
| ProfileCard.Card.OnUpdateError | src/components/profile/profilecard.tsx:46-50 | "Failed to update profile" is shown; edit mode and the form are kept |
| ProfileCard.Card.HandleFollowToggle | src/components/profile/profilecard.tsx:114-120 | for a signed-in user on another user's card, where the button is shown (line 199), unfollow is sent exactly when the status is true, follow otherwise, both for this profile |
| ProfileCard.IsBlankName | src/components/profile/profilecard.tsx:88 | the character scan agrees with blankness after trimming |
| ProfileCard.UnfollowIsSound | src/components/profile/profilecard.tsx:29-36 | when the card shows "Unfollow", the user does follow the profile and the unfollow succeeds |
| ProfileCard.FourthFollowerSeesFollow | src/components/profile/profilecard.tsx:114-120 | a fourth follower is shown "Follow", and the request the card sends fails with "Already following this user" |
| ProfileCard.SomeFollowerSeesFollow | src/components/profile/profilecard.tsx:29-36 | whatever order the short list comes in, a profile with more than three followers has a follower who is shown "Follow" and whose request fails with "Already following this user" |
| ProfileCard.FollowersHaveDistinctIds | src/server/api/routers/profile.ts:59-83 | the followers returned have pairwise distinct ids |
| ProfileCard.FourFollowersList | src/server/api/routers/profile.ts:51-84 | the short list of the four-follower example holds the first three followers only |
| ProfileCard.FourFollowersAll | src/server/api/routers/profile.ts:59-82 | the example profile has four followers, the signed-in user the fourth |
| ProfileCard.FollowingStatusFromTable | src/components/profile/profilecard.tsx:29-36 | the corrected status is true exactly when the follows table has the pair |
| ProfileCard.CorrectedToggleSucceeds | src/components/profile/profilecard.tsx:114-120 | with the corrected status, the request the button sends succeeds on every other user's profile |
| ProfileCard.CorrectedAgreesOnShortLists | src/components/profile/profilecard.tsx:29-36 | when the short list holds all of the profile's followers, the card's status equals the corrected one |

## Left out

- The Judge0 HTTP request and `response.json()` are a `JudgeOutcome` per test case. The real concurrency of the fan-out is a permutation `order` of the test-case indices.
- Judge.Submit: the procedure returns before any completion. The model runs the fan-out after it, one completion at a time (Judge.SubmitAndJudge), so completions that overlap a later submission are not modelled.
- Judge.Complete: `parseFloat` of the runtime and memory fields is not modelled, because it parses floating-point text. The logging is not modelled either.
- Judge.EventBus.Subscribe: `lastEventId` is accepted but never used by the source, so there is no replay to model.
- Ids are natural numbers from one counter in the store. The source uses database-generated cuid strings, so only uniqueness is kept.
- The catch branches that turn Prisma errors into "Database error occurred" or "An unexpected error occurred" are not modelled. The store in the model never fails.
- ProblemRouter.AdminList: the case-insensitive `search` filter and the `sortBy`/`sortOrder` ordering are database semantics. The model pages through the problems in table order and does not model those parameters.
- ProfileRouter.GetLastFollowers: the source sorts the followers by how many users each of them follows, most first, and the database breaks ties. The model takes the first three in table order instead, so the clause that the result is a prefix of the followers describes the model, not the source. What holds in any order is ProfileRouter.ShortFollowerList, and the follow-button finding is proved against it (ProfileCard.SomeFollowerSeesFollow).
- ProfileRouter.GetLastFollowings: the source sorts the users the profile follows by how many followers each of them has, most first. The model again takes the first three in table order.
- ProblemRouter.Create: the problem's tags are kept as the input's list of names. The model does not say what the database does when one input names the same tag twice.
- ProfileRouter.Update: zod's `.email()` format check is the parameter `isEmail`.
- ZodSchemas.LoginAccepts: `.email()` is the parameter `isEmail`, as in every zod schema here.
- ProfileRouter.ProfileInputOk: zod's `.max` counts UTF-16 code units, and the model's strings count Unicode scalar values. A character outside the Basic Multilingual Plane counts twice in the source and once in the model, so near the limits the model accepts some inputs the source refuses.
- ZodSchemas.CheckIssues: the same length difference applies to every `.min` and `.max` of the login and registration schemas, and so to ZodSchemas.LoginIssues and ZodSchemas.RegisterIssues.
- ProblemRouter.ProblemFieldsOk: the same length difference applies to the title limit of 100. `z.number()` also accepts a fractional difficulty such as 2.5; the model's difficulty is an integer, so fractional values are not modelled.
- ProblemRouter.AdminList: `page` and `perPage` may be fractional in the source, as `z.number()` allows; the model takes integers. A parameter that is not a number reaches the schema as NaN, which the model does cover (`NumberParam.NaN`, refused with BAD_REQUEST).
- NewProblem.ValidationErrors: `title.length` counts UTF-16 code units; the model counts characters, as above.
- TestCaseDialog.Truncate: `length` and `slice` work on UTF-16 code units, so the source can cut a character in half; the model cuts between characters.
- TestCaseDialog.WidthFor: the source picks the class from `.length`, which counts UTF-16 code units; the model's length counts characters, so a text with characters outside the Basic Multilingual Plane can get a wider class in the source than in the model.
- TestCaseDialog.ContentWidth: it takes the larger of the two texts' `.length`, so the same UTF-16 difference applies: a 60-character input of emoji has length 120 in the source and gets max-w-4xl, while the model gives max-w-2xl.
- EditProblem.FormSchemaOk: the form schema's `.min(1)` and `.max(100)` count UTF-16 code units; the model counts characters, so near the limit of 100 the model accepts some titles and slugs the form refuses.
- EditProblem.SchemasAgree: the agreement between the form's and the server's schemas is proved over character counts; with UTF-16 counts both sides change in the same way, but the model does not state that.
- EditProblem.EditForm.Submit: it is gated on EditProblem.FormSchemaOk, so it inherits that length difference: a title of 60 emoji is sent by the model but refused by the form in the source.
- The protected procedures (ProblemRouter.Create, ProblemRouter.Update, ProblemRouter.AdminList, ProblemRouter.GetTestCases, ProfileRouter.FollowUser, ProfileRouter.UnfollowUser, ProfileRouter.Update): `protectedProcedure` refuses a call without a session with UNAUTHORIZED before the resolver runs. That refusal is not modelled; each of these members takes the signed-in user as an argument.
- Judge.Complete: the source reads the row for index `idx` as `submission.testCases[idx]` from the rows the create call returns, which it does not order. The model assumes those rows come back in creation order, the order of the problem's test cases, so row `idx` belongs to test case `idx`.
- Pagination.NumberOr: `Number(x)` of a fractional parameter keeps the fraction (2.5 stays 2.5); the model's parsed value is an integer, so fractional page numbers and sizes are not modelled.
- Judge.Placeholders: the source writes `expectedOutput ?? ""`, but a test case's expected output is never null in the store, so the model copies it unchanged and that default never applies.
- ProfileCard.Card.HandleFollowToggle: the source hides the button when the session user's username equals the profile's. The model's precondition compares ids instead, which is the same for users with usernames, since usernames are unique.
- ProfileCard.IsBlank: `String.prototype.trim` removes every Unicode white space and line terminator. The model recognises space, tab, newline, carriage return, form feed and vertical tab only.
- AddTestDialog.Dialog.FileUpload: `FileReader` is asynchronous. The model delivers the file's text at once, as the argument `content`.
- AddTestDialog.MillisecondId: the clock is the parameter `clockMs`.
- CodeEditor.Progress: the progress is an exact real number. Floating-point rounding is not modelled.
- Toasts are recorded only where a handler decides between outcomes: the editor, the card's save and update error, and the dialog's notices. The follow and unfollow toasts and the update success toast are not recorded.
- Navigation other than the create page's callbacks is not modelled: `router.push` of the list page and the pager, and query invalidation. The list page's and the pager's handlers return the query they would navigate to.
- Syntax highlighting, JSX rendering, the loader and the clipboard copy buttons are presentation only.
- EditProblem.EditForm.SetValues: react-hook-form's field registration is one assignment of all values. The slider's range of 1 to 10 is a bound of the input, not of the form.

## Findings

| source | as written | input that shows it | evidently intended | confidence | as-written member | corrected member |
|---|---|---|---|---|---|---|
| src/components/problem/code-editor.tsx:79-87 | the run ends, with its verdict, on the event whose index is the last one, whichever event arrives last | two test cases; test case 1 (accepted) finishes before test case 0 (wrong answer) | end the run after all test cases have reported, and show success only if every one was accepted | not executed | CodeEditor.PrematureSuccess | CodeEditor.CountingIsOrderIndependent |
| src/components/profile/profilecard.tsx:29-36 | the following status is read from the short list of at most three followers | a profile with four or more followers, whatever order the database returns them in; ProfileCard.FourthFollowerSeesFollow gives a concrete table in which the signed-in user is the fourth follower in table order | read the status from the follows table itself | not executed | ProfileCard.SomeFollowerSeesFollow | ProfileCard.CorrectedToggleSucceeds |
| src/server/api/routers/judge.ts:153-163 | only the test-case rows are updated, so a submission stays PENDING, and the accepted count of src/server/api/routers/problem.ts:213-221 is always 0 | any submission whose every test case is accepted | set the submission's status from its rows once all of them are judged | not executed | Judge.SubmitAndJudge | Judge.SubmitJudgeAndSettle |
| src/components/admin/add-test-dialog.tsx:50 | a new test case's id is the millisecond part of the clock, so it repeats every second | two test cases added exactly 2 seconds apart, then the second one removed in src/components/admin/edit-problem.tsx:109-111 | an id that no test case in the form already has | not executed | EditProblem.SameMillisecondRemovesBoth | EditProblem.FreshAddThenRemoveRestores |
