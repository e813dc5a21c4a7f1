# Task and user admin dashboard — a Dafny model

The dashboard is a React and Redux front end over a mock REST service. It lists tasks and users in searchable, paged tables, exports them to spreadsheets, and edits them through validated forms. This project models its logic in Dafny and proves what that logic promises:

- **The client caches.** Two Redux slices keep a list, a detail record, loading and error flags, filters, a page cursor and a counter. `TasksSlice.TasksStore` and `UsersSlice.UsersStore` are classes with one method per reducer case. They state the whole new state and whether the counter still agrees with the list.
- **The HTTP wrapper.** `Api` holds the service's request wrapper:
  - the retry loop: `Api.Request`, a `while` loop proved equal to the recursive `Api.RunFrom`;
  - the status read back from the error message, with the regular expression `/Error (\d+)/` written out;
  - the id and data guards, and the URL and query builders;
  - the mapping of errors to user messages.

  Each fetch attempt is an input: `Api.Attempt` is a response, or a thrown `Error`.
- **Derivations.**
  - `Dashboard` computes the dashboard counts and the completion rate.
  - `TaskCard` and `TasksPage` encode the flag, date and display-name fallback chains.
  - `Header` maps a path to its page.
  - `ExportUtils` computes the spreadsheet column widths.
- **Search and paging.**
  - `TasksPage` and `UsersPage` hold the filters, slices and export rows.
  - `Paging` holds the page arithmetic and the page state kept by the two list pages, the class `Paging.PageControls`.
  - `Table` models the shared table component: its footer, cells, body and controls.
- **Forms.**
  - `AddTask`, `EditTask`, `AddUser` and `EditUser` hold the validators, with the pattern `\S+@\S+\.\S+` written out.
  - `UseApi.ApiState` is the data, loading and error state of the `useApi` hook.

Two shared modules capture JavaScript semantics:

- **`Js`**: optional values with JavaScript's falsy `||`, template interpolation of a missing value as "undefined", `trim`, ASCII `toLowerCase`, `includes`, `split` and `join`, `parseInt` of digits, and object fields in insertion order.
- **`Lists`**: `findIndex`, `find`, `filter`, counting, replace-first-match and `slice`.

Time is never read by the model:

- the instant a week before the current time, as `setDate(getDate() - 7)` computes it in local time, is a parameter `weekAgo`;
- a date parser is a parameter `parse: string -> Option<int>`, `None` standing for an invalid date;
- the locale date rendering is a parameter `render`.

Three behaviours of the code are easy to misread, and the model follows the code in each:

- **5xx responses.** A 5xx response whose status text and body mention neither "fetch" nor "Network" is retried back to back, without waiting (`Api.FailsWithoutWaiting`, `Api.HttpMessageRetryable`); one that mentions either is retried after the usual back-off. Only a message containing "Error 4" ends the loop early.
- **DELETE.** Every ok DELETE whose content type is not JSON resolves to `{}`, whatever the body (`Api.NonJsonResponse`).
- **Cached lists.** The reducers patch the cached list in place rather than refetching it, and the delete case leaves the counter wrong when the id is absent (`TasksSlice.DeleteOfAbsentIdDesyncs`).

## Model

| member | source | states |
|---|---|---|
| TasksSlice.MergeFilters | src/store/slices/tasksSlice.ts:137-139 | a key present in the patch overrides the filter, an absent key keeps the current value |
| TasksSlice.TasksStore.constructor | src/store/slices/tasksSlice.ts:20-32 | the initial state: empty list, no detail, not loading, no error, filters `{search: "", status: "all"}`, counter 0, page 1, 10 per page; the counter agrees with the list |
| TasksSlice.TasksStore.ClearError | src/store/slices/tasksSlice.ts:134-136 | clears the error and changes nothing else |
| TasksSlice.TasksStore.SetFilters | src/store/slices/tasksSlice.ts:137-139 | the filters become the merge of the old filters and the patch; an empty patch leaves them unchanged; nothing else changes |
| TasksSlice.TasksStore.ClearFilters | src/store/slices/tasksSlice.ts:140-142 | the filters return to their initial value; nothing else changes |
| TasksSlice.TasksStore.SetCurrentPage | src/store/slices/tasksSlice.ts:143-145 | sets the page cursor only |
| TasksSlice.TasksStore.SetItemsPerPage | src/store/slices/tasksSlice.ts:146-149 | sets the page size and moves the cursor back to page 1 |
| TasksSlice.TasksStore.ClearCurrentTask | src/store/slices/tasksSlice.ts:150-152 | drops the detail record only |
| TasksSlice.TasksStore.Pending | src/store/slices/tasksSlice.ts:156-159 | every pending case: loading on, error cleared, list, detail and counter unchanged |
| TasksSlice.TasksStore.Rejected | src/store/slices/tasksSlice.ts:165-168 | every rejected case: loading off, error becomes the payload, list, detail and counter unchanged |
| TasksSlice.TasksStore.FetchTasksFulfilled | src/store/slices/tasksSlice.ts:160-164 | the list becomes the payload and the counter its length, so the counter agrees with the list afterwards |
| TasksSlice.TasksStore.FetchTaskByIdFulfilled | src/store/slices/tasksSlice.ts:174-177 | the detail becomes the payload; the list is unchanged |
| TasksSlice.TasksStore.CreateTaskFulfilled | src/store/slices/tasksSlice.ts:187-191 | the new task is element 0, every old task moves one place right unchanged, the counter grows by one, and an agreeing counter stays in agreement |
| TasksSlice.TasksStore.ReplaceCached | src/store/slices/tasksSlice.ts:203-208 | only the first task with the payload's id is replaced; no match leaves the list unchanged; the length is kept |
| TasksSlice.TasksStore.UpdateTaskFulfilled | src/store/slices/tasksSlice.ts:201-212 | the list is the first-match replacement of the old list, with the same length; the detail is replaced exactly when its id matches; counter agreement is kept |
| TasksSlice.TasksStore.ToggleTaskCompletedFulfilled | src/store/slices/tasksSlice.ts:218-225 | the same first-match replacement, leaving loading, error and detail untouched |
| TasksSlice.TasksStore.DeleteTaskFulfilled | src/store/slices/tasksSlice.ts:231-238 | every task with the id is removed and the others keep their order; the counter drops by exactly one however many were removed, so an agreeing counter keeps agreeing exactly when one task matched; the detail is cleared exactly when its id matches |
| TasksSlice.TasksStore.FetchTasksByUserFulfilled | src/store/slices/tasksSlice.ts:244-247 | the list becomes the payload and loading stops, while the counter keeps its old value |
| TasksSlice.DeleteOfAbsentIdDesyncs | src/store/slices/tasksSlice.ts:234 | deleting an id that a fresh store does not hold still decrements the counter, so it no longer agrees with the list |
| TasksSlice.FetchByUserLeavesCounterStale | src/store/slices/tasksSlice.ts:244-247 | after a full fetch then a per-user fetch, the counter is the length of the full list and the list is the user's tasks |
| UsersSlice.MergeFilters | src/store/slices/usersSlice.ts:144-146 | a key present in the patch overrides the filter, an absent key keeps the current value |
| UsersSlice.FetchedUser | src/store/slices/usersSlice.ts:42-48 | the per-user normalisation: the name becomes "first last"; a present address is kept, a missing one becomes `first.last@example.com` in lower case; no other field changes; it fails (the thunk rejects) exactly when the address is missing and a name part is undefined |
| UsersSlice.FetchedUserHasEmail | src/store/slices/usersSlice.ts:45-47 | every normalised user has a non-empty address |
| UsersSlice.FetchedUsers | src/store/slices/usersSlice.ts:41-49 | the list normalises exactly when every user does, element by element and in order |
| UsersSlice.WithName | src/store/slices/usersSlice.ts:79-82 | searchUsers, createUser and updateUser set the name and never fill in a missing address; no other field changes |
| UsersSlice.UsersStore.constructor | src/store/slices/usersSlice.ts:20-32 | the initial state, with a counter that agrees with the empty list |
| UsersSlice.UsersStore.ClearError | src/store/slices/usersSlice.ts:141-143 | clears the error and changes nothing else |
| UsersSlice.UsersStore.SetFilters | src/store/slices/usersSlice.ts:144-146 | the filters become the merge of the old filters and the patch; nothing else changes |
| UsersSlice.UsersStore.ClearFilters | src/store/slices/usersSlice.ts:147-149 | the filters return to `{search: "", status: "all"}` |
| UsersSlice.UsersStore.SetCurrentPage | src/store/slices/usersSlice.ts:150-152 | sets the page cursor only |
| UsersSlice.UsersStore.SetItemsPerPage | src/store/slices/usersSlice.ts:153-156 | sets the page size and moves the cursor back to page 1 |
| UsersSlice.UsersStore.ClearCurrentUser | src/store/slices/usersSlice.ts:157-159 | drops the detail record only |
| UsersSlice.UsersStore.Pending | src/store/slices/usersSlice.ts:163-166 | every pending case: loading on, error cleared, list, detail and counter unchanged |
| UsersSlice.UsersStore.Rejected | src/store/slices/usersSlice.ts:172-175 | every rejected case: loading off, error becomes the payload, everything else unchanged |
| UsersSlice.UsersStore.FetchUsersFulfilled | src/store/slices/usersSlice.ts:167-171 | the list becomes the payload and the counter its length |
| UsersSlice.UsersStore.FetchUserByIdFulfilled | src/store/slices/usersSlice.ts:181-184 | the detail becomes the payload; the list is unchanged |
| UsersSlice.UsersStore.SearchUsersFulfilled | src/store/slices/usersSlice.ts:190-192 | the list becomes the payload while the counter, loading and error stay as they were |
| UsersSlice.UsersStore.CreateUserFulfilled | src/store/slices/usersSlice.ts:198-202 | the user is prepended and the counter grows by one; counter agreement is kept |
| UsersSlice.UsersStore.UpdateUserFulfilled | src/store/slices/usersSlice.ts:212-223 | only the first user with the id is replaced, nothing when absent; the detail is replaced exactly when its id matches |
| UsersSlice.UsersStore.DeleteUserFulfilled | src/store/slices/usersSlice.ts:233-240 | every user with the id is filtered out, the counter drops by exactly one, and a matching detail is cleared |
| Api.Pow2 | src/services/api.ts:75 | `Math.pow(2, k)` is at least 1 |
| Api.Pow2Add | src/services/api.ts:75 | `Math.pow(2, a + b)` is `Math.pow(2, a) * Math.pow(2, b)`, so each back-off is twice the one before |
| Api.Step | src/services/api.ts:37-64 | only an ok response succeeds; a thrown error is passed on; a response that is not ok fails with "API Error status: text. body"; `{}` exactly for an ok DELETE that is not JSON; any other ok non-JSON response fails with "Invalid JSON response"; an ok JSON response gives its parsed body, or fails with its parse error |
| Api.MatchFrom | src/services/api.ts:91 | the leftmost position where `Error (\d+)` matches, or -1 exactly when there is none |
| Api.DigitRun | src/services/api.ts:91 | the greedy `\d+`: the longest prefix of digits |
| Api.DigitRunOf | src/services/api.ts:91 | digits followed by a non-digit are read back as exactly those digits |
| Api.FirstMatchAt | src/services/api.ts:91 | a match with no "E" before it is the match the expression finds |
| Api.StatusOfHttpMessage | src/services/api.ts:88-94 | the status of the `ApiError` for a failed response is the HTTP status the message was built from |
| Api.StatusOf | src/services/api.ts:88-94 | 500 for a message without "Error" or without a match of `/Error (\d+)/`; never negative |
| Api.RunFrom | src/services/api.ts:35-84 | the loop from attempt `k`: never more than `retries + 1` attempts in all, and always at least one more |
| Api.RunOutcome | src/services/api.ts:35-84 | every attempt before the last one failed, and the request's result is settled by the last attempt: its payload, or the `ApiError` built from its error |
| Api.RunDelays | src/services/api.ts:68-78 | the delays waited are the back-offs `2^k * 1000` ms of exactly the attempts that were retried |
| Api.RunEarlyStop | src/services/api.ts:68-82 | a request that gives up with retries left stopped on an error containing "Error 4" that was not retryable |
| Api.Request | src/services/api.ts:20-97 | the imperative `for` loop, with its `continue` and `break`, computes the same attempt count, delays and outcome as `RunFrom` |
| Api.WaitsBound | src/services/api.ts:74-76 | the waits between attempts `k` and `n` add up to at most `1000 * (2^n - 2^k)` ms |
| Api.TotalWait | src/services/api.ts:17-18 | at most `retries + 1` fetches, at most `1000 * (2^retries - 1)` ms of waiting: 7 seconds with the default 3 retries |
| Api.NetworkDown | src/services/api.ts:68-78 | when every attempt fails in a retryable way, all `retries + 1` attempts are made, with a back-off before each retry, and the last error is thrown |
| Api.DefaultBackoffs | src/services/api.ts:75 | the default back-offs are 1000, 2000 and 4000 ms |
| Api.FailsWithoutWaiting | src/services/api.ts:65-84 | when every attempt fails neither retryably nor with "Error 4" (a 5xx response whose status text and body mention neither "fetch" nor "Network", an invalid JSON response), all attempts are made back to back without any delay |
| Api.HttpMessageRetryable | src/services/api.ts:50-52 | a failed response's message only looks retryable when its status text or body mentions "fetch" or "Network" |
| Api.ClientErrorStops | src/services/api.ts:80-82 | a 4xx response ends the request on that attempt with its own status, unless its text asks for a retry |
| Api.InvalidJsonFailure | src/services/api.ts:63 | "Invalid JSON response" is neither retried nor a client error, and is reported with status 500 |
| Api.NonJsonResponse | src/services/api.ts:55-64 | with ok responses that are not JSON, a DELETE succeeds at once with `{}`, and any other method fails on every attempt without waiting, with status 500 |
| Api.NonJsonRejected | src/services/api.ts:63 | repeated invalid JSON responses give up after `retries + 1` attempts with no delay |
| Api.HandleApiError | src/services/api.ts:280-303 | the fixed text for 400, 401, 403, 404, 429 and 500; otherwise the message, or the generic text when it is empty; "Network error. Please check your connection" for a value without a message; never empty |
| Api.ShownForHttpFailure | src/services/api.ts:280-303 | after a failed response the user reads the fixed text for a known status, else the raw "API Error ..." message |
| Api.Pieces | src/services/api.ts:106 | one `k=v` piece per parameter |
| Api.GetAll | src/services/api.ts:99-111 | a GET without a body, to the endpoint itself when no parameters are given |
| Api.PiecesParse | src/services/api.ts:106-107 | the pieces contain no "&" and parse back to the parameters |
| Api.GetAllParses | src/services/api.ts:103-108 | the URL `getAll` builds splits back into its endpoint and its parameters |
| Api.ItemPathId | src/services/api.ts:117 | the last segment of `endpoint/id` is the id |
| Api.GetById | src/services/api.ts:113-118 | fails with "ID is required" exactly for an empty id, else a GET of the item path |
| Api.Create | src/services/api.ts:120-129 | fails with "Data is required for creation" exactly for missing data, else a POST of the data |
| Api.Update | src/services/api.ts:131-143 | fails exactly for an empty id or missing data, checking the id first, else a PUT of the data to the item path |
| Api.Patch | src/services/api.ts:145-157 | the same guards, in the same order, as a PATCH |
| Api.Delete | src/services/api.ts:159-167 | fails with "ID is required for deletion" exactly for an empty id, else a DELETE without a body |
| Api.GuardMessageShown | src/services/api.ts:298 | a guard's rejection is caught without a status, and the user reads the guard's own message |
| Api.HealthCheckNetworkDown | src/services/api.ts:169-176 | with the network down the health check answers false |
| Api.HealthCheck | src/services/api.ts:169-176 | true only when one of the four probe attempts succeeded, and always when the first one does |
| Api.LookupAddIf | src/services/api.ts:190-194 | a conditional assignment to a fresh key adds that key and changes no other lookup |
| Api.TaskQueryParams | src/services/api.ts:188-198 | `search` is sent only when truthy; `completed` is sent whenever given, `false` included; `limit` and `page` only when non-zero; no record at all when nothing is set |
| Api.KeyLookup | src/services/api.ts:190-194 | each key of the built record holds the value its guard allows |
| Api.TaskQueryLookups | src/services/api.ts:190-194 | the four guarded assignments store exactly the four expected values |
| Api.UserQueryIsTaskQuery | src/services/api.ts:237-248 | the users query record is the tasks query record without `completed` |
| Api.UserQueryParams | src/services/api.ts:237-247 | no record exactly when no key is set; `search` and `limit`/`page` only when truthy, and never `completed` |
| Api.TasksGetAll | src/services/api.ts:182-200 | a GET of "/tasks" with a query string exactly when the record has a key |
| Api.UsersGetAll | src/services/api.ts:237-248 | a GET of "/users" with a query string exactly when the record has a key |
| Api.AddIfPlain | src/services/api.ts:190-194 | a guarded assignment of a readable key and value keeps every piece readable |
| Api.NumberPlain | src/services/api.ts:193-194 | a number written in decimal has no "&" |
| Api.TaskQueryPlain | src/services/api.ts:188-194 | every key and value of the tasks record reads back from the query string when the search text has no "&" |
| Api.TasksGetAllParses | src/services/api.ts:182-200 | the URL reads back as "/tasks" and the query record |
| Api.UsersGetAllParses | src/services/api.ts:237-248 | the URL reads back as "/users" and the query record |
| Api.TasksGetById | src/services/api.ts:202 | "ID is required" exactly for an empty id, else a GET of "/tasks/id" |
| Api.TasksDelete | src/services/api.ts:225 | "ID is required for deletion" exactly for an empty id, else a DELETE of "/tasks/id" |
| Api.UsersGetById | src/services/api.ts:250 | "ID is required" exactly for an empty id, else a GET of "/users/id" |
| Api.UsersDelete | src/services/api.ts:265 | "ID is required for deletion" exactly for an empty id, else a DELETE of "/users/id" |
| Api.UsersSearch | src/services/api.ts:267-269 | a GET of "/users" that always carries a query string |
| Api.UsersSearchParses | src/services/api.ts:267-269 | the URL reads back as "/users" with the single parameter `search` |
| Api.EmptySearchTerm | src/services/api.ts:240-269 | an empty term is dropped by `getAll` but sent by `search` |
| Api.TasksCreate | src/services/api.ts:204-213 | fails exactly for a missing or blank title or a falsy user id, with the title checked first, else a POST to "/tasks" |
| Api.WithoutTimestamps | src/services/api.ts:216 | the rest object is exactly the fields other than `createdAt` and `updatedAt` |
| Api.TasksUpdate | src/services/api.ts:215-218 | fails only for an empty id; otherwise exactly a PUT to "/tasks/id" of the data without `createdAt` and `updatedAt` |
| Api.TasksPatch | src/services/api.ts:220-223 | fails only for an empty id; otherwise exactly a PATCH to "/tasks/id" of the data without the timestamps |
| Api.TasksByUser | src/services/api.ts:227-229 | a GET without a body, even for an empty user id |
| Api.TasksByUserParses | src/services/api.ts:228 | the URL reads back as "/tasks" with the single parameter `assignedUserId` |
| Api.ToggleCompleted | src/services/api.ts:231-233 | fails only for an empty id, else a PATCH of the single field `completed` |
| Api.UsersCreate | src/services/api.ts:252-258 | fails with "First name and last name are required" exactly when either name is missing or blank, else a POST to "/users" |
| Api.UsersUpdate | src/services/api.ts:260-263 | fails only for an empty id; otherwise exactly a PUT to "/users/id" of the data without the timestamps |
| Dashboard.GetTaskStatus | src/utils/dashboardUtils.ts:9-11 | true exactly when one of the three completion flags is true |
| Dashboard.GetTaskDate | src/utils/dashboardUtils.ts:13-21 | the first non-empty of start date, snake-case start date, creation date and snake-case creation date; none exactly when all four are empty |
| Dashboard.TasksThisWeek | src/utils/dashboardUtils.ts:41-50 | the number of tasks whose date parses to an instant at or after `oneWeekAgo`; never more than the number of tasks |
| Dashboard.TasksThisWeekDated | src/utils/dashboardUtils.ts:45-47 | a task without a date is never counted |
| Dashboard.CompletionRate | src/utils/dashboardUtils.ts:27-28 | 0 for no tasks, else `rate * total == 100 * completed`; within [0, 100], and 100 exactly when every task is complete |
| Dashboard.RateFacts | src/utils/dashboardUtils.ts:28 | the real quotient `completed / total * 100` satisfies those bounds |
| Dashboard.CalculateTaskStats | src/utils/dashboardUtils.ts:23-39 | total is the list length, completed counts complete tasks, `completed + pending == total`, pending counts the incomplete ones, and the rate is within [0, 100] and 100 exactly when nothing is pending |
| Dashboard.GenerateStatsData | src/utils/dashboardUtils.ts:52-90 | four cards in order: Total Tasks, Completed, Total Users, Pending, each with its value |
| Dashboard.GenerateAdditionalStats | src/utils/dashboardUtils.ts:92-109 | two entries: "This Week" with the weekly count, then "Completion Rate" with the rate |
| TaskCard.DisplayName | src/components/Tasks/TaskCard.tsx:49-63 | the task's `user_name`, else its `userName`, else the assignee's `name`, else the trimmed "first_name last_name", else the trimmed "firstName lastName", else "Unknown User"; "Unknown User" without an assignee; never empty |
| TaskCard.NameParts | src/components/Tasks/TaskCard.tsx:55-60 | a trimmed name pair is empty exactly when both parts are missing or white space only, and otherwise starts and ends with a visible character |
| TaskCard.SpacedPairBlank | src/components/Tasks/TaskCard.tsx:55-60 | two parts joined by a space trim to nothing exactly when both are white space only |
| TaskCard.NamelessUserIsUnknown | src/components/Tasks/TaskCard.tsx:54-61 | a user whose name parts are all missing or white space shows as "Unknown User" |
| TaskCard.AssignedUser | src/components/Tasks/TaskCard.tsx:47-50 | the first user whose id is `assignedUserId`, looked up as "" when it is missing: no earlier user has that id; none exactly when no user has it |
| TaskCard.UserDisplayName | src/components/Tasks/TaskCard.tsx:47-63 | the card's name: the task's own two names first, "Unknown User" when no user has the id `assignedUserId`, read as "" when missing, and the task names nobody, else the chain over the first user found; never empty |
| TaskCard.StartDate | src/components/Tasks/TaskCard.tsx:78 | `startDate`, else `start_date`, else "" |
| TaskCard.EndDate | src/components/Tasks/TaskCard.tsx:80 | `endDate`, else `end_date`, else "" |
| TaskCard.FormatDate | src/components/Tasks/TaskCard.tsx:69-74 | an empty date shows "N/A"; any other is rendered |
| TaskCard.ToggleLabel | src/components/Tasks/TaskCard.tsx:158 | "Mark As Pending" exactly for a complete task, "Mark As Completed" exactly for an incomplete one |
| TaskCard.ToggleArgs | src/components/Tasks/TaskCard.tsx:150 | passes the task id and the current status, not the new one |
| TasksPage.FilterTasks | src/pages/Tasks/Tasks.tsx:62-66 | keeps exactly the tasks whose lower-cased title or description contains the lower-cased term |
| TasksPage.EmptySearchKeepsAll | src/pages/Tasks/Tasks.tsx:62-66 | an empty term keeps every task, in order |
| TasksPage.FilterTasksAppend | src/pages/Tasks/Tasks.tsx:62-66 | filtering keeps the order of the list |
| TasksPage.SearchIgnoresCase | src/pages/Tasks/Tasks.tsx:64-65 | the case of ASCII letters in the term does not matter |
| TasksPage.LowerIdempotent | src/pages/Tasks/Tasks.tsx:64 | lower-casing twice is lower-casing once |
| TasksPage.VisibleRows | src/pages/Tasks/Tasks.tsx:68-71 | every visible row is a stored task matching the term, and the row numbered `n` is filtered task `n - 1` |
| TasksPage.VisibleTasks | src/pages/Tasks/Tasks.tsx:68-71 | at most a page of rows, each a stored task that matches the term |
| TasksPage.TotalPages | src/pages/Tasks/Tasks.tsx:73 | the fewest pages holding every matching task; none exactly when no task matches |
| TasksPage.AssignedUser | src/pages/Tasks/Tasks.tsx:75 | the table looks up the first user whose id is `assignedUserId` itself: no earlier user has it, and a task without one finds nobody |
| TasksPage.UserDisplayName | src/pages/Tasks/Tasks.tsx:92-106 | the table's name: the task's own two names first, "Unknown User" when no user has the id `assignedUserId` and the task names nobody, else the card's chain over the first user found; never empty |
| TasksPage.DisplayNamesAgree | src/pages/Tasks/Tasks.tsx:92-106 | the table and the card show the same name whenever the task names a user |
| TasksPage.ToggledTask | src/pages/Tasks/Tasks.tsx:169-182 | nothing when the id is not in the list; otherwise a copy of the first task with that id (no earlier task has it), with all three flags set to the opposite of the given status and every other field unchanged |
| TasksPage.ToggleFlipsStatus | src/pages/Tasks/Tasks.tsx:239-240 | toggling from the status the menu passes flips the status the dashboard reads |
| TasksPage.StampText | src/pages/Tasks/Tasks.tsx:128-137 | the camel-case stamp, else the snake-case one, else "N/A" |
| TasksPage.ExportRow | src/pages/Tasks/Tasks.tsx:118-138 | the eleven export columns in order, each holding its value: serial number `index + 1`, id, title, description, display name, dates, status text, priority defaulting to "Normal", stamps |
| TasksPage.ExportRows | src/pages/Tasks/Tasks.tsx:118 | one row per filtered task, in filter order |
| TasksPage.ExportNumbering | src/pages/Tasks/Tasks.tsx:118-119 | serial numbers run 1, 2, ... and the sheet has eleven columns |
| TasksPage.ExportFileName | src/pages/Tasks/Tasks.tsx:140-143 | the file is "tasks-export-" followed by the calendar day of the time stamp and ".xlsx" |
| TasksPage.ExportName | src/pages/Tasks/Tasks.tsx:142 | "tasks-export-" followed by the part of the time stamp before its first "T", which holds no "T" |
| UsersPage.FilterUsers | src/pages/Users/Users.tsx:58-69 | an empty term returns the list itself; otherwise keeps exactly the users one of whose four fields contains the lower-cased term |
| UsersPage.MissingFieldsNeverMatch | src/pages/Users/Users.tsx:64-67 | a user without name or address is found only through the id |
| UsersPage.FilterUsersAppend | src/pages/Users/Users.tsx:62-68 | filtering keeps the order of the list |
| UsersPage.VisibleUsers | src/pages/Users/Users.tsx:73-77 | the page is the run of filtered users from the start index: row `i` is filtered user `start + i`, and it holds `min(size, filtered - start)` users, at most `itemsPerPage` |
| UsersPage.TotalPages | src/pages/Users/Users.tsx:72 | the fewest pages holding every filtered user; none exactly when the filter keeps nobody |
| UsersPage.PagesShowAllUsers | src/pages/Users/Users.tsx:72-77 | pages 1 to `totalPages`, put together, are the filtered list |
| UsersPage.ExportRow | src/pages/Users/Users.tsx:80-86 | the five export columns with serial `index + 1`; a missing name part or address is written as "" |
| UsersPage.ExportRows | src/pages/Users/Users.tsx:80 | one row per filtered user, in order |
| UsersPage.ExportWidths | src/pages/Users/Users.tsx:80-91 | five column widths; a missing address counts as an empty value |
| UsersPage.EmailCell | src/pages/Users/Users.tsx:85 | the address cell holds the address or "" |
| UsersPage.ExportFileName | src/pages/Users/Users.tsx:88-91 | "users-export-" followed by the calendar day and ".xlsx" |
| UsersPage.ExportName | src/pages/Users/Users.tsx:90 | "users-export-" followed by the part of the time stamp before its first "T", which holds no "T" |
| UsersPage.DeletionMessage | src/pages/Users/Users.tsx:175 | the message names the user as "first last", so a missing first name reads "undefined" |
| Lists.FindIndex | src/store/slices/tasksSlice.ts:203-205 | the first index satisfying the predicate, -1 exactly when none does |
| Lists.Find | src/pages/Tasks/Tasks.tsx:75 | the first element satisfying the predicate, none exactly when none does |
| Lists.FindSame | src/components/Tasks/TaskCard.tsx:47 | predicates that agree on the elements find the same one |
| Lists.Filter | src/pages/Tasks/Tasks.tsx:62-66 | keeps exactly the elements satisfying the predicate |
| Lists.Count | src/utils/dashboardUtils.ts:24 | zero exactly when no element satisfies the predicate |
| Lists.FilterLength | src/utils/dashboardUtils.ts:24-26 | the filtered length is the count, and the kept and dropped elements add up to the list |
| Lists.FilterConcat | src/pages/Tasks/Tasks.tsx:62 | filtering a concatenation filters each part |
| Lists.FilterAll | src/pages/Users/Users.tsx:62 | a filter every element passes returns the list unchanged |
| Lists.CountComplement | src/utils/dashboardUtils.ts:26 | the elements satisfying a predicate and those satisfying its negation add up to the list |
| Lists.CountMonotone | src/utils/dashboardUtils.ts:45-49 | a weaker predicate counts at least as many elements |
| Lists.FilterOut | src/store/slices/tasksSlice.ts:233 | drops exactly the matching elements, and the length drops by their count |
| Lists.ReplaceFirst | src/store/slices/tasksSlice.ts:203-208 | only the first match is replaced, the length is kept, and no match leaves the list unchanged |
| Lists.SliceBound | src/pages/Users/Users.tsx:74-77 | a `slice` bound lands within the list, unchanged when in range |
| Lists.Slice | src/pages/Users/Users.tsx:74-77 | the elements between the two landed bounds, or none when they cross |
| Paging.StartIndex | src/pages/Users/Users.tsx:73 | non-negative on page 1 and after |
| Paging.StartIndexNext | src/pages/Tasks/Tasks.tsx:68-71 | each page starts `size` rows after the one before |
| Paging.PageCount | src/pages/Tasks/Tasks.tsx:73 | `ceil(n / size)`: zero exactly for no rows, and the fewest pages that hold every row |
| Paging.PageContents | src/pages/Tasks/Tasks.tsx:68-71 | a page has at most `size` rows, which are the rows from its start index on |
| Paging.PageOf | src/pages/Tasks/Tasks.tsx:68-71 | a page has at most `size` rows, and its row `i` is the list's row at the start index plus `i` |
| Paging.PagesBeyondLastEmpty | src/pages/Tasks/Tasks.tsx:68-73 | pages after `totalPages` are empty |
| Paging.PagesCover | src/pages/Tasks/Tasks.tsx:68-73 | pages 1 to `totalPages` put together give back the filtered list |
| Paging.PagesFrom | src/pages/Tasks/Tasks.tsx:68-71 | the pages from `k` on are the list from page `k`'s start |
| Paging.RowNumberNamesRow | src/pages/Tasks/Tasks.tsx:254-256 | the row numbered `n` shows filtered element `n - 1` |
| Paging.RowNumber | src/pages/Tasks/Tasks.tsx:256 | the row at index `i` of page `p` is numbered after every row of the earlier pages and no later than the last row of its own page |
| Paging.RowNumbersDistinct | src/pages/Users/Users.tsx:195-199 | no two rows, on any two pages, carry the same number |
| Paging.PageControls.constructor | src/pages/Tasks/Tasks.tsx:49-51 | empty search, page 1, 10 per page |
| Paging.PageControls.SetSearchTerm | src/pages/Tasks/Tasks.tsx:369 | sets the search term and leaves the page cursor where it was |
| Paging.PageControls.SetCurrentPage | src/pages/Tasks/Tasks.tsx:377 | sets the page cursor only |
| Paging.PageControls.OnPageSizeChange | src/pages/Tasks/Tasks.tsx:378-383 | a chosen size is parsed and the cursor returns to page 1, leaving one of 10, 25, 50 and 100; a null choice changes nothing |
| Paging.OptionsParse | src/pages/Tasks/Tasks.tsx:376 | every offered size parses to one of 10, 25, 50 and 100 |
| ExportUtils.ValueText | src/utils/exportUtils.ts:11 | a falsy value counts as "" |
| ExportUtils.Width | src/utils/exportUtils.ts:9-12 | at least the key length and every value length, and equal to one of them: their maximum |
| ExportUtils.ColumnWidths | src/utils/exportUtils.ts:8-13 | one width per key of the first row, in key order; no widths for no data |
| ExportUtils.FileName | src/utils/exportUtils.ts:16 | the name followed by ".xlsx" |
| Table.SizeSelector | src/components/Table/ReusableTable.tsx:77-85 | drawn exactly when pagination is enabled and a size handler is given; the given options, else 10, 25, 50 and 100 |
| Table.SearchBox | src/components/Table/ReusableTable.tsx:107-109 | drawn exactly when search is enabled; the placeholder when it is non-empty, else "Search..." |
| Table.HeaderLabel | src/components/Table/ReusableTable.tsx:219-220 | the label, followed by " ⬇" exactly when the column is sortable |
| Table.Cell | src/components/Table/ReusableTable.tsx:238-240 | the render callback's output when there is one; otherwise "N/A" for a falsy value, a non-empty string as it is, a non-zero number in decimal, and nothing for `true` |
| Table.RawCells | src/components/Table/ReusableTable.tsx:240 | without a callback a missing value shows "N/A" and a non-empty string shows as it is |
| Table.TableBody | src/components/Table/ReusableTable.tsx:227-251 | no data gives exactly one row spanning every column; otherwise one row per datum and one cell per column, each the column's cell |
| Table.EmptyStateText | src/components/Table/ReusableTable.tsx:166-184 | nothing without an empty state; else the title, then the description when it is not empty |
| Table.FooterText | src/components/Table/ReusableTable.tsx:136-143 | "from" is 0 with no entries, else start index + 1; "to" is `min(start + pageSize, entries)`; "of" is the entries |
| Table.FooterLine | src/components/Table/ReusableTable.tsx:132-143 | the footer is present exactly when pagination is enabled, computed over the rows the table was given |
| Table.ShownFooterInverted | src/components/Table/ReusableTable.tsx:136-143 | from page 2 on, the footer the list pages produce ends before it starts and counts no more than a page |
| Table.ShownFooterExample | src/components/Table/ReusableTable.tsx:137 | 15 entries, 10 per page, page 2: "Shows 11 to 5 of 5 entries" |
| Table.IntendedFooterNamesRows | src/components/Table/ReusableTable.tsx:142-143 | over the whole filtered list the footer names the first and last row numbers on the page, spans exactly its rows, and counts every entry |
| Table.IntendedFooterEmpty | src/components/Table/ReusableTable.tsx:142 | an empty list shows "0 to 0 of 0" |
| Table.FootersAgreeOnSinglePage | src/components/Table/ReusableTable.tsx:136-143 | the two footers agree on the first page of a list that fits on one page |
| Header.Route | src/components/Layout/Header.tsx:17-30 | a task page exactly for the section "tasks" and a user page exactly for "users", the dashboard for any other section; within a section, the add form exactly when the second segment is "add", the edit form exactly when it is "edit", else the list |
| Header.PageTitle | src/components/Layout/Header.tsx:14-31 | "Dashboard" for any section but "tasks" and "users"; in those, "Add Task"/"Add User" for a second segment "add", "Edit Task"/"Edit User" for "edit", and "Tasks"/"Users" otherwise |
| Header.Segments | src/components/Layout/Header.tsx:15 | a path always has at least one segment |
| Header.AfterSlash | src/components/Layout/Header.tsx:15 | slicing off the leading "/" splits the rest |
| Header.SegmentsOfPath | src/components/Layout/Header.tsx:15 | "/" joined with slash-free parts splits back into those parts |
| Header.DeeperSegmentsIgnored | src/components/Layout/Header.tsx:15-27 | only the first two segments decide the page |
| Header.RouteFirstTwo | src/components/Layout/Header.tsx:17-30 | the routing reads no segment after the second |
| Header.OtherSectionsAreDashboard | src/components/Layout/Header.tsx:28-29 | any other first segment gives the dashboard |
| Header.RootRoute | src/components/Layout/Header.tsx:18-19 | "/" is the dashboard |
| Header.ListRoute | src/components/Layout/Header.tsx:20-27 | "/tasks" and "/users" name the two list pages |
| Header.AddRoute | src/components/Layout/Header.tsx:21-25 | "/tasks/add" and "/users/add" name the two creation forms |
| Header.EditRoute | src/components/Layout/Header.tsx:22-26 | "/tasks/edit/:id" and "/users/edit/:id" name the two edit forms, whatever the id |
| AddTask.RequiredText | src/pages/Tasks/AddTask.tsx:48 | the message exactly for a value made of white space only |
| AddTask.Required | src/pages/Tasks/AddTask.tsx:51 | the message exactly for the empty string |
| AddTask.ValidateTitle | src/pages/Tasks/AddTask.tsx:48 | "Title is required" exactly when the title is blank after trimming |
| AddTask.ValidateDescription | src/pages/Tasks/AddTask.tsx:49-50 | "Description is required" exactly when the description is blank after trimming |
| AddTask.ValidateAssignee | src/pages/Tasks/AddTask.tsx:51 | "Please select a user" exactly for an empty id |
| AddTask.ValidateStartDate | src/pages/Tasks/AddTask.tsx:52 | "Start date is required" exactly for an empty start date |
| AddTask.ValidateEndDate | src/pages/Tasks/AddTask.tsx:53-59 | an empty end is "required" before any comparison; nothing to compare without a start; otherwise refused exactly when strictly before the start |
| AddTask.EndNotBeforeStartPasses | src/pages/Tasks/AddTask.tsx:55-57 | an end on or after the start day passes |
| AddTask.Validate | src/pages/Tasks/AddTask.tsx:47-60 | each field gets its own validator's message |
| AddTask.AcceptedForms | src/pages/Tasks/AddTask.tsx:47-60 | the form is accepted exactly when title and description have a visible character, a user and both dates are chosen, and the end is not before the start |
| AddTask.UserLabel | src/pages/Tasks/AddTask.tsx:66 | the user's name, else "first last"; never empty |
| AddTask.UserOptions | src/pages/Tasks/AddTask.tsx:64-67 | one option per user, in order, carrying the id and the label |
| EditTask.Validate | src/pages/Tasks/EditTask.tsx:49-54 | the creation form's title, description and user checks, and nothing else |
| EditTask.DatesNotValidated | src/pages/Tasks/EditTask.tsx:49-54 | the dates never change the verdict, so the edit form accepts an end before the start that the creation form refuses |
| EditTask.AcceptedTasks | src/pages/Tasks/EditTask.tsx:50-53 | accepted exactly when title and description have a visible character and a user is chosen |
| EditTask.UserOptions | src/pages/Tasks/EditTask.tsx:70-74 | one option per user with the id, the avatar and the creation form's label |
| AddUser.ValidateFirstName | src/pages/Users/AddUser.tsx:41 | "First name is required" exactly for a blank first name |
| AddUser.ValidateLastName | src/pages/Users/AddUser.tsx:42 | "Last name is required" exactly for a blank last name |
| AddUser.ShortestMatch | src/pages/Users/AddUser.tsx:45 | the finite search for a shortest match decides the pattern exactly |
| AddUser.NeedsAtAndDot | src/pages/Users/AddUser.tsx:45 | a string without "@" or without "." never matches |
| AddUser.AddressMatches | src/pages/Users/AddUser.tsx:45 | a usual address `local@host.top` matches |
| AddUser.MatchInContext | src/pages/Users/AddUser.tsx:45 | the pattern is unanchored: text around a match does not spoil it |
| AddUser.ValidateEmail | src/pages/Users/AddUser.tsx:43-47 | "Email is required" for a blank value; otherwise accepted exactly when the pattern matches, with "Please enter a valid email" when it does not |
| AddUser.EmailMessages | src/pages/Users/AddUser.tsx:44-45 | the format message is never given for a blank value, and a matching value is accepted and has at least five characters |
| AddUser.Validate | src/pages/Users/AddUser.tsx:40-48 | each field gets its own validator's message |
| AddUser.DerivedEmailAccepted | src/store/slices/usersSlice.ts:47 | the address the store makes up passes the form's check whenever the last name is empty or ends in a visible character |
| EditUser.Prefill | src/pages/Users/EditUser.tsx:80-88 | once a user is loaded each field becomes the user's value, a missing one ""; before that the form is unchanged |
| EditUser.MissingNamePrefillsInvalid | src/pages/Users/EditUser.tsx:83 | a user loaded without a first name makes the form refuse it |
| EditUser.PrefilledEmailKept | src/pages/Users/EditUser.tsx:85 | a loaded address that matches the pattern passes the check unchanged |
| EditUser.Submit | src/pages/Users/EditUser.tsx:90-91 | nothing is dispatched exactly when the route id is missing or empty; otherwise the update carries that id and the values |
| EditUser.Body | src/pages/Users/EditUser.tsx:95 | the update body has the keys first_name, last_name and email, in order, each holding the form's string for that field |
| EditUser.SubmitPassesIdCheck | src/pages/Users/EditUser.tsx:90-95 | every submission the guard lets through passes the service's id check |
| UseApi.NoticeFor | src/hooks/useApi.ts:26-45 | no notice without the flag; "Success" in green after a success, "Error" in red with the mapped message after a failure |
| UseApi.ApiState.constructor | src/hooks/useApi.ts:12-16 | `{data: null, loading: false, error: null}` |
| UseApi.ApiState.Start | src/hooks/useApi.ts:20 | loading on, error cleared, data kept |
| UseApi.ApiState.Settle | src/hooks/useApi.ts:22-48 | the outcome is passed on; loading off; a success replaces the data and clears the error; a failure keeps the data and records the mapped message |
| UseApi.ApiState.Execute | src/hooks/useApi.ts:18-51 | the whole call: the same end state, with an error recorded exactly when the call threw |
| UseApi.ApiState.Reset | src/hooks/useApi.ts:53-55 | back to the initial state from any state |
| UseApi.FailureKeepsEarlierResult | src/hooks/useApi.ts:37 | a failure after a success keeps the first result and records the failure |

## Left out

- Fetch, `AbortController` and the timers are not modelled. Each attempt's outcome is an input, and the delays are an output list. The one shared timeout is armed once and cleared after the first response, and an aborted signal fails every later attempt. Both depend on timer semantics.
- The merging of request headers in `request` is not modelled. It is a detail of the fetch options object.
- `URLSearchParams` percent-encoding is left out. The query string is modelled as plain `k=v` pieces joined by "&".
- Date parsing, the locale date rendering, `toISOString` and the wall clock are parameters. Dates are compared as integers.
- Dashboard.TasksThisWeek: the instant `oneWeekAgo` is the parameter `weekAgo` rather than a fixed 604800000 ms before the clock, because `setDate(getDate() - 7)` steps back seven local calendar days, which is 167 or 169 hours across a daylight-saving change.
- Api.MissingText: a non-string `title`, `first_name` or `last_name` is treated as missing, where `trim` would throw a TypeError; the declared request types rule such a value out.
- `toFixed(1)` is not modelled. The completion rate is an exact `real`, and its percentage text is not built.
- `toLowerCase` and `trim` are modelled on ASCII letters and the JavaScript white-space characters. Unicode case folding and UTF-16 lengths are not modelled.
- The Redux Toolkit thunks, dispatch ordering and races between requests are not modelled. Each reducer case is one synchronous state change.
- The XLSX calls are not modelled, nor are notifications, navigation, JSX and styling. What the pages hand to them is modelled.
- React keys are not modelled. Neither are the avatar fallback of the task table and the "Invalid Date" branch of `formatDate`, which is covered by the `render` parameter.
- The EditTask `setImageFile` stub is not modelled: it always throws, and there is no file picker.
- EditTask's `setValues(currentTask)` prefill is not modelled. It copies the whole task, which is the identity on the task datatype.
- The EditUser `loading` flag toggled around a submission is not modelled, and neither is its redirect to "/users" when there is no id.
- Dashboard.GenerateStatsData: the icons, colours and descriptions of the cards are not stated, only their titles and values.

## Findings

| source | as written | input that shows it | evidently intended | confidence | as-written member | corrected member |
|---|---|---|---|---|---|---|
| src/components/Table/ReusableTable.tsx:136-143 | the footer computes "to" and "of" from `data.length`, but the task and user pages pass only the rows of the current page | 15 matching entries, 10 per page, page 2: "Shows 11 to 5 of 5 entries" | "Shows 11 to 15 of 15 entries": the range of row numbers on the page, out of every filtered entry | not executed | Table.ShownFooterExample | Table.IntendedFooterNamesRows |
