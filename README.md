# ozifin decision logic in Dafny

ozifin is a Next.js web application for a card-cash-out business. Sales
staff record withdraw and rollover transactions, managers watch a dashboard,
and the team shares a kanban task board with notifications. All of its
logic lives in React handlers over a hosted database. This project lifts
that logic out and states it in Dafny:

- the kanban board's moves and the notification recipients of its handlers;
- the transaction list's visibility rule, filters, pagination and CSV layout;
- the dashboard's monthly totals and per-day series;
- the image viewer, the notification bell, the user and settings pages;
- the `app_config` override fold that the shell and the login page share;
- sign-in, the stored session and the profile save.

The database is modelled as sequences of records. A handler returns the
writes it would send as values (`Write`, `UserInsert`, `ConfigWrite`,
`ProfileUpdate`, `SaleRename`). A remote failure is a boolean parameter
(`failed`, `rejected`), or a set of refused keys for the settings save.
Timestamps are integer milliseconds. A timestamp's day of the month is a
parameter `dayOf`. The first and last instants of the dashboard month are
inputs.

Files and modules:

- `wrappers.dfy`: `Wrappers`, the `Option` and `Result` types.
- `types.dfy`: `Types`, the records and enumerations of `src/types/index.ts`.
- `text.dfy`: `Text`, string helpers: lower-casing, `includes`, `trim`, number printing, join and split.
- `seqs.dfy`: `Seqs`, the list operations: `filter`, map-by-predicate, sums, `.single()`.
- `kanban.dfy`: `Kanban`, the task board and the task modal.
- `transactions.dfy`: `TransactionList`, the transaction list page.
- `dashboard.dfy`: `Dashboard`, the overview page.
- `lightbox.dfy`: `Viewer`, the image viewer.
- `notifications.dfy`: `Bell`, the notification bell.
- `users.dfy`: `Users`, user management.
- `settings.dfy`: `Settings`, the system settings page.
- `app_config.dfy`: `AppConfig`, the config rows and the override fold.
- `session.dfy`: `SessionSlot`, the browser storage slot `ozifin_user`.
- `shell.dfy`: `Shell`, the dashboard layout.
- `login.dfy`: `Login`, the login page.
- `profile.dfy`: `Profile`, the profile page.

Where a handler changes component state step by step, the page is a
`class` whose methods say the whole new state. Where the source computes a
value by `map`, `filter` or `reduce`, the model is a function. The loops
of the source are loops here, each proved against a specification
function:

- `applyFilters` is `FilterStepwise`, proved against `Filtered`;
- the `dailyData` `forEach` is `BucketByDay`, proved against `Buckets`;
- the config `forEach` is `ApplyOverrides`, proved against `Overridden`;
- the settings save loop is `Save`, proved against `FirstRejected`.

## Model

| member | source | states |
|---|---|---|
| Types.ParseRole | src/types/index.ts:4 | only "admin", "manager" and "sale" are roles, and each parses to the role of that name |
| Types.RoleNameRoundTrip | src/types/index.ts:4 | every role's stored name reads back as that role |
| Types.ParseTxType | src/types/index.ts:20 | only "Rút", "Đáo" and "Rút+Đáo" are transaction types, each read back to its name |
| Types.TxTypeNameRoundTrip | src/types/index.ts:20 | every transaction type's name reads back as that type |
| Types.ParseTxStatus | src/types/index.ts:29 | only "Chưa thanh toán" and "Đã thanh toán" are statuses |
| Types.TxStatusNameRoundTrip | src/types/index.ts:29 | every status name reads back as that status |
| Types.ParseTaskStatus | src/types/index.ts:77 | exactly the four task statuses todo, in_progress, review and done parse |
| Types.TaskStatusNameRoundTrip | src/types/index.ts:77 | every task status name reads back as that status |
| Types.ParseTaskPriority | src/types/index.ts:78 | exactly the four priorities low, medium, high and urgent parse |
| Types.TaskPriorityNameRoundTrip | src/types/index.ts:78 | every priority name reads back as that priority |
| Types.ProfitOrZero | src/types/index.ts:28 | the optional profit reads as 0 when missing and as its value otherwise |
| Text.TrimEmptyIffBlank | src/app/dashboard/tasks/page.tsx:104 | `trim()` gives the empty string exactly for strings made of white space |
| Text.SplitJoin | src/app/dashboard/transactions/page.tsx:127 | splitting a joined line at the separator gives back the fields, when no field contains the separator |
| Text.ParseDigitsOfNat | src/app/dashboard/page.tsx:109-110 | `parseInt` of a printed day number gives the number back |
| Kanban.AssigneesExcept | src/app/dashboard/tasks/page.tsx:176 | create-time recipients are exactly the assignees other than the actor, in order and with their multiplicity |
| Kanban.NewAssignees | src/app/dashboard/tasks/page.tsx:137 | update-time recipients are exactly the assignees not assigned before and not the actor, in order and with their multiplicity |
| Kanban.NewAssigneesWithoutPrevious | src/app/dashboard/tasks/page.tsx:137-176 | with no previous assignees the update rule and the create rule pick the same recipients |
| Kanban.FindTask | src/app/dashboard/tasks/page.tsx:502-503 | the lookup by `draggableId` finds nothing iff no task has that id, and otherwise a task with that id |
| Kanban.WithStatus | src/app/dashboard/tasks/page.tsx:521-524 | the task with the dragged id gets the new status; every other task, the length and the order stay |
| Kanban.MoveWrites | src/app/dashboard/tasks/page.tsx:528-547 | a move writes the status, then a history row by the mover, then a notification insert exactly when someone is notified; the only notification goes to the task's creator, exactly when the target is done, the task exists and the mover is not the creator |
| Kanban.Board.DragEnd | src/app/dashboard/tasks/page.tsx:488-548 | a drop with no destination or back onto its own place changes nothing and writes nothing; any other drop rewrites the status of that one task and, when signed in, issues the move writes |
| Kanban.Board.constructor | src/app/dashboard/tasks/page.tsx:457-462 | a board over the loaded tasks and user starts with the assignee filter empty, so it shows every task |
| Kanban.Board.SetFilter | src/app/dashboard/tasks/page.tsx:578 | choosing an assignee in the filter select makes it the filter, and nothing else changes |
| Kanban.ByAssignee | src/app/dashboard/tasks/page.tsx:560-563 | an empty filter shows all tasks; otherwise exactly the tasks whose assignees contain the filter user, in order and with their multiplicity |
| Kanban.InColumn | src/app/dashboard/tasks/page.tsx:599 | a column holds exactly the shown tasks of its status, in order and with their multiplicity |
| Kanban.ColumnsPartition | src/app/dashboard/tasks/page.tsx:598-599 | the four columns together hold every shown task exactly once |
| Kanban.MovedCardColumn | src/app/dashboard/tasks/page.tsx:521-599 | after a move the card is in no other column, and it is in the target column whenever the filter shows it |
| Kanban.TaskEditor.Save | src/app/dashboard/tasks/page.tsx:102-193 | no user or a blank title writes nothing; otherwise the task write comes first; only an accepted write is followed by the history row and the notification of the create or update recipients |
| Kanban.TaskEditor.constructor | src/app/dashboard/tasks/page.tsx:58-81 | opening the modal on a task copies its title, description, status, priority, assignees, due date and comments; a new task starts with an empty title, status todo, priority medium, no assignees, no due date and no comments; the comment box is empty either way |
| Kanban.TaskEditor.Fields | src/app/dashboard/tasks/page.tsx:109-117 | the save payload carries the form's title, description, status, priority, assignees and due date, stamped with the save time |
| Kanban.AfterSave | src/app/dashboard/tasks/page.tsx:128-183 | after an accepted save the history row comes first, for the saved task and by the actor, followed by one notification insert exactly when an update has assignees new to the task other than the actor, or a create has any assignee at all (even only the actor, who then gets an empty insert); an update notifies exactly those new assignees, a create every assignee but the actor |
| Kanban.CommentWrites | src/app/dashboard/tasks/page.tsx:217-236 | an accepted comment writes the comment row first, then `AfterComment`, and notifies exactly the assignees other than the commenter |
| Kanban.AfterComment | src/app/dashboard/tasks/page.tsx:224-236 | after an accepted comment at most one write follows, a notification insert, present exactly when some assignee other than the commenter exists, and it notifies exactly those assignees |
| Kanban.TaskEditor.PostComment | src/app/dashboard/tasks/page.tsx:207-236 | no task, no user or a blank comment posts nothing; an accepted comment is appended and the box cleared, and the task's assignees other than the commenter are notified |
| TransactionList.Visible | src/app/dashboard/transactions/page.tsx:50-52 | an admin or manager sees every row; anyone else sees exactly the rows they created, in order and with their multiplicity |
| TransactionList.Filtered | src/app/dashboard/transactions/page.tsx:66-86 | the result is an ordered subsequence holding exactly the rows that meet every criterion that is set, each as often as in the list |
| TransactionList.FilterStepwise | src/app/dashboard/transactions/page.tsx:66-86 | the four successive narrowing steps compute exactly `Filtered` |
| TransactionList.EmptyFiltersKeepAll | src/app/dashboard/transactions/page.tsx:69-85 | with no criterion set every row passes, in order |
| TransactionList.DateBounds | src/app/dashboard/transactions/page.tsx:69-76 | the start date is inclusive, and the end date lets rows through until 23:59:59 of that day |
| TransactionList.CustomerMatchIgnoresCase | src/app/dashboard/transactions/page.tsx:77-82 | the customer criterion matches customer or sale regardless of the case of the typed text |
| TransactionList.TotalPages | src/app/dashboard/transactions/page.tsx:136 | the page count is ceil(n/10): zero iff there are no rows, and the last page is neither empty nor beyond the list |
| TransactionList.PageItems | src/app/dashboard/transactions/page.tsx:137-140 | a page holds at most 10 rows, it is the slice of the list at its offset, and it is non-empty for pages 1..totalPages |
| TransactionList.PagesPrefix | src/app/dashboard/transactions/page.tsx:137-140 | the first k pages, concatenated, are the list's first min(10k, n) rows |
| TransactionList.PagesCoverList | src/app/dashboard/transactions/page.tsx:136-140 | pages 1..totalPages, concatenated, give back the whole filtered list |
| TransactionList.PageButtonsStayInRange | src/app/dashboard/transactions/page.tsx:335-342 | previous and next stay within 1..totalPages, and they stop at the first and the last page |
| TransactionList.TransactionsPage.ApplyFilters | src/app/dashboard/transactions/page.tsx:66-89 | re-filtering replaces the list with `Filtered` and resets the page to 1 |
| TransactionList.TransactionsPage.constructor | src/app/dashboard/transactions/page.tsx:13-27 | the page starts with no rows, the four filters empty and page 1 |
| TransactionList.TransactionsPage.SetFilters | src/app/dashboard/transactions/page.tsx:38-40 | editing a filter re-runs `applyFilters` on the new filters: the list becomes `Filtered` of the unchanged rows and the page goes back to 1 |
| TransactionList.TransactionsPage.Load | src/app/dashboard/transactions/page.tsx:42-64 | a successful load shows the user's visible rows, filtered, from page 1; a failed one changes nothing |
| TransactionList.TransactionsPage.Prev | src/app/dashboard/transactions/page.tsx:335 | the previous button moves one page back, not below 1 |
| TransactionList.TransactionsPage.Next | src/app/dashboard/transactions/page.tsx:342 | the next button moves one page on, not beyond the last |
| TransactionList.TransactionsPage.Shown | src/app/dashboard/transactions/page.tsx:137-141 | the rows shown are the consecutive rows of the current page, at most 10, and never none while the filtered list has rows |
| TransactionList.CsvRow | src/app/dashboard/transactions/page.tsx:114-125 | a row has one field per header, in the header's order: id, date, sale, agency, customer, bank, type name, amount, profit with a missing one written as 0, status name |
| TransactionList.CsvLines | src/app/dashboard/transactions/page.tsx:127 | the export has one header line plus one line per row, each row's fields joined by commas |
| TransactionList.ExportCsv | src/app/dashboard/transactions/page.tsx:107-128 | an empty list exports nothing; otherwise the file starts with the byte-order mark |
| TransactionList.CsvLayout | src/app/dashboard/transactions/page.tsx:113-128 | after the mark, the file splits into the header and one line per row, each of 10 fields that read back as the row's fields |
| TransactionList.TotalVolumeAppend | src/app/dashboard/transactions/page.tsx:142 | the volume of two lists joined is the sum of their volumes |
| TransactionList.TotalVolumeOfPages | src/app/dashboard/transactions/page.tsx:137-142 | the volume of the first k pages is the volume of the rows they cover |
| Dashboard.MonthRows | src/app/dashboard/page.tsx:61-75 | the month query keeps, in order, exactly the visible rows whose timestamp falls within the month, each as often as in the store |
| Dashboard.MonthRowsAreVisibleRows | src/app/dashboard/page.tsx:68-75 | the month's rows are the rows the transaction list would show, narrowed to the month |
| Dashboard.StatsOf | src/app/dashboard/page.tsx:84-93 | the count is the number of rows; the profit total equals the sum over just the rows that record a profit, so a row without one adds nothing |
| Dashboard.NoProfitAddsNothing | src/app/dashboard/page.tsx:85 | rows without a profit add 0 to the total profit |
| Dashboard.Recent | src/app/dashboard/page.tsx:95 | recent is the first min(5, n) rows |
| Dashboard.OnDayAppend | src/app/dashboard/page.tsx:99-100 | one more row adds itself to its own day's rows and to no other day's |
| Dashboard.BucketByDay | src/app/dashboard/page.tsx:98-106 | the loop's map has an entry exactly for the days that have rows, holding each day's volume and profit |
| Dashboard.BucketsAppend | src/app/dashboard/page.tsx:99-106 | one loop step keeps the bucket invariant over one more row |
| Dashboard.EmptyDayHasNoRows | src/app/dashboard/page.tsx:110-111 | a day no row falls on has no rows, so its entries are 0 |
| Dashboard.DaysInMonth | src/app/dashboard/page.tsx:108 | a month has 28 to 31 days, and February has 29 exactly in a Gregorian leap year |
| Dashboard.LabelsParseBack | src/app/dashboard/page.tsx:109-111 | each label parses back to its day number |
| Dashboard.Labels | src/app/dashboard/page.tsx:109 | one label per day of the month, label i being the number i + 1 printed |
| Dashboard.SeriesEntries | src/app/dashboard/page.tsx:108-111 | both series have daysInMonth entries, and entry d is the volume (or profit) of day d's rows, 0 without rows |
| Dashboard.SeriesAddUpToTotals | src/app/dashboard/page.tsx:84-111 | when every row's day lies within the month, the series add up to the total volume and the total profit |
| Dashboard.DashboardPage.SetSeries | src/app/dashboard/page.tsx:110-111 | entry d - 1 of the volume and of the profit series is the total of the rows of day d, with one entry per day of the month |
| Dashboard.DashboardPage.constructor | src/app/dashboard/page.tsx:36-44 | the overview starts with zero totals, no recent rows and empty series |
| Dashboard.DashboardPage.Load | src/app/dashboard/page.tsx:57-111 | a successful load sets the stats, the recent list, the labels and both series of the month's rows; a failed one changes nothing |
| Viewer.IndexStepsAreModular | src/components/ui/Lightbox.tsx:34-41 | on a non-empty list next and previous are steps modulo the list length and stay in range |
| Viewer.NextPrevRoundTrip | src/components/ui/Lightbox.tsx:34-41 | next then previous, and previous then next, return to the same image |
| Viewer.ZoomMatchesScale | src/components/ui/Lightbox.tsx:53-58 | zooming in adds 0.5 up to 3, zooming out takes 0.5 down to 0.5, and an in-range scale stays in [0.5, 3] |
| Viewer.Lightbox.constructor | src/components/ui/Lightbox.tsx:14-17 | a new viewer shows `initialIndex`, upright, at scale 1 |
| Viewer.Lightbox.Open | src/components/ui/Lightbox.tsx:20-26 | opening sets the index to `initialIndex`, the rotation to 0 and the scale to 1 |
| Viewer.Lightbox.Prev | src/components/ui/Lightbox.tsx:32-37 | previous wraps from 0 to the last image, resets rotation and scale, and keeps the index in range |
| Viewer.Lightbox.Next | src/components/ui/Lightbox.tsx:39-44 | next wraps from the last image to 0, resets rotation and scale, and keeps the index in range |
| Viewer.Lightbox.Rotate | src/components/ui/Lightbox.tsx:46-49 | rotating adds 90 degrees and keeps the index and the scale |
| Viewer.Lightbox.ZoomInStep | src/components/ui/Lightbox.tsx:51-54 | zoom in is the capped step; the index and the rotation are kept, and the scale stays in range |
| Viewer.Lightbox.ZoomOutStep | src/components/ui/Lightbox.tsx:56-59 | zoom out is the floored step; the index and the rotation are kept, and the scale stays in range |
| Bell.UnreadFor | src/components/NotificationBell.tsx:15-24 | the loaded list holds exactly the user's unread notifications, in store order and as often as stored |
| Bell.RemoveById | src/components/NotificationBell.tsx:56 | a click removes exactly the notifications with that id; the others keep their order and their multiplicity |
| Bell.RemoveAbsentId | src/components/NotificationBell.tsx:56 | removing an id no notification carries changes nothing |
| Bell.RemovePrepended | src/components/NotificationBell.tsx:41-56 | a notification just prepended by an insert event is removed again by its click |
| Bell.Destination | src/components/NotificationBell.tsx:58-60 | a click navigates exactly when the notification has a non-empty link, and to that link |
| Bell.NotificationBell.Load | src/components/NotificationBell.tsx:15-24 | a load shows the user's unread notifications, all the user's and all unread; a failed one changes nothing |
| Bell.NotificationBell.constructor | src/components/NotificationBell.tsx:11-12 | the bell starts with no notifications, closed and without a badge |
| Bell.NotificationBell.OnInsert | src/components/NotificationBell.tsx:40-42 | an insert event prepends the new notification, keeps the rest in order, and shows the badge |
| Bell.NotificationBell.ClickStart | src/components/NotificationBell.tsx:52-55 | up to the mark-read await: the panel closes, that id is marked read, and the handler holds the list as it then is |
| Bell.NotificationBell.ClickFinish | src/components/NotificationBell.tsx:56-60 | after the await: the list becomes the held list without the clicked id, and the link is followed if any |
| Bell.NotificationBell.Click | src/components/NotificationBell.tsx:52-61 | a click with no event in between closes the panel, marks that id read, removes it from the list and navigates to its link if any |
| Bell.NotificationBell.ClickAcrossInsert | src/components/NotificationBell.tsx:41-56 | a notification the channel delivers while the mark-read await is pending is gone from the list after the click |
| Bell.InsertDuringClickLost | src/components/NotificationBell.tsx:41-56 | filtering the held list drops a notification that arrived after it was taken, while filtering the current list, as the insert handler's `prev =>` form does, would keep it |
| Bell.NotificationBell.Toggle | src/components/NotificationBell.tsx:66 | the bell button flips the panel |
| Users.SearchUsers | src/app/dashboard/users/page.tsx:107-110 | the search keeps, in order, exactly the users whose display name or username contains the term, ignoring case, each as often as listed |
| Users.EmptySearchListsAll | src/app/dashboard/users/page.tsx:107-110 | an empty search lists every user |
| Users.SearchIgnoresTermCase | src/app/dashboard/users/page.tsx:108-109 | lower-casing the search term does not change the result |
| Users.UsersPage.Mount | src/app/dashboard/users/page.tsx:23-34 | users load only for an admin or a manager, and then the list is the store's listing, or stays as it was when the query fails; anyone else is refused and the list stays |
| Users.UsersPage.constructor | src/app/dashboard/users/page.tsx:11-20 | the page starts with no users, no current user, the dialog closed and the empty form with role sale |
| Users.Listing | src/app/dashboard/users/page.tsx:39-45 | the listing has one entry per stored row, carrying its typed fields: id, username, role, display name and avatar (the runtime rows also carry `password_hash`, which the model leaves out) |
| Users.UsersPage.LoadUsers | src/app/dashboard/users/page.tsx:36-52 | the listing replaces the list; a failed query keeps it |
| Users.UsersPage.CreateUser | src/app/dashboard/users/page.tsx:54-86 | a username the lookup finds is refused with no insert; a lookup that fails or finds no single row lets the form's row through to the insert, and an accepted insert closes the dialog and resets the form to empty fields with role sale |
| Users.TakenUsernameRefused | src/app/dashboard/users/page.tsx:58-67 | a username held by one account is found by the lookup, so it is refused whenever the lookup succeeds |
| Users.FreeUsernameInserted | src/app/dashboard/users/page.tsx:58-69 | a username no account holds goes through to the insert |
| Users.DuplicatedUsernameNotRefused | src/app/dashboard/users/page.tsx:58-64 | a username held by two accounts is not refused, because `.single()` finds nothing then |
| Users.DeleteTarget | src/app/dashboard/users/page.tsx:88-97 | a delete is issued exactly when confirmed and the account is not named admin, and it targets that account's id |
| Users.AdminSurvivesDelete | src/app/dashboard/users/page.tsx:91-97 | with unique ids, no delete from the page removes the account named admin |
| Users.AfterDelete | src/app/dashboard/users/page.tsx:97 | a delete by id keeps, in order and with their multiplicity, exactly the rows with another id; no delete keeps the table |
| Settings.UpdateByKey | src/app/dashboard/settings/page.tsx:46-48 | only the values of rows with the edited key change; keys, descriptions, length and order stay |
| Settings.Lookup | src/app/dashboard/settings/page.tsx:122-165 | an input shows the first row's value for its key, and '' when no row has the key |
| Settings.LookupAfterUpdate | src/app/dashboard/settings/page.tsx:46-48 | after typing into the input of a present key, the input shows what was typed |
| Settings.LookupOtherAfterUpdate | src/app/dashboard/settings/page.tsx:46-48 | typing into one input leaves what every other input shows |
| Settings.UpdateAbsentKey | src/app/dashboard/settings/page.tsx:46-48 | typing into the input of a missing key changes nothing, and the input keeps showing '' |
| Settings.FirstRejected | src/app/dashboard/settings/page.tsx:53-60 | the loop stops at the first refused row: all earlier rows are accepted |
| Settings.SettingsPage.Save | src/app/dashboard/settings/page.tsx:50-72 | rows are written in order up to and including the first refused one, and none after it; success (and the config-updated event) iff none is refused |
| Settings.SettingsPage.LoadConfig | src/app/dashboard/settings/page.tsx:29-44 | the table replaces the list unless the query fails, and loading ends either way |
| Settings.SettingsPage.constructor | src/app/dashboard/settings/page.tsx:15-18 | the page starts with no rows, loading and no role |
| Settings.SettingsPage.Mount | src/app/dashboard/settings/page.tsx:20-27 | the session's role is remembered, '' without a session, and the table loads for everyone |
| Settings.SettingsPage.Update | src/app/dashboard/settings/page.tsx:46-48 | editing applies the update by key to the list |
| Settings.SettingsGateIsAdmin | src/app/dashboard/settings/page.tsx:82-88 | once loaded, the content renders exactly for the role admin |
| AppConfig.LastValue | src/app/dashboard/layout.tsx:38-41 | a key's text is the value of the last row with that key, and the current text when no row has it |
| AppConfig.ApplyOverrides | src/app/dashboard/layout.tsx:37-41 | the `forEach` over a copy of the defaults computes the last-row-wins banner for both keys |
| AppConfig.LastValueOfQuery | src/app/dashboard/layout.tsx:35 | rows of other keys do not change a key's text, so the key-restricted query gives the same text |
| AppConfig.QueryBannerIsTableBanner | src/app/dashboard/layout.tsx:35-41 | the banner from the two-key query is the banner of the whole table |
| Shell.NavLinks | src/app/dashboard/layout.tsx:104-112 | overview, transactions and profile always show, first and last; users exactly for admin or manager; settings exactly for admin; no other link |
| Shell.NavLinksMatchPageGates | src/app/dashboard/layout.tsx:106-111 | the settings link shows exactly for the roles the settings page lets in |
| Shell.DashboardShell.constructor | src/app/dashboard/layout.tsx:16-22 | the sidebar starts with title OZIFIN and slogan Transaction System, no user, not mounted |
| Shell.DashboardShell.LoadConfig | src/app/dashboard/layout.tsx:33-47 | an empty or failed query keeps the sidebar; otherwise it becomes the defaults overridden by the sidebar_title and sidebar_slogan rows, last row winning |
| Shell.DashboardShell.Mount | src/app/dashboard/layout.tsx:24-31 | mounting marks the shell mounted and loads the sidebar texts |
| Shell.DashboardShell.CheckSession | src/app/dashboard/layout.tsx:49-58 | once mounted, no stored session redirects to /login; a stored one becomes the shown user |
| Shell.DashboardShell.Logout | src/app/dashboard/layout.tsx:60-64 | logging out removes the stored session and goes to /login |
| Shell.LogoutThenCheck | src/app/dashboard/layout.tsx:52-64 | after a logout, the next session check redirects to /login |
| SessionSlot.SessionStore.Put | src/app/login/page.tsx:67-73 | storing a session makes it the stored one |
| SessionSlot.SessionStore.constructor | src/app/page.tsx:17-22 | a browser that never signed in has nothing under `ozifin_user` |
| SessionSlot.SessionStore.Remove | src/app/dashboard/layout.tsx:61 | removing leaves no stored session |
| Login.SessionIgnoresPassword | src/app/login/page.tsx:67-73 | the stored session does not depend on the password |
| Login.SessionOf | src/app/login/page.tsx:67-73 | the stored record copies the id, username, role, display name and avatar of the row |
| Login.Authenticate | src/app/login/page.tsx:46-64 | sign-in succeeds exactly when the lookup finds the row and its password_hash equals the typed password; every failure carries the same message |
| Login.UnknownUserRefused | src/app/login/page.tsx:52-56 | an unknown username is refused with the shared message |
| Login.WrongPasswordRefused | src/app/login/page.tsx:60-64 | a wrong password is refused with the same message |
| Login.RightPasswordAccepted | src/app/login/page.tsx:46-73 | the account's own password signs in as that account |
| Login.LoginPage.LoadConfig | src/app/login/page.tsx:24-38 | an empty or failed query keeps the banner; otherwise it becomes the login defaults overridden by the login_title and login_slogan rows |
| Login.LoginPage.HandleLogin | src/app/login/page.tsx:40-83 | success stores the session, greets the user by display name and goes to the dashboard; failure leaves storage alone and shows the shared message |
| Login.LoginPage.constructor | src/app/login/page.tsx:11-18 | the form starts empty, and the banner starts as OZIFIN with the built-in slogan |
| Profile.UpdateUserRow | src/app/dashboard/profile/page.tsx:80-86 | only the rows with the user's username take the new display name and avatar |
| Profile.RenameSales | src/app/dashboard/profile/page.tsx:94-97 | every transaction the user created names the new display name as sale; no other field and no other transaction changes |
| Profile.RenameSalesIdempotent | src/app/dashboard/profile/page.tsx:94-97 | renaming twice is renaming once |
| Profile.RenameKeepsOwner | src/app/dashboard/profile/page.tsx:94-97 | the rename keeps every transaction's creator, so it keeps who may see it |
| Profile.MergeSession | src/app/dashboard/profile/page.tsx:102 | the new session is the old one with the display name and the avatar of the form |
| Profile.MergedSessionMatchesNextLogin | src/app/dashboard/profile/page.tsx:80-104 | the merged session equals the session the next sign-in builds from the updated row |
| Profile.AvatarText | src/app/dashboard/profile/page.tsx:41 | a missing avatar reads as '' in the form |
| Profile.ProfilePage.LoadProfile | src/app/dashboard/profile/page.tsx:29-54 | the user's row fills the form and refreshes the stored session's name and avatar; a failed or empty lookup changes nothing |
| Profile.ProfilePage.constructor | src/app/dashboard/profile/page.tsx:12-18 | the page starts with no user and an empty form |
| Profile.ProfilePage.Mount | src/app/dashboard/profile/page.tsx:20-27 | with a stored session the page shows it; when its profile row loads, the form takes the row's display name and avatar and the stored session takes them too, and a failed or empty load leaves form and storage as they were; without a session nothing changes |
| Profile.ProfilePage.AvatarUploaded | src/app/dashboard/profile/page.tsx:56-72 | a successful upload changes the avatar field only; a failed one changes nothing |
| Profile.ProfilePage.Submit | src/app/dashboard/profile/page.tsx:74-116 | without a user nothing happens; a refused row update ends the save; otherwise the rename is sent and the merged session is stored and shown, whether the rename succeeds or not |
| Seqs.Single | src/app/login/page.tsx:46-50 | `.single()` gives a row exactly when one row matches, and that row matches |

## Left out

- Network, storage and framework effects are left out: the database client, the realtime channel, the router, toasts, `confirm`, window events and the page reloads. Writes are returned as values. The store's answers are parameters.
- Sort orders requested from the store are left out (`order('timestamp')`, `order('created_at')`, `order('key')`, `order('index')`). Each store sequence is taken to be already in the returned order.
- Reloading a list after a write is left out (`loadUsers`, `onUpdate`, `loadTransactions` after create, delete or save). The reload is the load method again.
- Date handling is left out: `Date` parsing, time zones, `toISOString`, `setHours`, the date-only form of a task's due date, and `formatDate` in the CSV. Timestamps are integers, and the day of the month is a parameter. `DateBounds` fixes the end-date offset at 23:59:59.
- `avgProfit` is left out because it is floating-point division.
- Currency formatting is left out.
- Lower-casing covers ASCII letters A-Z only, while `toLowerCase` also maps non-ASCII capitals such as Vietnamese ones. Every case-insensitive property is stated over the modelled `Lower`.
- `Number(t.amount)` is left out. Amounts and profits are integers, with no string-to-number conversion.
- The task modal's comment and history loading are not modelled (src/app/dashboard/tasks/page.tsx:84-100). Each is a single read that replaces the list in the modal when data comes back, with no reload and no write.
- The task modal's delete is not modelled (src/app/dashboard/tasks/page.tsx:195-205). It runs only after a `confirm` dialog, deletes the row, calls `onUpdate` and closes the modal. The transaction list's delete is not modelled either (src/app/dashboard/transactions/page.tsx:91-105). It also runs only after a `confirm`, and it reloads the list when the delete reports no error. Both are one store call behind a browser dialog, with nothing to prove beyond that.
- The dead splice code of `handleDragEnd` (src/app/dashboard/tasks/page.tsx:500-516) is left out. Its result is discarded.
- Fee and profit derivation, transaction ids, image upload (`lib/imgbb`), the rich-text editor and the CSV download itself are not part of this model.
- The error branch that `handleLogin` catches ("Đã xảy ra lỗi khi đăng nhập") is left out. A query error is modelled as `failed`, which the source reports with the shared credentials message.
- Profile.ProfilePage.LoadProfile: when storage has been emptied while the query runs, the source writes a two-field object. The model then leaves storage empty.
- Dashboard.BucketByDay: each row's two statements, creating a missing entry and then adding to it, are one map update, `AddRow`. `InitThenAdd` states that the two give the same map.
- CsvLayout: requires every field of every row to be free of commas and line breaks, because the source joins fields unquoted. A customer name containing a comma makes that line split into more than 10 fields.
- Settings.SettingsPage.Save: a refusal is modelled by the set of keys whose update fails, not by an arbitrary sequence of answers.
- Users.Listing: the rows of `select('*')` on `users` carry `password_hash` at run time, and the page stores them all in its state, so an admin's or manager's browser holds every user's password. The model's `User` has only the fields the `User` interface declares, so it does not show this.
- Users.UsersPage.CreateUser: the refusal follows `.single()`, so a username that two rows already share is not refused (`DuplicatedUsernameNotRefused`). The lookup's error is never read, so a failed lookup also lets any username through to the insert. Whether the table's constraints forbid such rows is not visible here.
