# Employee Management System: a Dafny model of the dashboard core

This project models the logic of a single-page employee-management
dashboard written in React. It covers the following:

- **The application shell** (`App.tsx`). This is the state behind the screen:
  whether a user is logged in, the current view, the employee whose profile
  is open, and whether the command palette is open. The model gives each
  handler as a transition, and says which screen and title follow from a
  state (`app.dfy`, module `App`). The class `App.Shell` keeps those five
  fields and updates them in place, as the component's `useState` hooks do.
- **The login form** (`Login.tsx`). It validates credentials and has a
  two-phase submit: a click sets the loading flag, and a deferred check then
  accepts only the demo pair or reports an error (`login.dfy`, module
  `Login`; the class `Login.LoginForm` keeps the form's fields).
- **The command palette** (`CommandPalette.tsx`). Cmd/Ctrl+K toggles it.
  Choosing a command navigates and then closes the palette
  (`command_palette.dfy`).
- **The derived views**, as pure functions over the record lists they are
  given:
  - the employee search, the department filter and the department list
    (`employee_list.dfy`);
  - the leave status filter, the counts and the rows with actions
    (`leave_management.dfy`);
  - the payroll counts, the net total and the payment summary
    (`payroll.dfy`);
  - the attendance counts and the status colours and icons
    (`attendance.dfy`);
  - the profile's initials, tenure and status badge
    (`employee_profile.dfy`).
- **The record types** (`types/index.ts`, in `types.dfy`). Each closed string
  union becomes a datatype, and a parser for each tag is proved to be exact.

The generic pieces are kept in modules of their own:

- `Seqs` has filter, sum, and first-seen de-duplication, which is what a
  JavaScript `Set` gives.
- `Text` has ASCII lower-casing, substring search, and `split`/`join`.
- `Wrappers` has `Option` and `Result`.
- `Tones` has the colour and icon families that badges map to.

The stateful parts come in two layers:

- A value type with pure transition functions (`ShellState` with
  `AfterLogin`, `AfterLogout`, …; `FormState` with `AfterSubmit`,
  `AfterResolve`, …). The properties are proved about these functions.
- A class whose methods update fields. Each method is specified as
  `State() == After…(old(State()))`.

## Model

| member | source | states |
|---|---|---|
| Types.ParseEmployeeStatus | src/types/index.ts:10 | a tag parses to an employee status exactly when it is the name of one ('active', 'on-leave', 'inactive'); otherwise no status has that name |
| Types.ParseAttendanceStatus | src/types/index.ts:24 | a tag parses exactly when it names 'present', 'absent', 'late' or 'half-day' |
| Types.ParseLeaveType | src/types/index.ts:32 | a tag parses exactly when it names 'sick', 'vacation', 'personal' or 'unpaid' |
| Types.ParseLeaveStatus | src/types/index.ts:36 | a tag parses exactly when it names 'pending', 'approved' or 'rejected' |
| Types.ParsePayrollStatus | src/types/index.ts:49 | a tag parses exactly when it names 'paid', 'pending' or 'processing' |
| Types.TagsAreInjective | src/types/index.ts:10-49 | within each union, two members with the same tag string are the same member |
| Types.ParseName | src/types/index.ts:10-49 | parsing a member's own tag gives that member back (round trip) |
| Text.Lower | src/components/EmployeeList.tsx:43-45 | lower-casing keeps the length and lowers every character at its own index |
| Text.LowerIdempotent | src/components/EmployeeList.tsx:43-45 | lower-casing twice is the same as lower-casing once |
| Text.Contains | src/components/EmployeeList.tsx:43-45 | `includes` holds exactly when the needle occurs at some index of the haystack |
| Text.EmptyIsEverywhere | src/components/EmployeeList.tsx:43-45 | the empty search term is contained in every string |
| Text.Split | src/components/EmployeeProfile.tsx:55 | `split(' ')` gives at least one part, no part contains the separator, and joining the parts gives the input back |
| Text.Join | src/components/EmployeeProfile.tsx:55 | `join` of one part is that part, and the first part always begins the result |
| Text.JoinSeparatorCount | src/components/EmployeeProfile.tsx:55 | joining n separator-free parts puts exactly n − 1 separators into the result |
| Text.SplitJoin | src/components/EmployeeProfile.tsx:55 | for parts free of the separator, splitting their join gives the parts back (the other round trip) |
| Seqs.Filter | src/components/EmployeeList.tsx:42-48 | the filtered list is no longer than the input, holds exactly the elements that satisfy the predicate, and keeps every such element as many times as the input has it (rejected elements not at all) |
| Seqs.FilterIsSubsequence | src/components/EmployeeList.tsx:42-48 | filtering keeps the input's order: the result is a subsequence of it |
| Seqs.Distinct | src/components/EmployeeList.tsx:50 | the de-duplicated list has no repeats, has the same members as the input, and is no longer |
| Seqs.Total | src/components/Payroll.tsx:45 | the `reduce` sum is 0 for an empty list, the single value for one element, and never negative when every value is non-negative |
| Seqs.TotalAppend | src/components/Payroll.tsx:236-250 | the sum over two lists joined is the sum of their sums |
| Seqs.DistinctFirstSeenOrder | src/components/EmployeeList.tsx:50 | de-duplicated values appear in the order of their first occurrence in the input |
| EmployeeList.FilteredEmployees | src/components/EmployeeList.tsx:42-48 | the list shows, in input order, exactly the employees whose name, email or position contains the term case-insensitively and whose department matches (or the filter is 'all'), each as many times as the directory lists it |
| EmployeeList.ShowAll | src/components/EmployeeList.tsx:42-48 | an empty term with department 'all' shows every employee |
| EmployeeList.SearchIsCaseInsensitive | src/components/EmployeeList.tsx:43-45 | two search terms that lower-case to the same string show the same employees |
| EmployeeList.SearchIgnoresDepartmentAndId | src/components/EmployeeList.tsx:43-45 | the search term looks only at name, email and position: employees that agree on those match alike |
| EmployeeList.Departments | src/components/EmployeeList.tsx:50 | the department menu starts with 'all', then lists every employee department exactly once and nothing else |
| EmployeeList.DepartmentsFirstSeenOrder | src/components/EmployeeList.tsx:50 | the departments after 'all' appear in the order each first occurs among the employees |
| EmployeeList.FooterCounts | src/components/EmployeeList.tsx:229 | the footer's shown count is the length of the filtered list and its total the number of employees; shown never exceeds total, and the two are equal when no filter is applied |
| EmployeeProfile.FirstChars | src/components/EmployeeProfile.tsx:55 | one character per non-empty part, each the first character of some part |
| EmployeeProfile.Initials | src/components/EmployeeProfile.tsx:55 | the initials have one letter per non-empty word of the name, none is a space, and each occurs in the name |
| EmployeeProfile.InitialsOfWord | src/components/EmployeeList.tsx:152 | a one-word name without spaces has its first letter as its initials |
| EmployeeProfile.InitialsOfFirstWord | src/components/EmployeeProfile.tsx:55 | the initials of "first rest" start with the first word's first letter |
| EmployeeProfile.Tenure | src/components/EmployeeProfile.tsx:176 | tenure is the whole number of 365-day years between join and now (floored), non-negative exactly when join is not after now |
| EmployeeProfile.TenureMonotone | src/components/EmployeeProfile.tsx:176 | a later "now" never gives a smaller tenure |
| EmployeeProfile.StatusColor | src/components/EmployeeProfile.tsx:18-29 | 'active' is green, 'on-leave' yellow; 'inactive' and anything else the neutral slate (same rule as EmployeeList.tsx:52-63) |
| LeaveManagement.WithStatus | src/components/LeaveManagement.tsx:73-75 | the requests with a given status are exactly those input requests, in order, each as many times as the input has it |
| LeaveManagement.WithStatusCount | src/components/LeaveManagement.tsx:73-75 | the filter for a status keeps as many requests as a one-by-one tally of that status counts |
| LeaveManagement.FilteredRequests | src/components/LeaveManagement.tsx:40-42 | filter 'all' shows every request; a status filter shows, in order, exactly the requests with that status |
| LeaveManagement.Stats | src/components/LeaveManagement.tsx:72-76 | each counter is the tally of requests with exactly its status, and the three add up to the number of requests |
| LeaveManagement.StatusCountsPartition | src/components/LeaveManagement.tsx:73-75 | the three status lists partition the requests: their lengths add up to the total |
| LeaveManagement.FilteredCountMatchesStat | src/components/LeaveManagement.tsx:40-42 | the number of rows under a status filter equals that status's counter on the stat card |
| LeaveManagement.ActionRows | src/components/LeaveManagement.tsx:290 | approve/reject buttons appear on exactly the pending rows: none under the approved or rejected filter, the pending requests otherwise |
| LeaveManagement.StatusColor | src/components/LeaveManagement.tsx:44-55 | 'approved' is green, 'pending' yellow, 'rejected' red, anything else slate |
| LeaveManagement.TypeColor | src/components/LeaveManagement.tsx:57-70 | 'sick' red, 'vacation' blue, 'personal' purple; slate exactly for every other type, 'unpaid' included |
| Payroll.WithStatus | src/components/Payroll.tsx:46-48 | the records with a given status are exactly those input records, in order, each as many times as the input has it |
| Payroll.WithStatusCount | src/components/Payroll.tsx:46-48 | the filter for a status keeps as many records as a one-by-one tally of that status counts |
| Payroll.Stats | src/components/Payroll.tsx:44-49 | the total payroll is the sum of the net salaries; paid, pending and processing are each the tally of records with exactly that status, and they add up to the number of records |
| Payroll.StatusCountsPartition | src/components/Payroll.tsx:46-48 | the three status lists partition the records |
| Payroll.BalancedTotals | src/components/Payroll.tsx:236-257 | when every record's net salary is base + bonus − deductions, the net payroll line equals total base + total bonuses − total deductions |
| Payroll.SummaryAdditive | src/components/Payroll.tsx:236-250 | every summary total of two lists joined is the sum of their totals |
| Payroll.Summary | src/components/Payroll.tsx:236-257 | the base, bonus and deduction lines are the sums of those fields, the net line is the stat card's total payroll, and every total is zero for no records |
| Payroll.Table | src/components/Payroll.tsx:178 | the table has one row per record: every record, unfiltered and in input order |
| Payroll.ProcessRows | src/components/Payroll.tsx:200 | among the table's rows, the Process button appears on exactly pending + processing many |
| Payroll.StatusColor | src/components/Payroll.tsx:18-29 | 'paid' green, 'pending' yellow, 'processing' blue, anything else slate |
| Payroll.StatusIcon | src/components/Payroll.tsx:31-42 | 'paid' check, 'pending' alert, 'processing' clock; the clock also for any other status |
| Attendance.WithStatus | src/components/Attendance.tsx:49-51 | the records with a given status are exactly those input records, in order, each as many times as the input has it |
| Attendance.WithStatusCount | src/components/Attendance.tsx:49-51 | the filter for a status keeps as many records as a one-by-one tally of that status counts |
| Attendance.Stats | src/components/Attendance.tsx:48-51 | present, late and absent are each the tally of records with exactly that status; their sum is the number of records minus the half-day ones, hence at most the total |
| Attendance.StatusCountsPartition | src/components/Attendance.tsx:49-51 | the four status lists partition the records |
| Attendance.Page | src/components/Attendance.tsx:171-206 | the table lists every record in order whatever date is picked; the date only sets the caption |
| Attendance.DateOnlyChangesCaption | src/components/Attendance.tsx:171-206 | two different picked dates give the same rows |
| Attendance.StatusColor | src/components/Attendance.tsx:20-33 | 'present' green, 'late' yellow, 'absent' red, 'half-day' blue, anything else slate |
| Attendance.StatusIcon | src/components/Attendance.tsx:35-46 | check for present, alert for late, cross for absent; the clock exactly when the status is half-day or unknown |
| Attendance.HalfDayIconIsDefault | src/components/Attendance.tsx:35-46 | half-day has no icon case of its own and gets the fallback icon |
| CommandPalette.KeyDown | src/components/CommandPalette.tsx:28-33 | a key press flips the open flag exactly when it is 'k' with Cmd or Ctrl held |
| CommandPalette.HandleSelect | src/components/CommandPalette.tsx:39-42 | choosing a command reports one navigation to its view and then closes the palette |
| CommandPalette.IsShortcut | src/components/CommandPalette.tsx:29 | the shortcut is exactly lower-case 'k' with Cmd or Ctrl held; no key without a modifier is the shortcut |
| CommandPalette.Toggle | src/components/CommandPalette.tsx:29-31 | the open flag after the key differs from before exactly when the key is the shortcut |
| CommandPalette.ToggleTwice | src/components/CommandPalette.tsx:31 | pressing the shortcut twice restores the open flag |
| CommandPalette.OnlyTheShortcutToggles | src/components/CommandPalette.tsx:29 | 'k' without Cmd or Ctrl, and a capital 'K' even with one, leave the palette as it was |
| CommandPalette.SelectNavigatesThenCloses | src/components/CommandPalette.tsx:39-42 | after a selection the palette is closed whatever it was, and exactly one navigation, to the chosen token, was reported |
| Login.Message | src/components/Login.tsx:29-49 | each error kind maps to the form's message text |
| Login.MessagesDistinct | src/components/Login.tsx:29-49 | the three error messages are pairwise different |
| Login.Validate | src/components/Login.tsx:29-39 | missing-field error exactly when a field is empty; malformed-email error exactly when both are filled and the email has no '@'; success otherwise |
| Login.Attempt | src/components/Login.tsx:29-49 | login succeeds exactly for the demo pair; invalid-credentials exactly when validation passes and the pair is not the demo pair; a validation failure is returned as the error Validate reports |
| Login.AfterEditEmail | src/components/Login.tsx:170 | typing sets the email and nothing else, and has no effect while loading (input disabled) |
| Login.AfterEditPassword | src/components/Login.tsx:186 | typing sets the password and nothing else, and has no effect while loading |
| Login.AfterSubmit | src/components/Login.tsx:23-41 | submit clears the error; a validation failure shows its message without loading; valid input starts loading and schedules the check; inputs are unchanged; while loading (button disabled) a submit has no effect; consistency is kept |
| Login.AfterResolve | src/components/Login.tsx:42-50 | the deferred check logs in exactly for the demo pair and otherwise shows the invalid-credentials message and stops loading; the email and password inputs are kept for a retry |
| Login.SubmitThenResolveIsAttempt | src/components/Login.tsx:23-51 | submit followed by the deferred check behaves as Attempt: it logs in on Ok and shows Message(e) on Err(e) |
| Login.StuckAfterSuccess | src/components/Login.tsx:44-45 | after a successful check the form stays loading (the source never resets it on success) |
| Login.LoginForm.constructor | src/components/Login.tsx:16-21 | the form starts empty, not loading, without error |
| Login.LoginForm.SetEmail | src/components/Login.tsx:170 | the form's new state is AfterEditEmail of the old one |
| Login.LoginForm.SetPassword | src/components/Login.tsx:186 | the form's new state is AfterEditPassword of the old one |
| Login.LoginForm.Submit | src/components/Login.tsx:23-41 | the form's new state is AfterSubmit of the old one; the form invariant is kept |
| Login.LoginForm.Resolve | src/components/Login.tsx:42-50 | the form's new state and the reported login are those of AfterResolve |
| App.ParseView | src/App.tsx:38 | a string is a view exactly when it is one of the six view ids |
| App.TokensAreViewIds | src/components/CommandPalette.tsx:50-71 | every palette command's token is a view id, so palette navigation always names a real view |
| App.FindNav | src/App.tsx:75 | the lookup returns the first navigation entry with that id when there is one, and reports none only when no entry has it |
| App.NavigationCoversViews | src/App.tsx:40-47 | every view has a navigation entry, so the title fallback is never used |
| App.PanelFor | src/App.tsx:89-104 | each panel is shown for exactly its view; the dashboard panel exactly for the dashboard and analytics views |
| App.RenderContent | src/App.tsx:79-105 | the profile shows exactly when an employee is selected, and it is that employee's; the login page is never content |
| App.Render | src/App.tsx:69-71 | the login page shows exactly when no user is logged in |
| App.SelectionOverridesView | src/App.tsx:80-87 | while an employee is selected, the current view does not matter to the screen |
| App.CurrentTitle | src/App.tsx:73-77 | the title is the selected employee's name, otherwise the current view's navigation label |
| App.IsActive | src/App.tsx:146 | a highlighted item never coexists with an open profile; when logged in, the highlighted item's panel is on screen and its label is the title |
| App.Highlighting | src/App.tsx:146 | exactly one navigation item is highlighted (the current view's), and none while a profile is open |
| App.AfterLogin | src/App.tsx:56-59 | logging in sets the user and the flag; the password is ignored; view, selection and palette are kept |
| App.AfterLogout | src/App.tsx:61-66 | logging out returns to the initial state except the palette flag, which is kept |
| App.AfterSelectView | src/App.tsx:150-153 | clicking a navigation item shows that view and clears the selection |
| App.SelectViewIdempotent | src/App.tsx:150-153 | clicking the same item twice is the same as clicking once |
| App.AfterSelectEmployee | src/App.tsx:93 | clicking a row opens that employee's profile and changes nothing else |
| App.AfterBack | src/App.tsx:84 | back clears the selection and changes nothing else |
| App.BackUndoesSelect | src/App.tsx:84 | opening a profile and going back restores the state if no profile was open before |
| App.AfterOpenSearch | src/App.tsx:132 | the search button opens the palette and changes nothing else |
| App.AfterKeyDown | src/App.tsx:274 | while logged in, a key flips the palette exactly when it is the shortcut; nothing else changes |
| App.AfterPaletteSelect | src/App.tsx:274 | choosing a palette command sets the view, closes the palette and keeps the selection (as written) |
| App.PaletteSelectKeepsProfile | src/App.tsx:274 | with a profile open, choosing "payroll" in the palette still renders the profile |
| App.AfterPaletteSelectIntended | src/App.tsx:150-153 | palette navigation that behaves like the sidebar: the chosen view is the screen and the palette is closed |
| App.FreshLogin | src/App.tsx:50-59 | from a fresh form and shell, submit plus the deferred check calls `onLogin` exactly when Attempt succeeds, and the user then sees the dashboard panel |
| App.Shell.constructor | src/App.tsx:50-54 | the shell starts logged out on the dashboard, with no selection and the palette closed |
| App.Shell.HandleLogin | src/App.tsx:56-59 | the shell's new state is AfterLogin of the old one |
| App.Shell.HandleLogout | src/App.tsx:61-66 | the shell's new state is AfterLogout of the old one |
| App.Shell.ClickNav | src/App.tsx:150-153 | the shell's new state is AfterSelectView of the item's view |
| App.Shell.ClickHome | src/App.tsx:216-219 | the shell's new state is AfterSelectView(dashboard) |
| App.Shell.ClickEmployeesCrumb | src/App.tsx:227-230 | the shell's new state is AfterSelectView(employees) |
| App.Shell.SelectEmployee | src/App.tsx:93 | the shell's new state is AfterSelectEmployee of the old one |
| App.Shell.Back | src/App.tsx:84 | the shell's new state is AfterBack of the old one |
| App.Shell.OpenSearch | src/App.tsx:132 | the shell's new state is AfterOpenSearch of the old one |
| App.Shell.KeyDown | src/App.tsx:274 | the shell's new state is AfterKeyDown of the old one |
| App.Shell.PaletteSelect | src/App.tsx:274 | the shell's new state is AfterPaletteSelect of the old one (the wiring as written) |

## Left out

- Rendering, styling, animation and icons as markup are left out. The model states which screen, title, rows, colour family and icon kind are shown.
- `Dashboard.tsx` is not part of this model. The dashboard and analytics panels are the screen value `DashboardPage`.
- The mock data modules are not part of this model. Every view takes its record list as a parameter.
- The average hours on the attendance stat card is left out. It is a floating-point division that gives NaN for an empty list.
- Date parsing and formatting are left out: the attendance caption's `toLocaleDateString`, and the profile's `new Date(joinDate)` and `Date.now()`. Tenure takes both instants as millisecond counts, and the caption takes the already formatted date.
- `EmployeeProfile.Tenure`: computes the exact floor of the integer quotient. It does not model the floating-point rounding of `/` before `Math.floor`.
- `Text.Lower`: lowers ASCII letters only. JavaScript's `toLowerCase` also folds non-ASCII letters.
- The numeric record fields (salary, base salary, bonus, deductions, net salary, leave days, performance score) are unbounded integers, while JavaScript stores them as double-precision numbers. The `reduce` sums are therefore exact: fractional amounts and double rounding are not modelled. `hoursWorked` is a real and only appears in the left-out average.
- `EmployeeProfile.FirstChars`: a string is a sequence of Unicode characters, while JavaScript's `n[0]` takes one UTF-16 code unit. For a name part that starts with a character outside the Basic Multilingual Plane, the source yields half a surrogate pair where the model yields the whole character.
- Registering and removing the `keydown` listener on `document` is left out. The handler is modelled as a function of the key event and is active only while the shell is logged in, where the palette is mounted.
- The 1000 ms timer in the login form is left out. It is the separate step `AfterResolve`, and the form may receive only disabled inputs until that step.
- The show-password and remember-me toggles of the login form are left out. They are display state with no effect on the outcome.
- The dialog's own close gestures (escape, overlay) are left out. They are in the UI library. The wiring of the `OpenChange` events they would raise is modelled.
- The buttons with no handler are left out as actions. Whether the approve/reject and Process buttons appear is modelled (`LeaveManagement.ActionRows`, `Payroll.ProcessRows`); the mailto link and the "New Request" button are not modelled at all.
- The profile's performance-score badge and bar are left out. They display the number with no logic of their own.
- `DashboardStats` is declared as a record but is not derived from anything.

## Findings

| source | as written | input that shows it | evidently intended | confidence | as-written member | corrected member |
|---|---|---|---|---|---|---|
| src/App.tsx:274 | the palette's `onNavigate` is `setCurrentView` alone, so an open employee profile stays selected and keeps hiding the chosen view | logged in, an employee's profile open, choose "payroll" in the palette: the view becomes payroll but the profile is still rendered | palette navigation behaves like the sidebar (App.tsx:150-153): set the view and clear the selected employee, so the chosen panel shows | high; not executed | App.PaletteSelectKeepsProfile | App.AfterPaletteSelectIntended |

`App.Shell.PaletteSelect` keeps the wiring as written, because that is what
the program does. `App.AfterPaletteSelectIntended` is the corrected
transition, and the proved property is stated about it.
