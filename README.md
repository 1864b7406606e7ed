# CumbreTrib dashboard core, modelled in Dafny

CumbreTrib is a single-page dashboard for planning the "Cumbre Tributaria
Ecuador" event. `App` holds the application state (tasks, budget lines,
speakers, sponsors, universities, marketing campaigns and metrics, and the
event configuration) and hands each list and its setter to one view. Each
view keeps its own form state and draft records, and writes the list back
on save. A small authentication provider maps organisation and event roles
to permissions. Each view checks a permission before its protected actions.

This project models that core:

- the record types and their closed value domains;
- the seed data;
- the permission check;
- every view's handlers;
- the derived figures: totals, tier counts, progress bars, the budget
  trend, the timeline's phase grouping and ordering, and the calendar's
  day keys.

Each source file becomes one Dafny module:

| module | file |
|---|---|
| `Types` | `src/types.ts` |
| `Constants` | `src/constants.tsx` |
| `Auth` | `src/context/AuthContext.tsx` |
| `Store`, `Dashboard` | `src/App.tsx` (state, and derived dashboard figures) |
| `Planning`, `Timeline`, `Calendar`, `Budget`, `Speakers`, `Sponsors`, `Alliances`, `Marketing`, `Settings`, `Team`, `Strategy`, `TaskModal` | the views in `src/components/` |

Two helper modules hold the run-time behaviour the code relies on:

- `JsRuntime`: truthiness of `||`, `String(n)`, `padStart`, `parseInt`, `split`, string order, `toLowerCase`, `includes`, division that may give NaN or an infinity, `Math.round`, `Math.min`.
- `Collections`: filter, sum, `Math.max(0, ...ids) + 1`, delete by id, update by id, grouping into a dictionary, sorting with a comparator.

How the model is built:

- The application state is one class, `Store.AppState`.
- Each view is a class that holds the `AppState`. Its methods replace the list they own and the draft fields of the view.
- A permission a view reads once (`hasPermission('manage:finances')`) is a constant field, set by the constructor from the provider.
- A confirmation dialog is a `confirmed: bool` parameter.
- The clock (`Date.now()`, today's date) and `Math.random()` are parameters.
- Subtasks are objects, because the task modal writes into them in place.

The code differs from its evident intent in three places. The model follows the code in each:

- An undated task is in the 'Sin Fecha' phase, but that phase is not always listed last. An unparsable date gives the phase "undefined NaN", which sorts after it (`Timeline.NoDateIsLastUnlessInvalid`).
- The dashboard's budget trend divides by the total budget without a guard. A total of 0 gives NaN or an infinity, not 0% (`Dashboard.BudgetTrend`).
- Saving an edited campaign checks only the id, so a campaign can be saved with an empty phase (`Marketing.EditCanBlankPhase`).

## Model

| member | source | states |
|---|---|---|
| Types.StatusName | src/types.ts:15 | each task status has one of the three wire names 'pending', 'in-progress', 'done' |
| Types.StatusNameInjective | src/types.ts:15 | two statuses have the same name exactly when they are the same status, so the status filter's string comparison compares statuses |
| Types.Subtask.constructor | src/components/TaskModal.tsx:250 | a subtask object starts with the given id, title and completion flag |
| Types.TaskDraftOf | src/components/PlanningView.tsx:32 | `{ ...task }` as a draft carries every editable key of the task |
| Types.MergeTask | src/components/PlanningView.tsx:37 | `{ ...t, ...draft }` on a task; `Types.MergeTaskFields` gives every field of the result |
| Types.MergeTaskFields | src/components/PlanningView.tsx:37 | `{ ...t, ...draft }` keeps the id and the modal-only fields and takes each editable field from the draft exactly when the draft carries it |
| Types.MergeTaskDraftOf | src/components/PlanningView.tsx:37 | saving an untouched copy of a task gives back the task |
| Types.MergeEmptyTaskDraft | src/components/PlanningView.tsx:37 | merging the empty draft changes nothing |
| Types.MergeBudgetDraftOf | src/components/BudgetView.tsx:37 | saving an untouched copy of a budget line gives back the line |
| Types.MergeSpeakerDraftOf | src/components/SpeakersView.tsx:26-32 | saving an untouched copy of a speaker gives back the speaker |
| Types.MergeSponsorDraftOf | src/components/SponsorsView.tsx:32-38 | saving an untouched copy of a sponsor gives back the sponsor |
| Types.MergeUniversityDraftOf | src/components/AlliancesView.tsx:40-46 | saving an untouched copy of a university gives back the university |
| Types.MergeCampaignDraftOf | src/components/MarketingView.tsx:62-68 | saving an untouched copy of a campaign gives back the campaign |
| Types.MergeMetricDraftOf | src/components/MarketingView.tsx:116-122 | saving an untouched copy of a metric gives back the metric |
| Types.TierTargets.Set | src/components/SponsorsView.tsx:242 | `{ ...targets, [level]: v }` sets that tier's target to v and keeps the other three |
| Types.TierTargetsExtensional | src/types.ts:70-75 | two tier-target records that agree on every tier are equal |
| Constants.InitialTaskIds | src/constants.tsx:39-80 | there are 21 seed tasks, numbered 1 to 21 in order |
| Constants.InitialTasksNextId | src/constants.tsx:39-80 | the seed task ids are distinct and the first added task gets id 22 |
| Constants.InitialTasksDated | src/constants.tsx:39-80 | every seed task has a date |
| Constants.BudgetItemTotals | src/constants.tsx:82-93 | the seed budget allocates 160000 and has spent 7000 |
| Constants.SeedIds | src/constants.tsx:95-105 | the three seed speakers and three seed sponsors are numbered 1 to 3, so their ids are distinct |
| Auth.FindFirst | src/context/AuthContext.tsx:48 | `members.find(m => m.userId === id)` finds nothing exactly when no entry belongs to the user, and otherwise an entry of the user |
| Auth.FindFirstIsFirst | src/context/AuthContext.tsx:56 | the entry found is the one at the user's first position in the list |
| Auth.FirstIsUnique | src/context/AuthContext.tsx:56 | the first position of a user is unique |
| Auth.Permits | src/context/AuthContext.tsx:43-63 | with no user, or with neither an organisation id nor an event id, no permission is granted |
| Auth.OrgGrantsIff | src/context/AuthContext.tsx:47-52 | the organisation path grants p exactly when the named organisation is the current one and the user's first membership there has a role whose table lists p |
| Auth.EventGrantsIff | src/context/AuthContext.tsx:55-60 | the event path grants p exactly when the named event is the current one and the user's first membership there has a role whose table lists p |
| Auth.RoleTableShape | src/context/AuthContext.tsx:17-27 | MEMBER and VIEWER grant nothing; OWNER and ADMIN grant the same |
| Auth.CoordinatorBelowDirector | src/context/AuthContext.tsx:23-27 | a coordinator's permissions are a subset of a director's; team, finance, configuration and task deletion are the director's alone |
| Auth.OrgPathGrantsOnlyOrgPermissions | src/context/AuthContext.tsx:47-52 | a check without an event id can grant only `manage:org` or `create:event` |
| Auth.ViewerIsRefused | src/context/AuthContext.tsx:55-62 | a user whose first event membership is VIEWER is refused every permission on the event path |
| Auth.FirstMembershipDecides | src/context/AuthContext.tsx:56-57 | when the user has several entries in the event team, the first one decides: a later entry never overrides it |
| Auth.AuthProvider.constructor | src/context/AuthContext.tsx:36-38 | the provider starts signed in as the first mock user, with no organisation and no event |
| Auth.AuthProvider.Login | src/context/AuthContext.tsx:40 | login sets the current user and nothing else |
| Auth.AuthProvider.Logout | src/context/AuthContext.tsx:41 | after logout there is no user and every check is refused |
| Auth.AuthProvider.SetCurrentOrg | src/context/AuthContext.tsx:37 | sets the current organisation and nothing else |
| Auth.AuthProvider.SetCurrentEvent | src/context/AuthContext.tsx:38 | sets the current event and nothing else |
| Auth.AuthProvider.HasPermission | src/context/AuthContext.tsx:43-63 | `hasPermission` on the provider's current user; `Auth.OrgGrantsIff` and `Auth.EventGrantsIff` give exactly when it grants, and `Auth.AuthProvider.UnscopedCheckRefused` that it refuses every unscoped call |
| Auth.AuthProvider.UnscopedCheckRefused | src/context/AuthContext.tsx:43-63 | `hasPermission(p)` with no organisation id and no event id, the call every view makes, is refused in every state of the provider |
| Store.NextStatus | src/App.tsx:154 | the toggle makes a done task pending and any other task done |
| Store.ToggleById | src/App.tsx:151-159 | the dashboard toggle on the task list; `Store.ToggleByIdEffect` states which tasks change and how |
| Store.ToggleByIdEffect | src/App.tsx:151-159 | the toggle flips done and pending on the tasks with that id and changes no other field and no other task |
| Store.ToggleTwice | src/App.tsx:151-159 | toggling twice restores a done or pending task, but an in-progress task ends up pending |
| Store.EditById | src/components/PlanningView.tsx:37 | the edit-save on the task list; `Store.EditByIdEffect` states which tasks change and how |
| Store.EditByIdEffect | src/components/PlanningView.tsx:37 | an edit-save merges the draft into the tasks with that id only, and keeps ids unique |
| Store.AppState.constructor | src/App.tsx:99-135 | the application starts with the seed tasks, budget, speakers, sponsors, the five universities, three campaigns, three metrics stamped with today, and the initial configuration |
| Store.AppState.HandleTaskToggle | src/App.tsx:151-159 | the dashboard row's toggle replaces the task list by its toggled version |
| Dashboard.SponsorsConfirmed | src/App.tsx:139 | the confirmed-sponsor count is the number of sponsors that are confirmed or paid |
| Dashboard.InNegotiation | src/App.tsx:190 | the filter of the "En negociación" subtext; `Dashboard.NegotiationCount` counts the sponsors that pass it |
| Dashboard.NegotiationCount | src/App.tsx:190 | the count is the number of sponsors in negotiation |
| Dashboard.TierCountsAddUp | src/App.tsx:139 | the four tier counts of the sponsors view add up to the dashboard's confirmed count |
| Dashboard.NegotiatingAreNotSecured | src/App.tsx:189-190 | confirmed and negotiating sponsors are disjoint: the two counts together never exceed the number of sponsors |
| Dashboard.SeedSponsorCounts | src/App.tsx:139 | the seed data has one confirmed sponsor and one in negotiation |
| Dashboard.BudgetTrend | src/App.tsx:179 | with a non-zero total budget the trend is a whole number within a half of spent/total*100; with a zero total it is NaN or an infinity |
| Dashboard.SeedTrend | src/App.tsx:179 | 7000 spent of 120000 shows as a trend of 6 |
| Dashboard.PreviewsAreFirstFive | src/App.tsx:204 | the task and budget previews are the first five entries, in order, or all of them when there are fewer |
| Budget.TotalAllocated | src/components/BudgetView.tsx:19 | the allocated amounts of all lines, summed; `Budget.DeleteAdjustsTotals`, `Budget.SaveEditAdjustsTotals` and `Budget.SaveAddAdjustsTotals` state how each handler moves it |
| Budget.TotalSpent | src/components/BudgetView.tsx:20 | the spent amounts of all lines, summed; the same three lemmas state how each handler moves it |
| Budget.TotalsDifference | src/components/BudgetView.tsx:19-20 | the total allocated less the total spent is the sum of the lines' balances |
| Budget.Available | src/components/BudgetView.tsx:70 | "Disponible" is what is left on each line, summed |
| Budget.NoLineOverspent | src/components/BudgetView.tsx:70 | when no line has spent more than its allocation, "Disponible" is not negative |
| Budget.AvailableAppend | src/components/BudgetView.tsx:51 | adding a line raises "Disponible" by that line's allocation less its spending |
| Budget.TotalsNonNegative | src/components/BudgetView.tsx:19-20 | non-negative amounts give non-negative totals |
| Budget.SeedTotals | src/components/BudgetView.tsx:19-20 | the seed budget totals are 160000 allocated, 7000 spent and 153000 available |
| Budget.MergeAt | src/components/BudgetView.tsx:37 | an edit-save merges the draft into the line at that position and no other line |
| Budget.DeleteAdjustsTotals | src/components/BudgetView.tsx:25 | deleting line i takes exactly its amounts off both totals |
| Budget.SaveEditAdjustsTotals | src/components/BudgetView.tsx:37 | saving an edit replaces one line's amounts in both totals; an index out of range changes nothing |
| Budget.NewBudgetItem | src/components/BudgetView.tsx:44-50 | an added line takes the draft's category, and its amounts and notes default to 0, 0 and '' |
| Budget.SaveAddAdjustsTotals | src/components/BudgetView.tsx:51 | adding a line adds its amounts to both totals |
| Budget.BudgetView.constructor | src/components/BudgetView.tsx:13-17 | the view's finance permission is the unscoped check, so it is never held |
| Budget.BudgetView.HandleDelete | src/components/BudgetView.tsx:22-27 | with the permission and confirmation the line at that position is removed; otherwise nothing changes |
| Budget.BudgetView.StartEdit | src/components/BudgetView.tsx:29-33 | with the permission the form opens on a copy of the line; otherwise nothing changes |
| Budget.BudgetView.SaveEdit | src/components/BudgetView.tsx:35-41 | with an index and a category the draft is merged into that line and the form closes; otherwise nothing changes; the permission is not re-checked |
| Budget.BudgetView.CancelEdit | src/components/BudgetView.tsx:179 | cancelling closes the row's form |
| Budget.BudgetView.OpenAdd | src/components/BudgetView.tsx:77-79 | with the finance permission the add form opens on an empty line; without it, the button is not rendered and nothing changes |
| Budget.BudgetView.CloseAdd | src/components/BudgetView.tsx:122 | the add form closes |
| Budget.BudgetView.SaveAdd | src/components/BudgetView.tsx:43-55 | from the open add form, with a category one line is appended and the form closes; otherwise nothing changes |
| Planning.Matches | src/components/PlanningView.tsx:73-78 | the three filter conditions of a row; `Planning.MatchesIff` spells out each |
| Planning.MatchesIff | src/components/PlanningView.tsx:73-78 | a row is listed exactly when its category and status pass their selects and the lower-cased search term occurs in the lower-cased title |
| Planning.FilteredTasks | src/components/PlanningView.tsx:73-78 | the listed rows are tasks that match, and every matching task is listed |
| Planning.FilteredTasksAppend | src/components/PlanningView.tsx:73 | the filter keeps list order |
| Planning.NoFilterListsAll | src/components/PlanningView.tsx:16-18 | with both selects on 'all' and an empty search every task is listed |
| Planning.SetStatusById | src/components/PlanningView.tsx:20-21 | the status select on the task list; `Planning.SetStatusByIdEffect` states which tasks change and how |
| Planning.SetStatusByIdEffect | src/components/PlanningView.tsx:20-22 | a status change sets the status of the tasks with that id and changes nothing else |
| Planning.NewPlanningTask | src/components/PlanningView.tsx:58-66 | an added task gets an id above every existing id, the draft's title, and the draft's category, status and priority, which default to 'General', pending and medium; the draft's date is not copied |
| Planning.SaveAddDropsDate | src/components/PlanningView.tsx:58-71 | adding keeps ids unique and loses a date typed into the add form |
| Planning.PlanningView.constructor | src/components/PlanningView.tsx:11-18 | the view starts with no form open and both selects on 'all' |
| Planning.PlanningView.Visible | src/components/PlanningView.tsx:73-78 | the rows on display are the tasks of the list that pass the three filters: each row passes, and each passing task is shown |
| Planning.PlanningView.SetSearchTerm | src/components/PlanningView.tsx:90 | sets the search term |
| Planning.PlanningView.SetFilterCategory | src/components/PlanningView.tsx:95 | sets the category select |
| Planning.PlanningView.SetFilterStatus | src/components/PlanningView.tsx:109 | sets the status select |
| Planning.PlanningView.HandleStatusChange | src/components/PlanningView.tsx:20-22 | the row's status select sets that task's status |
| Planning.PlanningView.HandleDelete | src/components/PlanningView.tsx:24-28 | after confirmation the tasks with that id are removed; otherwise nothing changes |
| Planning.PlanningView.StartEdit | src/components/PlanningView.tsx:30-33 | the row's form opens on a copy of the task |
| Planning.PlanningView.SaveEdit | src/components/PlanningView.tsx:35-41 | with a non-zero id and a title the draft is merged into the task and the form closes; otherwise nothing changes |
| Planning.PlanningView.CancelEdit | src/components/PlanningView.tsx:43-46 | cancelling closes the form and empties the draft |
| Planning.PlanningView.StartAdd | src/components/PlanningView.tsx:48-56 | the add form opens with category 'General', an empty title, pending and medium |
| Planning.PlanningView.CloseAdd | src/components/PlanningView.tsx:181 | the add form closes and keeps its draft |
| Planning.PlanningView.SaveAdd | src/components/PlanningView.tsx:58-71 | with a title one task is appended and the form closes; otherwise nothing changes |
| Timeline.ParseYearMonth | src/components/TimelineView.tsx:18-20 | a date yields a year and a month below 12 exactly when it is a valid YYYY-MM-DD string |
| Timeline.MonthPhase | src/components/TimelineView.tsx:27-28 | a month phase starts with the month's name |
| Timeline.GetPhaseName | src/components/TimelineView.tsx:16-29 | only the empty string is 'Sin Fecha', and no date gives the listed 'Post-Evento' phase |
| Timeline.DigitsRoundTrip | src/components/TimelineView.tsx:28 | a year written without a leading zero is printed back as written |
| Timeline.DigitsValueInjective | src/components/TimelineView.tsx:23 | digit strings of one length with one value are equal |
| Timeline.PhaseOfDate | src/components/TimelineView.tsx:23-28 | a valid date in February or March 2026 is in 'Febrero - Marzo'; any other valid date whose year has no leading zero is in "<month name> <year as written>" |
| Timeline.PhaseOf | src/components/TimelineView.tsx:33 | a task's phase is the phase of its date, or of '' when it has none |
| Timeline.NoDatePhase | src/components/TimelineView.tsx:33 | a task is in 'Sin Fecha' exactly when it has no date or an empty one |
| Timeline.InPhase | src/components/TimelineView.tsx:31-38 | a phase's group has no more tasks than the list; `Timeline.GroupingIsPartition` gives exactly which tasks it holds, in order |
| Timeline.GroupTasks | src/components/TimelineView.tsx:32-39 | the grouping builds a dictionary whose keys are the phases in order of first appearance and whose entry for each phase is that phase's tasks in list order |
| Timeline.GroupingIsPartition | src/components/TimelineView.tsx:32-39 | the phases are distinct, each task is in its own phase's group and in no other, and the groups hold as many tasks as the list |
| Timeline.IndexOf | src/components/TimelineView.tsx:44-45 | `indexOf` gives the first position of x, or -1 exactly when x is absent |
| Timeline.PhaseBefore | src/components/TimelineView.tsx:43-50 | the sort comparator as a strict order; `Timeline.PhaseBeforeCases` and `Timeline.PhaseBeforeStrictTotal` characterise it |
| Timeline.PhaseBeforeCases | src/components/TimelineView.tsx:43-50 | listed phases come first, in list order, and the others follow in string order |
| Timeline.PhaseBeforeStrictTotal | src/components/TimelineView.tsx:43-50 | the comparator is irreflexive, total, asymmetric and transitive on phase names |
| Timeline.PhaseBeforeIsStrictTotal | src/components/TimelineView.tsx:43-50 | the comparator is a strict total order |
| Timeline.SortPhases | src/components/TimelineView.tsx:43-50 | the sorted phase keys; `Timeline.SortedPhaseKeys` states that they are ordered and a permutation of the keys |
| Timeline.SortedPhaseKeys | src/components/TimelineView.tsx:43-50 | the sorted phases are the grouped phases, each once, in comparator order |
| Timeline.MonthPhaseBeforeNoDate | src/components/TimelineView.tsx:49 | every month phase sorts before 'Sin Fecha' in string order |
| Timeline.NoDateIsLastUnlessInvalid | src/components/TimelineView.tsx:42-50 | every phase of a valid date is shown before 'Sin Fecha'; the phase of an unparsable date is shown after it |
| Timeline.NewTimelineTask | src/components/TimelineView.tsx:60-67 | an added task gets an id above every existing id, the draft's title and date, category default 'General', pending and medium |
| Timeline.AddKeepsIdsUnique | src/components/TimelineView.tsx:60-68 | adding keeps task ids unique |
| Timeline.PostEventoSeedPhase | src/constants.tsx:79 | the seed task of category 'Post-Evento' is placed by its date in 'Junio 2026', not in the 'Post-Evento' phase |
| Timeline.TimelineView.constructor | src/components/TimelineView.tsx:11-13 | the view starts with the form closed and an empty draft |
| Timeline.TimelineView.OpenAdd | src/components/TimelineView.tsx:99 | the add button opens the form with category 'General' and leaves the edited id as it was |
| Timeline.TimelineView.SetDraftTitle | src/components/TimelineView.tsx:116 | sets the draft's title |
| Timeline.TimelineView.SetDraftDate | src/components/TimelineView.tsx:126 | sets the draft's date |
| Timeline.TimelineView.SetDraftCategory | src/components/TimelineView.tsx:134 | sets the draft's category |
| Timeline.TimelineView.HandleSaveTask | src/components/TimelineView.tsx:52-73 | without a title and a date nothing happens; when editing, the draft is merged into the task, the edited id is cleared and the form flag is left as it was; otherwise one task is appended and the form closes; the draft is emptied after either save |
| Timeline.TimelineView.StartEdit | src/components/TimelineView.tsx:75-79 | clicking a task opens the form on a copy of it |
| Timeline.TimelineView.CancelEdit | src/components/TimelineView.tsx:81-85 | cancelling closes the form, forgets the edited id and empties the draft |
| Timeline.TimelineView.ToggleDone | src/components/TimelineView.tsx:178-181 | the card's circle toggles done and pending like the dashboard row |
| Calendar.DateKey | src/components/Calendar.tsx:33 | the year field is followed by '-' and, for a year from 0 on, holds no '-', so the key splits into three fields; with a day below 100 the key is six characters longer than the year |
| Calendar.DateKeyRoundTrip | src/components/Calendar.tsx:54 | splitting a day key at '-' and parsing each field gives back the year, the 1-based month and the day |
| Calendar.DateKeyInjective | src/components/Calendar.tsx:54 | different days have different keys |
| Calendar.FourDigitYear | src/components/Calendar.tsx:33 | a year from 1000 to 9999 prints as four digits |
| Calendar.DateKeyIsIsoDate | src/components/Calendar.tsx:33 | a calendar key of a four-digit year is a valid YYYY-MM-DD date for the timeline |
| Calendar.TasksOnDate | src/components/Calendar.tsx:53-56 | a day lists exactly the tasks whose date is its key |
| Calendar.TasksOnDateAppend | src/components/Calendar.tsx:55 | the day buckets keep list order |
| Calendar.DayBucketsDisjoint | src/components/Calendar.tsx:53-56 | two days of one month share no task |
| Calendar.NextMonth | src/components/Calendar.tsx:28-30 | the next-month button moves on exactly one month |
| Calendar.PrevMonth | src/components/Calendar.tsx:24-26 | the previous-month button moves back exactly one month |
| Calendar.NavigationInverse | src/components/Calendar.tsx:24-30 | forward and back undo each other |
| Calendar.PanelTasks | src/components/Calendar.tsx:191 | the panel of a selected day lists exactly the tasks dated that day |
| Calendar.PanelTasksAsWritten | src/components/Calendar.tsx:191 | the panel's list as written; `Calendar.PanelUsesShownMonth` states that it is the day list of the shown month with the selected day number |
| Calendar.PanelUsesShownMonth | src/components/Calendar.tsx:191 | as written, the panel lists the tasks of the selected day number in the month on display |
| Calendar.PanelAgreesInSelectedMonth | src/components/Calendar.tsx:191 | while the selected day's month is on display, the panel as written and as intended agree |
| Calendar.PanelAfterNavigation | src/components/Calendar.tsx:191 | after moving on a month, the panel as written drops the selected day's task and lists the same day of the next month |
| Calendar.SeedPairForPanel | src/constants.tsx:49 | seed tasks 7 and 12 fall on 15 March and 15 April 2026, a pair that shows the panel discrepancy |
| Calendar.NewCalendarTask | src/components/Calendar.tsx:39-46 | an added task gets an id above every existing id, the title, the selected date, 'General', pending and medium |
| Calendar.AddLandsOnItsDay | src/components/Calendar.tsx:37-51 | adding keeps ids unique and appends the new task to its day's list |
| Calendar.CalendarView.constructor | src/components/Calendar.tsx:11-14 | the calendar opens on today's month with nothing selected |
| Calendar.CalendarView.GoPrevMonth | src/components/Calendar.tsx:24-26 | moves the display one month back |
| Calendar.CalendarView.GoNextMonth | src/components/Calendar.tsx:28-30 | moves the display one month on |
| Calendar.CalendarView.HandleDateClick | src/components/Calendar.tsx:32-35 | selects the key of that day of the month on display |
| Calendar.CalendarView.AddOnDay | src/components/Calendar.tsx:106-110 | a day's + button selects the day and opens the add form |
| Calendar.CalendarView.OpenAdd | src/components/Calendar.tsx:213 | the panel's button opens the add form |
| Calendar.CalendarView.ClosePanel | src/components/Calendar.tsx:161-164 | the close button clears the selection and closes the form |
| Calendar.CalendarView.SetTitle | src/components/Calendar.tsx:176 | sets the new task's title |
| Calendar.CalendarView.HandleAddTask | src/components/Calendar.tsx:37-51 | with a title and a selected day one task is appended, the title cleared and the form closed; otherwise nothing changes |
| Speakers.EditSpeaker | src/components/SpeakersView.tsx:26-32 | an edit-save merges the draft into the speakers with that id only, and keeps ids unique |
| Speakers.EditWithOwnCopy | src/components/SpeakersView.tsx:21-32 | saving an untouched edit gives back the list |
| Speakers.NewSpeaker | src/components/SpeakersView.tsx:34-49 | an added speaker gets an id above every existing id, defaults 'Ponente', 'Tema por definir', pending and national, and the fallback image when none is given |
| Speakers.SpeakerIdsStayUnique | src/components/SpeakersView.tsx:15-49 | adding and deleting keep speaker ids unique |
| Speakers.SpeakersView.constructor | src/components/SpeakersView.tsx:10-13 | the view starts with no form open and an empty draft |
| Speakers.SpeakersView.HandleDelete | src/components/SpeakersView.tsx:15-19 | after confirmation the speakers with that id are removed; otherwise nothing changes |
| Speakers.SpeakersView.StartEdit | src/components/SpeakersView.tsx:21-24 | the card's form opens on a copy of the speaker |
| Speakers.SpeakersView.SaveEdit | src/components/SpeakersView.tsx:26-32 | with a non-zero id and a name the draft is merged in and the form closes; otherwise nothing changes |
| Speakers.SpeakersView.CancelEdit | src/components/SpeakersView.tsx:103 | cancelling closes the card's form |
| Speakers.SpeakersView.OpenAdd | src/components/SpeakersView.tsx:177 | the add form opens on an empty draft |
| Speakers.SpeakersView.CloseAdd | src/components/SpeakersView.tsx:172 | the add form closes |
| Speakers.SpeakersView.SaveAdd | src/components/SpeakersView.tsx:34-49 | with a name one speaker is appended and the form closes; otherwise nothing changes |
| Sponsors.EditSponsor | src/components/SponsorsView.tsx:32-38 | an edit-save merges the draft into the sponsors with that id only, and keeps ids unique |
| Sponsors.NewSponsor | src/components/SponsorsView.tsx:40-53 | an added sponsor gets an id above every existing id and defaults Bronce, 0 and prospect |
| Sponsors.SponsorIdsStayUnique | src/components/SponsorsView.tsx:21-53 | adding and deleting keep sponsor ids unique |
| Sponsors.TierCount | src/components/SponsorsView.tsx:229 | a tier's count is the number of its sponsors that are confirmed or paid |
| Sponsors.TierCountAppend | src/components/SponsorsView.tsx:229 | the count of a concatenation is the sum of the counts |
| Sponsors.TierCountZero | src/components/SponsorsView.tsx:229 | a tier's count is 0 exactly when no sponsor of that tier is confirmed or paid |
| Sponsors.TierPercent | src/components/SponsorsView.tsx:231 | with a non-zero target the percentage is count/target*100; with a zero target it is NaN for no sponsors and an infinity otherwise |
| Sponsors.TierBarWidth | src/components/SponsorsView.tsx:251 | the bar width is the percentage capped at 100 |
| Sponsors.BarFullIff | src/components/SponsorsView.tsx:229-251 | with a positive target the bar is full exactly when the count reaches the target; with a zero target it is full with any secured sponsor and NaN without |
| Sponsors.SeedTierCounts | src/constants.tsx:101-105 | the seed data secures one Plata sponsor and no other tier |
| Sponsors.SponsorsView.constructor | src/components/SponsorsView.tsx:14-19 | the view starts with no form open and the target draft a copy of the configured targets |
| Sponsors.SponsorsView.HandleDelete | src/components/SponsorsView.tsx:21-25 | after confirmation the sponsors with that id are removed; otherwise nothing changes |
| Sponsors.SponsorsView.StartEdit | src/components/SponsorsView.tsx:27-30 | the row's form opens on a copy of the sponsor |
| Sponsors.SponsorsView.SaveEdit | src/components/SponsorsView.tsx:32-38 | with a non-zero id and a name the draft is merged in and the form closes; otherwise nothing changes |
| Sponsors.SponsorsView.CancelEdit | src/components/SponsorsView.tsx:170 | cancelling closes the row's form |
| Sponsors.SponsorsView.OpenAdd | src/components/SponsorsView.tsx:61 | the add form opens on an empty draft |
| Sponsors.SponsorsView.CloseAdd | src/components/SponsorsView.tsx:107 | the add form closes |
| Sponsors.SponsorsView.SaveAdd | src/components/SponsorsView.tsx:40-53 | with a name one sponsor is appended and the form closes; otherwise nothing changes |
| Sponsors.SponsorsView.ToggleTargets | src/components/SponsorsView.tsx:212-218 | leaving target editing writes the draft targets into the configuration; entering it copies the configured targets into the draft |
| Sponsors.SponsorsView.SetTierDraft | src/components/SponsorsView.tsx:242 | a tier's input sets that tier's draft target and keeps the others |
| Alliances.TotalStudents | src/components/AlliancesView.tsx:63 | the students of the signed universities, summed; `Alliances.SignEffect` and `Alliances.NoSignedNoStudents` pin down how it moves with signing |
| Alliances.SignedCount | src/components/AlliancesView.tsx:64 | the signed count is the number of universities whose status is signed |
| Alliances.NoSignedNoStudents | src/components/AlliancesView.tsx:63-64 | with no signed university the student total is 0 |
| Alliances.SignedCountAppend | src/components/AlliancesView.tsx:64 | the signed count of a concatenation is the sum of the counts |
| Alliances.SignEffect | src/components/AlliancesView.tsx:63-64 | signing an unsigned university adds its students to the total and one to the signed count |
| Alliances.SeedSummary | src/App.tsx:119-125 | the seed universities give 2 signed and 270 students |
| Alliances.EditUniversity | src/components/AlliancesView.tsx:40-46 | an edit-save merges the draft into the universities with that id only, and keeps ids unique |
| Alliances.NewUniversity | src/components/AlliancesView.tsx:48-61 | an added university gets an id above every existing id and defaults pending, 0 students and '' |
| Alliances.NewAllianceAddsNoStudents | src/components/AlliancesView.tsx:48-64 | a university added without a status changes neither the student total nor the signed count |
| Alliances.UniversityIdsStayUnique | src/components/AlliancesView.tsx:29-61 | adding and deleting keep university ids unique |
| Alliances.AlliancesView.constructor | src/components/AlliancesView.tsx:22-27 | the view starts with no form open and the target draft the configured student target |
| Alliances.AlliancesView.HandleDelete | src/components/AlliancesView.tsx:29-33 | after confirmation the universities with that id are removed; otherwise nothing changes |
| Alliances.AlliancesView.StartEdit | src/components/AlliancesView.tsx:35-38 | the row's form opens on a copy of the university |
| Alliances.AlliancesView.SaveEdit | src/components/AlliancesView.tsx:40-46 | with a non-zero id and a name the draft is merged in and the form closes; otherwise nothing changes |
| Alliances.AlliancesView.CancelEdit | src/components/AlliancesView.tsx:211 | cancelling closes the row's form |
| Alliances.AlliancesView.OpenAdd | src/components/AlliancesView.tsx:113 | the add form opens on an empty draft |
| Alliances.AlliancesView.CloseAdd | src/components/AlliancesView.tsx:154 | the add form closes |
| Alliances.AlliancesView.SaveAdd | src/components/AlliancesView.tsx:48-61 | with a name one university is appended and the form closes; otherwise nothing changes |
| Alliances.AlliancesView.SetTempTarget | src/components/AlliancesView.tsx:84 | sets the draft student target |
| Alliances.AlliancesView.SaveTarget | src/components/AlliancesView.tsx:89 | saving writes the draft into the configuration's student target only and closes the editor |
| Alliances.AlliancesView.OpenTarget | src/components/AlliancesView.tsx:99 | opening the editor copies the configured student target into the draft |
| Marketing.NewCampaign | src/components/MarketingView.tsx:40-54 | an added campaign gets an id above every existing id, the draft's phase, and defaults '', pending, no channels and 0 |
| Marketing.EditCampaign | src/components/MarketingView.tsx:62-68 | an edit-save merges the draft into the campaigns with that id only, and keeps ids unique |
| Marketing.EditCanBlankPhase | src/components/MarketingView.tsx:62-68 | an edit-save can leave a campaign with an empty phase |
| Marketing.ToggledChannels | src/components/MarketingView.tsx:70-77 | the toggled channel is present exactly when it was absent, and every other channel is kept or left out as before |
| Marketing.ToggleTwice | src/components/MarketingView.tsx:70-77 | toggling a channel twice restores the set of channels, and the exact list when the channel was absent |
| Marketing.NewMetric | src/components/MarketingView.tsx:93-108 | an added metric gets an id above every existing id and defaults 0, 0, number and other, stamped with today |
| Marketing.EditMetric | src/components/MarketingView.tsx:116-122 | an edit-save merges the draft into the metrics with that id, stamps them with today, and keeps ids unique |
| Marketing.EditWithOwnCopy | src/components/MarketingView.tsx:110-122 | saving an untouched edit changes only that metric's date |
| Marketing.MetricReached | src/components/MarketingView.tsx:477 | the `(value / target) >= 1` test; `Marketing.ReachedIff` and `Marketing.GreenExactlyWhenFull` give exactly when it holds |
| Marketing.MetricBarWidth | src/components/MarketingView.tsx:479 | the capped percentage width of a metric's bar; `Marketing.GreenExactlyWhenFull` ties a full bar to the green test |
| Marketing.GreenExactlyWhenFull | src/components/MarketingView.tsx:477-479 | a metric's bar is green exactly when it is full |
| Marketing.ReachedIff | src/components/MarketingView.tsx:477 | with a positive target a metric is reached exactly when its value reaches the target |
| Marketing.IdsStayUnique | src/components/MarketingView.tsx:40-129 | adding campaigns or metrics and deleting metrics keep ids unique |
| Marketing.MarketingView.constructor | src/components/MarketingView.tsx:15 | the marketing permission is the unscoped check, so it is never held |
| Marketing.MarketingView.StartAddCampaign | src/components/MarketingView.tsx:28-38 | with the permission the campaign form opens on its default draft; otherwise nothing changes |
| Marketing.MarketingView.SaveAddCampaign | src/components/MarketingView.tsx:40-54 | with a phase one campaign is appended and the form closes; otherwise nothing changes |
| Marketing.MarketingView.CloseAddCampaign | src/components/MarketingView.tsx:174 | the campaign form closes |
| Marketing.MarketingView.StartEditCampaign | src/components/MarketingView.tsx:56-60 | with the permission the card's form opens on a copy of the campaign; otherwise nothing changes |
| Marketing.MarketingView.SaveEditCampaign | src/components/MarketingView.tsx:62-68 | with a non-zero id the draft is merged in, whatever its phase, and the form closes |
| Marketing.MarketingView.CancelEditCampaign | src/components/MarketingView.tsx:227 | cancelling closes the card's form |
| Marketing.MarketingView.ToggleChannel | src/components/MarketingView.tsx:70-77 | in an open campaign form, a channel button toggles that channel in the draft |
| Marketing.MarketingView.StartAddMetric | src/components/MarketingView.tsx:80-91 | with the permission the metric form opens on its default draft; otherwise nothing changes |
| Marketing.MarketingView.SaveAddMetric | src/components/MarketingView.tsx:93-108 | with a name one metric is appended and the form closes; otherwise nothing changes |
| Marketing.MarketingView.CloseAddMetric | src/components/MarketingView.tsx:401 | the metric form closes |
| Marketing.MarketingView.StartEditMetric | src/components/MarketingView.tsx:110-114 | with the permission the card's form opens on a copy of the metric; otherwise nothing changes |
| Marketing.MarketingView.SaveEditMetric | src/components/MarketingView.tsx:116-122 | with a non-zero id and a name the draft is merged in with today's date and the form closes; otherwise nothing changes |
| Marketing.MarketingView.CancelEditMetric | src/components/MarketingView.tsx:438 | cancelling closes the card's form |
| Marketing.MarketingView.DeleteMetric | src/components/MarketingView.tsx:124-129 | with the permission and confirmation the metrics with that id are removed; otherwise nothing changes |
| Settings.SettingsView.constructor | src/components/SettingsView.tsx:13-16 | the draft starts as the configuration, and the configuration permission is never held |
| Settings.SettingsView.HandleSave | src/components/SettingsView.tsx:18-23 | with the permission the draft replaces the whole configuration and the confirmation shows; otherwise nothing changes |
| Settings.SettingsView.ClearSaved | src/components/SettingsView.tsx:22 | the timer hides the confirmation and leaves the configuration as saved |
| Settings.SettingsView.SetEventName | src/components/SettingsView.tsx:48 | sets the draft's event name and nothing else |
| Settings.SettingsView.SetEventDate | src/components/SettingsView.tsx:61 | sets the draft's event date and nothing else |
| Settings.SettingsView.SetTargetAttendees | src/components/SettingsView.tsx:74 | sets the draft's attendee target and nothing else |
| Settings.SettingsView.SetTotalBudget | src/components/SettingsView.tsx:87 | sets the draft's total budget and nothing else |
| Settings.SettingsView.SetSponsorsTarget | src/components/SettingsView.tsx:100 | sets the draft's sponsor target and nothing else |
| Settings.SettingsView.SetUniversityTarget | src/components/SettingsView.tsx:113 | sets the draft's university target and nothing else |
| Settings.SettingsView.SetStudentTarget | src/components/SettingsView.tsx:126 | sets the draft's student target and nothing else |
| Settings.SettingsView.SetTierTarget | src/components/SettingsView.tsx:142-148 | a tier's input sets that tier's draft target and keeps the others |
| Team.DeleteKeepsOthers | src/components/TeamView.tsx:45-49 | deleting a role removes it and keeps the others in order, with ids unique |
| Team.AddFreshKeepsUnique | src/components/TeamView.tsx:37-43 | a role added with an unused clock reading keeps ids unique |
| Team.TeamView.constructor | src/components/TeamView.tsx:16-35 | the view starts with the nine seed roles and the form closed |
| Team.TeamView.OpenAdd | src/components/TeamView.tsx:66 | the add form opens |
| Team.TeamView.CloseAdd | src/components/TeamView.tsx:98 | the add form closes and keeps its draft |
| Team.TeamView.SetRole | src/components/TeamView.tsx:81 | sets the draft's role |
| Team.TeamView.SetDescription | src/components/TeamView.tsx:90 | sets the draft's description |
| Team.TeamView.HandleAddRole | src/components/TeamView.tsx:37-43 | with a role and a description one role is appended with the clock reading as id and the form closes; otherwise nothing changes |
| Team.TeamView.HandleDeleteRole | src/components/TeamView.tsx:45-49 | after confirmation the roles with that id are removed; otherwise nothing changes |
| Strategy.DeleteKeepsOthers | src/components/StrategyView.tsx:82 | deleting an objective removes it and keeps the others in order, with ids unique |
| Strategy.StrategyView.constructor | src/components/StrategyView.tsx:5-20 | the view starts with the four seed objectives and the form closed |
| Strategy.StrategyView.OpenAdd | src/components/StrategyView.tsx:54 | the add form opens |
| Strategy.StrategyView.SetText | src/components/StrategyView.tsx:66 | sets the draft text |
| Strategy.StrategyView.AddObjective | src/components/StrategyView.tsx:22-28 | with text one pending objective is appended with the clock reading as id and the form closes; otherwise nothing changes |
| Strategy.StrategyView.DeleteObjective | src/components/StrategyView.tsx:82 | the trash button removes the objectives with that id, without confirmation |
| TaskModal.AssigneeFromSelect | src/components/TaskModal.tsx:139 | the select clears the assignee exactly on the empty option |
| TaskModal.SelectRoundTrip | src/components/TaskModal.tsx:139-144 | picking a member's option stores that member's id, and the empty option stores none |
| TaskModal.FindName | src/components/TaskModal.tsx:150 | `find` gives no name exactly when no member has the id, and otherwise the name of the first member with it |
| TaskModal.AssigneeLabel | src/components/TaskModal.tsx:150 | a missing or zero id reads "Sin asignar"; any other id reads the first matching member's name |
| TaskModal.AssigneeLabelCases | src/components/TaskModal.tsx:150 | a dangling id shows no name, and a member's id shows the name of the first member with it |
| TaskModal.TaskModalView.constructor | src/components/TaskModal.tsx:19-20 | the draft is the task itself, not in edit mode |
| TaskModal.TaskModalView.StartEditing | src/components/TaskModal.tsx:302-304 | "Editar Tarea" enters edit mode only with the edit permission |
| TaskModal.TaskModalView.HandleSave | src/components/TaskModal.tsx:26-29 | in edit mode, saving hands the whole draft to the page and leaves edit mode |
| TaskModal.TaskModalView.Cancel | src/components/TaskModal.tsx:286-289 | in edit mode, cancelling resets the draft to the task the modal was opened on and leaves edit mode |
| TaskModal.TaskModalView.Close | src/components/TaskModal.tsx:64 | the header's button closes the modal |
| TaskModal.TaskModalView.Delete | src/components/TaskModal.tsx:268-279 | with the delete permission and confirmation the task's id goes to the page and the modal closes; otherwise nothing happens |
| TaskModal.TaskModalView.SetAssignee | src/components/TaskModal.tsx:139 | in edit mode, the only time the input exists, the select sets the draft's assignee and nothing else |
| TaskModal.TaskModalView.SetTitle | src/components/TaskModal.tsx:56 | in edit mode, the only time the input exists, sets the draft's title and nothing else |
| TaskModal.TaskModalView.SetStatus | src/components/TaskModal.tsx:79 | in edit mode, the only time the input exists, sets the draft's status and nothing else |
| TaskModal.TaskModalView.SetPriority | src/components/TaskModal.tsx:98 | in edit mode, the only time the input exists, sets the draft's priority and nothing else |
| TaskModal.TaskModalView.SetDate | src/components/TaskModal.tsx:123 | in edit mode, the only time the input exists, sets the draft's date and nothing else |
| TaskModal.TaskModalView.SetCategory | src/components/TaskModal.tsx:163 | in edit mode, the only time the input exists, sets the draft's category and nothing else |
| TaskModal.TaskModalView.SetDescription | src/components/TaskModal.tsx:183 | in edit mode, the only time the input exists, sets the draft's description and nothing else |
| TaskModal.TaskModalView.ToggleSubtaskAsWritten | src/components/TaskModal.tsx:206-214 | with the checkbox enabled (edit permission or edit mode), as written, checking a subtask also changes the subtask of the task the modal was opened on when the two share it; out of edit mode the draft is saved at once |
| TaskModal.TaskModalView.RetitleSubtaskAsWritten | src/components/TaskModal.tsx:217-224 | in edit mode, as written, retitling a subtask also retitles the shared subtask of the original task |
| TaskModal.TaskModalView.ToggleSubtask | src/components/TaskModal.tsx:206-214 | with the checkbox enabled (edit permission or edit mode), checking a subtask replaces only that entry of the draft by a fresh copy with the new flag, and the original task's subtasks are unchanged; out of edit mode the draft is saved at once |
| TaskModal.TaskModalView.RetitleSubtask | src/components/TaskModal.tsx:217-224 | in edit mode, retitling replaces only that entry of the draft by a fresh copy with the new title, and the original task's subtasks are unchanged |
| TaskModal.TaskModalView.RemoveSubtask | src/components/TaskModal.tsx:234-239 | in edit mode, the trash button removes that entry of the draft and keeps the others in order |
| TaskModal.TaskModalView.AppendSubtask | src/components/TaskModal.tsx:247-251 | in edit mode, "Añadir subtarea" appends one fresh, empty, unchecked subtask with the clock reading as id |
| TaskModal.Open | src/components/TaskModal.tsx:15-20 | the modal's two permissions are unscoped checks, so neither is held |
| TaskModal.RetitleThenCancelAsWritten | src/components/TaskModal.tsx:221-289 | as written, renaming a subtask from "a" to "b" and cancelling leaves "b" |
| TaskModal.RetitleThenCancel | src/components/TaskModal.tsx:221-289 | with the copying handler, renaming and cancelling gives back "a" |
| JsRuntime.NatToString | src/components/Calendar.tsx:33 | `String(n)` is a non-empty string of digits, one digit exactly below ten |
| JsRuntime.NatToStringRoundTrip | src/components/Calendar.tsx:33 | reading back `String(n)` gives n |
| JsRuntime.Pad2 | src/components/Calendar.tsx:33 | `padStart(2, '0')` gives at least two digits, exactly two below 100 |
| JsRuntime.Pad2RoundTrip | src/components/Calendar.tsx:33 | reading back a padded number gives the number |
| JsRuntime.ParseInt | src/components/Calendar.tsx:191 | `parseInt` fails exactly on a string that does not start with a digit |
| JsRuntime.SplitOn | src/components/Calendar.tsx:191 | `split` gives at least one field |
| JsRuntime.SplitHead | src/components/Calendar.tsx:191 | a field without the separator comes off the front whole |
| JsRuntime.StrCompare | src/components/TimelineView.tsx:49 | the comparison is 0 exactly on equal strings and negative exactly when the first string sorts first |
| JsRuntime.StrLessTransitive | src/components/TimelineView.tsx:49 | string order is transitive |
| JsRuntime.StrLessTotal | src/components/TimelineView.tsx:49 | of two different strings one sorts first |
| JsRuntime.ToLower | src/components/PlanningView.tsx:76 | lower-casing keeps the length and lower-cases each character |
| JsRuntime.IncludesIff | src/components/PlanningView.tsx:76 | `includes` finds t in s exactly when t occurs in s at some position |
| JsRuntime.IncludesEmpty | src/components/PlanningView.tsx:76 | the empty search term is found in every title |
| JsRuntime.Divide | src/App.tsx:179 | a non-zero divisor gives the exact ratio; a zero divisor gives an infinity, or NaN for 0 / 0 |
| JsRuntime.Round | src/App.tsx:179 | `Math.round` of a finite value is a whole number within a half of it, and NaN and the infinities are kept |
| JsRuntime.MinWith | src/components/SponsorsView.tsx:251 | `Math.min(n, cap)` never exceeds the cap and is NaN exactly when n is |
| JsRuntime.PercentOf | src/components/SponsorsView.tsx:231 | `(a / b) * 100` is the exact percentage for a non-zero b |
| JsRuntime.CappedPercent | src/components/MarketingView.tsx:479 | a bar's width is the percentage capped at 100; with a zero divisor it is 100 for a positive count and NaN for none |
| JsRuntime.PercentReachesHundred | src/components/MarketingView.tsx:477 | with a positive divisor the percentage reaches 100 exactly when the value reaches the divisor |
| Collections.Filter | src/components/PlanningView.tsx:26 | `filter` keeps exactly the entries that pass, in order |
| Collections.FilterAppend | src/components/PlanningView.tsx:73 | filtering a concatenation concatenates the filtered parts |
| Collections.SumAppend | src/components/BudgetView.tsx:19-20 | the `reduce` sum of a concatenation is the sum of the sums |
| Collections.SumRemoveAt | src/components/BudgetView.tsx:25 | removing an entry takes its value off the sum |
| Collections.SumReplaceAt | src/components/BudgetView.tsx:37 | replacing an entry replaces its value in the sum |
| Collections.MaxKey | src/components/PlanningView.tsx:61 | `Math.max(0, ...ids)` is at least 0, at least every id, and is 0 or one of the ids |
| Collections.NextId | src/components/PlanningView.tsx:61 | the new id is positive and above every existing id |
| Collections.AppendNextKeepsUnique | src/components/PlanningView.tsx:61-67 | appending a record with the next id keeps ids unique |
| Collections.RemoveKey | src/components/PlanningView.tsx:26 | deleting by id keeps exactly the entries with another id |
| Collections.RemoveKeyAt | src/components/PlanningView.tsx:26 | with unique ids, deleting an entry's id removes just that entry |
| Collections.RemoveKeyKeepsUnique | src/components/PlanningView.tsx:26 | deleting keeps ids unique |
| Collections.UpdateKey | src/components/PlanningView.tsx:21 | `map` by id changes exactly the entries with that id |
| Collections.UpdateKeyKeepsUnique | src/components/PlanningView.tsx:37 | an update that keeps ids keeps them unique |
| Collections.RemoveIndex | src/components/BudgetView.tsx:25 | removing by position shifts the later entries down by one |
| Collections.Take | src/App.tsx:204 | `slice(0, n)` is the first n entries, or all of them |
| Collections.GroupBy | src/components/TimelineView.tsx:32-39 | the grouping loop builds the dictionary of groups and its keys in insertion order |
| Collections.GroupsCoverAll | src/components/TimelineView.tsx:32-39 | the groups together hold every entry once |
| Collections.InsertBySorted | src/components/TimelineView.tsx:43 | inserting into a sorted list keeps it sorted and adds exactly the new entry |
| Collections.SortBySpec | src/components/TimelineView.tsx:43 | sorting with a strict total order gives a sorted permutation |

## Left out

- Rendering is not modelled: JSX, CSS classes, colours, icons and animation. A bar's colour is modelled only where it encodes a fact (`Marketing.GreenExactlyWhenFull`).
- The confirmation dialog (`confirm`) is a boolean parameter. `Date.now()`, today's ISO date and `Math.random()` are parameters too.
- React wiring is not modelled: the context that makes `useAuth` throw outside a provider, and the modal's `useEffect` that resets the draft when a new task is passed in. Each modal object is built for one task.
- The dashboard's days-remaining figure is left out, because it reads the system clock and `Date` arithmetic. So are the calendar's grid layout (days in the month, the first weekday, the "Hoy" marker) and the `toLocaleString`/`toLocaleDateString` formatting.
- `NAV_ITEMS`, `INITIAL_STATS`, the strategy view's KPI list and the team view's `criticalPoints` list (`src/components/TeamView.tsx:28`, shown at line 126) are left out. They are display constants that no handler reads or changes.
- The per-field draft inputs of the planning, budget, speakers, sponsors, alliances and marketing forms are left out. Each is `setTemp({ ...temp, field: value })`, and the saves they feed are modelled on arbitrary drafts. The timeline, calendar, settings, team, strategy and task-modal inputs are modelled.
- Amounts, counts and targets are integers. `Number('')` and fractional inputs are not modelled. In the source, an empty numeric input becomes 0 and a non-numeric one becomes NaN.
- `TaskModal.Member`: `src/types.ts` does not declare the `TeamMember` type the modal imports, so a member is modelled with just the id and name the modal reads. Likewise the `Task` interface of `src/types.ts:11-18` does not declare `description`, `assigneeId` or `subtasks`; the model adds them to `Types.Task` as optional fields because the modal reads and writes them, and no other view touches them.
- TaskModal.TaskModalView.SetAssignee: requires the select's value to be empty or a string of digits. The select offers only the empty option and member ids, which the model takes to be non-negative.
- Timeline.GetPhaseName: takes the year and month from the digits of a `YYYY-MM-DD` string. `new Date(s)` reads such a string as UTC midnight and `getMonth` uses local time, so west of UTC the first day of a month falls in the previous month's phase. Time zones are not modelled, and neither is the `Date` parser's handling of other formats, which all count as unparsable. A day that the month does not have is not rejected: "2026-04-31" is placed in the April phase, where `new Date` would roll it over into May. The date input never produces such a string.
- Settings.SettingsView.SetEventName, and the other setters of the settings form through `SetTierTarget`: callable without the `manage:config` permission, although the source renders their inputs only with it (`src/components/SettingsView.tsx:25-35`). They change only the draft, and `HandleSave` checks the permission before the configuration changes.
- JsRuntime.Divide: numbers are exact rationals, not IEEE doubles, and the same holds for JsRuntime.PercentOf, JsRuntime.Round, Dashboard.BudgetTrend and Sponsors.TierPercent. At a .5 boundary a rounded percentage can differ by one: for 17400 spent of 120000, the double `(17400 / 120000) * 100` is 14.499999999999998 and rounds to 14, while the exact 14.5 rounds to 15.
- Settings.SettingsView.ClearSaved: the two-second delay of the timer is not modelled; the callback is a method the caller runs whenever the timer fires.
- JsRuntime.StrCompare: `localeCompare` is stood in for by code-point order. Locale collation is not modelled.
- JsRuntime.StrLess: compares code points, where JavaScript's `<` compares UTF-16 code units. The two orders differ only when a character above U+FFFF meets one in U+E000-U+FFFF (a surrogate pair sorts below the latter in JavaScript and above it here).
- JsRuntime.ToLower: lower-cases ASCII and Latin-1 capitals only. That covers the Spanish text of the data, but not full Unicode case mapping.
- JsRuntime.ParseInt: covers strings that start with digits (no sign, no leading white space), which is all a calendar key holds.
- Calendar.DateKey: the key is written for years from 0 on. A negative year, which `getFullYear` can return, is formatted but not proved to round-trip.

## Findings

| source | as written | input that shows it | evidently intended | confidence | as-written member | corrected member |
|---|---|---|---|---|---|---|
| src/components/Calendar.tsx:191 | the selected-day panel rebuilds the day's key from the month on display and the day number parsed from `selectedDate` | select 15 March 2026 (seed task 7), then press the next-month button: the panel, still titled "Tareas del 2026-03-15", lists seed task 12 of 15 April and not task 7 | the panel lists the tasks whose date is `selectedDate` | not executed; high | Calendar.PanelAfterNavigation | Calendar.PanelTasks |
| src/components/TaskModal.tsx:221-224 | the subtask handlers copy the array (`[...subtasks]`) but then write into the subtask object it shares with the original task | latent in this repository: "Editar Tarea" needs `edit:planning`, which the unscoped permission check never grants, and no file mounts the modal. With a caller that grants it: open a task whose only subtask is "a", press "Editar Tarea", rename the subtask to "b", press "Cancelar": the subtask reads "b", and the task in the caller's list was renamed without a save | edits stay in the draft until "Guardar Cambios" and "Cancelar" discards them | not executed; high | TaskModal.RetitleThenCancelAsWritten | TaskModal.RetitleThenCancel |
