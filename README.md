# Turtl: a Dafny model of the task list, the suggestion service and the calendar scheduler

Turtl is a macOS menu-bar to-do app. The user types a title and picks a
priority, a deadline date and a time-of-day preference (full moon, half moon
or new moon). The app then does four things:

1. It asks a chat-completion service when the task is best done.
2. It turns the answer into a calendar event on the deadline day.
3. It appends the task to its list.
4. It saves the list in the user defaults.

From each task's row the user can check the task off or delete it.

The model is seven files:

- `wrappers.dfy`, module `Wrappers`: an `Option` type.
- `strings.dfy`, module `Strings`: the three `String` operations the app relies on.
  - `contains`, as `Contains`.
  - `lowercased()`, as `Lower`. It is ASCII only.
  - `trimmingCharacters(in: .whitespacesAndNewlines)`, as `Trim`, over the documented whitespace-and-newline set.
- `tasks.dfy`, module `Tasks`:
  - `Task` and `Task.Priority`, with the priority's raw value, emoji, moon and time-of-day label;
  - the two calendar computations used on dates;
  - the list operations behind update (`firstIndex` and then replacing that index) and delete (`removeAll`).
- `scheduling.dfy`, module `Scheduling`: `createCalendarEvent` and `scheduleTaskInCalendar`.
  - The `if … else if` keyword chain becomes an ordered rule table, `Rules`.
  - `ResolveHour` is the start hour it yields.
  - `EventFor` is the event.
  - The method `CreateCalendarEvent` follows the source step by step and is proved to build exactly `EventFor`.
- `turtl_ai.dfy`, module `TurtlAI`: `suggestTime`, with its request, payload and prompts.
  - The data-task callback becomes `Outcome`: nil on a transport error, the trimmed content of the first choice, or otherwise the priority's fallback text.
  - The service is reached in the app as `FrogAI.shared`. The model treats that name and `TurtlAI` as the same service.
- `content_view.dfy`, module `TurtlApp`: the screen as the class `ContentView`.
  - Its fields are the `@State` fields, plus `savedTasks`, which is what the defaults hold under "SavedTasks".
  - Its methods are `addTask` (with its completion handler `OnSuggestion`), update, toggle, delete, `cyclePriority`, `saveTasks` and `loadTasks`.
  - Each method states its whole new state.
- `crosscheck.dfy`, module `Crosscheck`: what the service's three fallback texts become in the scheduler.

Consequences of the code as written that the model proves:

- Any suggestion mentioning "early morning" is decided by the "morning" row first, so it starts at 09:00.
- "18" and "19" are decided by the earlier "8" and "9"; "16" and "17" by "6" and "7".
- The evening row's "7" never decides, since the previous row tests it first.
- `ShadowedKeywordsNeverDecide` proves that the table with all of these keywords removed gives the same result on every input.
- The service's own fallback for low priority, "Evening (6-8 PM) - …", starts at 08:00 rather than 18:00 (`LowDefaultHour`).

Three facts about the code shape the model:

- `TurtlAI.swift` has no time-extraction step: every call of `suggestTime` goes to the network (Turtl/TurtlAI.swift:14-101).
- `removeAll` removes every task with the given id (Turtl/ContentView.swift:255).
- A new task is appended only in the completion handler, with its suggestion already set (Turtl/ContentView.swift:295-301).

## Model

| member | source | states |
|---|---|---|
| Tasks.Priority.RawValue | Turtl/ContentView.swift:87-90 | decoding the raw value gives the priority back |
| Tasks.FromRawValue | Turtl/ContentView.swift:87-90 | `Priority(rawValue:)` succeeds only on "Low", "Medium" or "High"; with `RawValueRoundTrip`, exactly on each priority's raw value |
| Tasks.Priority.Emoji | Turtl/ContentView.swift:92-98 | one emoji per priority; `LabelsDistinct` shows the three differ |
| Tasks.Priority.DisplayEmoji | Turtl/ContentView.swift:100-107 | one moon emoji per priority; `LabelsDistinct` shows the three differ |
| Tasks.Priority.TimeDescription | Turtl/ContentView.swift:109-115 | a capitalised label per priority; `LabelsDistinct` shows the three differ, and `PreferenceHour` ties each to its hour |
| Tasks.RawValueRoundTrip | Turtl/ContentView.swift:87-90 | decoding a text gives a priority exactly when the text is that priority's raw value |
| Tasks.LabelsDistinct | Turtl/ContentView.swift:92-114 | raw value, emoji, moon and time label each tell the three priorities apart |
| Tasks.Priority.Index | Turtl/ContentView.swift:87-90 | each priority sits at its own position of `allCases`, which lists Low, Medium, High in declaration order |
| Tasks.Priority.Next | Turtl/ContentView.swift:317-327 | the next priority is the following case of `allCases`, wrapping from High back to Low, and is never the current one |
| Tasks.NextCycle | Turtl/ContentView.swift:317-327 | three presses of the priority button return to the start, two do not |
| Tasks.NextInjective | Turtl/ContentView.swift:317-327 | two priorities with the same successor are equal |
| Tasks.SettingHour | Turtl/ContentView.swift:365 | same day, the given hour, zero minutes and seconds, a valid time |
| Tasks.AddingHour | Turtl/ContentView.swift:398 | exactly 3600 seconds later, a valid time, rolling over to the next day after 23:00 |
| Tasks.Task.ToggledCompletion | Turtl/ContentView.swift:440-442 | the completion flag is flipped and every other field is kept |
| Tasks.NewTask | Turtl/ContentView.swift:80-85 | a new task carries the given id, title, priority and deadline, is not completed, and has no scheduled time and no suggestion |
| Tasks.FirstIndex | Turtl/ContentView.swift:250 | the index holds the id and no earlier index does; none exactly when no task has the id |
| Tasks.ReplaceFirst | Turtl/ContentView.swift:250-251 | the length is kept, each position keeps its task or holds the update where the id matches, and the update is in the result exactly when its id was in the list; `ReplaceFirstAt` pins the position to the first match |
| Tasks.ReplaceFirstAt | Turtl/ContentView.swift:250-253 | the update puts the task at the first position with its id and changes nothing else |
| Tasks.ReplaceFirstAbsent | Turtl/ContentView.swift:250-253 | an update for an id not in the list leaves the list unchanged |
| Tasks.ReplaceFirstIdempotent | Turtl/ContentView.swift:250-253 | updating twice with the same task equals updating once |
| Tasks.ReplaceFirstKeepsUniqueIds | Turtl/ContentView.swift:250-253 | an update keeps the ids distinct |
| Tasks.RemoveAll | Turtl/ContentView.swift:255 | a task survives exactly when it was in the list and has another id; the list never grows |
| Tasks.RemoveAllConcat | Turtl/ContentView.swift:255 | removal distributes over concatenation, so the survivors keep their order |
| Tasks.RemoveAllSingleton | Turtl/ContentView.swift:255 | a single task is dropped exactly when its id matches |
| Tasks.RemoveAllAbsent | Turtl/ContentView.swift:255 | a list without the id is unchanged |
| Tasks.RemoveAllRemoves | Turtl/ContentView.swift:255 | after a delete no task with the id remains |
| Tasks.RemoveAllIdempotent | Turtl/ContentView.swift:255 | deleting twice equals deleting once |
| Tasks.RemoveAllKeepsUniqueIds | Turtl/ContentView.swift:255 | a delete keeps the ids distinct |
| Tasks.UpdateAfterDeleteIsNoOp | Turtl/ContentView.swift:250-256 | an update for a task already deleted changes nothing |
| Strings.Lower | Turtl/ContentView.swift:362 | same length; no upper-case ASCII letter left; every other character kept; each position lowers to what the input's lowers to, so each character is fixed |
| Strings.LowerIdempotent | Turtl/ContentView.swift:362 | lower-casing twice equals lower-casing once |
| Strings.Contains | Turtl/ContentView.swift:364-372 | an occurrence is never longer than the text; `ContainsShort`, `ContainsTransitive` and `NotContainsAcross` give the facts the keyword lemmas use |
| Strings.Trim | Turtl/TurtlAI.swift:87 | the result is a contiguous part of the input with no surrounding whitespace, and only whitespace is cut on either side |
| Strings.TrimTrimmed | Turtl/TurtlAI.swift:87 | a text with no surrounding whitespace is unchanged by trimming |
| Strings.TrimIdempotent | Turtl/TurtlAI.swift:87 | trimming twice equals trimming once |
| Scheduling.FirstMatch | Turtl/ContentView.swift:364-373 | none exactly when no row fires; otherwise the hour of a row that fires with no earlier row firing |
| Scheduling.PreferenceHour | Turtl/ContentView.swift:376-394 | the fallback hour is 9, 14 or 20, and matches the preference's label: before noon for "Morning", in the afternoon for "Afternoon", from 20:00 on for "Night" |
| Scheduling.ResolveHour | Turtl/ContentView.swift:362-395 | the start hour is always one of 8, 9, 14, 16, 18, 20 |
| Scheduling.FirstMatchUnfolded | Turtl/ContentView.swift:364-374 | the rule table decides exactly as the written `if … else if` chain of `contains` tests |
| Scheduling.EventFor | Turtl/ContentView.swift:351-405 | the title is the marker and the task title; the start is on the deadline day at `ResolveHour` with zero minutes and seconds; the end is 3600 seconds later; one alarm exactly for high priority |
| Scheduling.SuggestedDate | Turtl/ContentView.swift:362-384 | the keyword chain sets the deadline day's hour to the table's hour, or else to the preference hour |
| Scheduling.CreateCalendarEvent | Turtl/ContentView.swift:351-405 | the step-by-step construction builds exactly `EventFor`: title, notes, start, end and alarms |
| Scheduling.ScheduleTaskInCalendar | Turtl/ContentView.swift:329-349 | with the calendar grant exactly that one event is created; without it, none |
| Scheduling.StartOnDeadlineDay | Turtl/ContentView.swift:397-398 | the event starts on the hour of the deadline day, at one of the six hours, and ends one hour later on the same day |
| Scheduling.AlarmOnlyForHighPriority | Turtl/ContentView.swift:401-405 | exactly one alarm, one hour before, for high priority; none otherwise |
| Scheduling.EventText | Turtl/ContentView.swift:354-355 | the title is the turtle marker followed by the task title; the notes start with "Priority: ", name the priority, and end with the suggestion or, without one, the placeholder |
| Scheduling.StartIgnoresTaskPriority | Turtl/ContentView.swift:358-395 | the task's own priority plays no part in the start time |
| Scheduling.NoKeywordFallsBack | Turtl/ContentView.swift:374-383 | a suggestion that fires no row starts where no suggestion at all would, at the preference hour |
| Scheduling.PreferenceHours | Turtl/ContentView.swift:385-394 | without a suggestion: full moon 9, half moon 14, new moon 20 |
| Scheduling.ResolveIgnoresCase | Turtl/ContentView.swift:362 | a suggestion and its lower-cased form start at the same hour |
| Scheduling.MorningKeywordsGiveNine | Turtl/ContentView.swift:364-365 | any suggestion containing "morning", "9" or "10" starts at 09:00 |
| Scheduling.KeywordImplies | Turtl/ContentView.swift:364-372 | a text containing a keyword contains each part of it |
| Scheduling.ShadowingKeywords | Turtl/ContentView.swift:364-372 | "early morning", "18", "19", "16" and "17" each occur only where an earlier-tested shorter keyword does |
| Scheduling.ShadowedKeywordsNeverDecide | Turtl/ContentView.swift:364-373 | removing the keywords that can never decide leaves every outcome unchanged |
| Scheduling.SevenMeansEight | Turtl/ContentView.swift:366-371 | "7" starts at 08:00, never at the evening row's 18:00 |
| Scheduling.SixteenMeansEighteen | Turtl/ContentView.swift:370-373 | "16" starts at 18:00 through the evening row's "6", never at the late row's 16:00 |
| Scheduling.SixteenMeansEvening | Turtl/ContentView.swift:368-373 | any suggestion with "16" that fires none of the first three rows starts at 18:00 |
| Scheduling.SeventeenEighteenMeanEight | Turtl/ContentView.swift:364-373 | any suggestion with "17" or "18" that is not a morning suggestion starts at 08:00 |
| Scheduling.NineteenMeansNine | Turtl/ContentView.swift:364-371 | any suggestion with "19" starts at 09:00 |
| TurtlAI.UserPrompt | Turtl/TurtlAI.swift:42-48 | the user message contains the task text, the priority's raw value and the formatted deadline |
| TurtlAI.PayloadFor | Turtl/TurtlAI.swift:50-60 | the model id, a cap of 150 tokens, the system message first and the user message second |
| TurtlAI.Content | Turtl/TurtlAI.swift:80-84 | content is found exactly when the root is an object, "choices" is a non-empty array of objects, and the first choice's "message" is an object whose "content" is a string |
| TurtlAI.DefaultSuggestion | Turtl/TurtlAI.swift:104-113 | each fallback text is non-empty and has no surrounding whitespace |
| TurtlAI.DefaultsDistinct | Turtl/TurtlAI.swift:104-113 | the three fallback texts differ |
| TurtlAI.Outcome | Turtl/TurtlAI.swift:71-100 | the completion receives nil exactly on a transport error, and otherwise a text with no surrounding whitespace; the branch lemmas below say which text |
| TurtlAI.SuggestTime | Turtl/TurtlAI.swift:14-101 | one POST to the endpoint with that payload, and exactly one call of the completion, with `Outcome` |
| TurtlAI.TransportErrorGivesNil | Turtl/TurtlAI.swift:72-76 | a transport error gives nil, never a fallback text |
| TurtlAI.MalformedGivesDefault | Turtl/TurtlAI.swift:89-100 | no data, unparseable data, or a body without the content path gives the priority's fallback |
| TurtlAI.ContentGivesTrimmed | Turtl/TurtlAI.swift:82-88 | a well-formed answer gives its content, trimmed |
| TurtlAI.OutcomeIsTrimmed | Turtl/TurtlAI.swift:87-99 | whatever the completion receives has no surrounding whitespace, and trimming it again changes nothing |
| TurtlAI.TrimmedContentPassesThrough | Turtl/TurtlAI.swift:87-88 | content without surrounding whitespace reaches the completion unchanged |
| TurtlAI.NonObjectChoiceGivesDefault | Turtl/TurtlAI.swift:82 | a choices array with any non-object element gives the fallback |
| Crosscheck.HighDefaultHour | Turtl/TurtlAI.swift:107 | the high fallback text starts at 09:00 |
| Crosscheck.MediumDefaultHour | Turtl/TurtlAI.swift:109 | the medium fallback text starts at 14:00 |
| Crosscheck.LowDefaultHour | Turtl/TurtlAI.swift:111 | the low fallback text, an evening window, starts at 08:00 because of its "8" |
| TurtlApp.AddedTask | Turtl/ContentView.swift:286-296 | the appended task has the screen's title, priority and deadline, is not completed, has no scheduled time, carries exactly the suggestion the completion handler derives from the service's answer (`Outcome`), so it has one exactly when there was no transport error, and that suggestion is trimmed |
| TurtlApp.ContentView.constructor | Turtl/ContentView.swift:120-127 | the initial state: empty title, medium priority and preference, an empty list, no alert |
| TurtlApp.ContentView.SaveTasks | Turtl/ContentView.swift:417-421 | the defaults hold the current list; nothing else changes |
| TurtlApp.ContentView.LoadTasks | Turtl/ContentView.swift:423-428 | a stored list replaces the list; with none, the list stays; nothing else changes |
| TurtlApp.ContentView.UpdateTask | Turtl/ContentView.swift:250-253 | the list becomes `ReplaceFirst`; it is saved only if the id was found; distinct ids stay distinct |
| TurtlApp.ContentView.ToggleCompletion | Turtl/ContentView.swift:440-442 | the row's task is replaced by its toggled copy, as an update |
| TurtlApp.ContentView.DeleteTask | Turtl/ContentView.swift:255-256 | the list becomes `RemoveAll`, has no task with the id, and is saved; distinct ids stay distinct |
| TurtlApp.ContentView.CyclePriority | Turtl/ContentView.swift:317-327 | the selected priority advances to `Next`; nothing else changes |
| TurtlApp.ContentView.OnSuggestion | Turtl/ContentView.swift:294-313 | the task with its suggestion is scheduled with the current preference, appended and saved; the title is cleared and loading ends; the alert shows the suggestion if there is one |
| TurtlApp.ContentView.AddTask | Turtl/ContentView.swift:281-315 | an empty title changes nothing; otherwise the request, the scheduled event, the appended task, the save, the cleared title and the alert, all in terms of `Outcome` and `EventFor`; a new id keeps the ids distinct |
| TurtlApp.AppendFreshKeepsUniqueIds | Turtl/ContentView.swift:301 | appending a task under a new id keeps the ids distinct |
| TurtlApp.AddThenDeleteRestores | Turtl/ContentView.swift:255 | deleting a task just appended under a new id gives back the earlier list |
| TurtlApp.ToggleTwiceRestores | Turtl/ContentView.swift:440-442 | checking a task off and then on again restores the list, when ids are distinct |
| TurtlApp.SuggestionFollowsService | Turtl/ContentView.swift:286-312 | the new task's suggestion, which the alert reports, is nil after a transport error, the trimmed content of a well-formed reply, and the priority's fallback text otherwise; the alert fields themselves are stated by `AddTask` and `OnSuggestion` |

## Left out

- The SwiftUI views, view modifiers, animations, hover help, the `TaskRow` layout and the focus state `isTaskInputFocused`: presentation only.
- `EKEventStore` itself: the permission request, the default calendar, and `save` with its possible failure. The grant is the parameter `calendarGranted`; the model yields the event the app would save.
- The `print` diagnostics: console output only.
- `UUID()`: the model passes the new id in as `id`. Fresh ids are a hypothesis of the uniqueness clauses.
- `DateFormatter` with the medium date style: the rendered deadline is the parameter `deadlineString`.
- `Calendar.current`, time zones and daylight saving: a date is a day number with hour, minute and second.
- Strings.Lower: lower-cases ASCII letters only, because Unicode case mapping is not modelled. Every keyword of the rule table is ASCII.
- Swift compares strings by grapheme clusters; the model uses Unicode scalar sequences.
- The `?? task.deadline` and `?? eventDate` fallbacks: setting an hour on a day and adding one hour always succeed in the model's calendar.
- The HTTP headers, the API key (`openAIKey` is not part of this model), the `temperature` of 0.3 and `JSONSerialization` of the body.
- URLSession and the network: the callback's arguments are the parameter `response`. Bytes that are not JSON are `Unparseable`.
- JSON numbers are integers. Floating point is not modelled.
- The asynchronous dispatch to the main queue: the completion handler runs as one atomic step, `OnSuggestion`. The interleavings of several requests in flight are not modelled. `UpdateAfterDeleteIsNoOp` covers an update that lands after its task is deleted.
- The JSON encoding of tasks for the defaults: `savedTasks` holds the list itself. Data that fails to decode is the same as no data.
- TurtlAI.SuggestTime: the default arguments `priority = .medium` and `deadline = Date()` are not modelled; the one call site passes both (Turtl/ContentView.swift:293).
- Strings.IsWhitespace: the set is taken from Apple's documented definition of `whitespacesAndNewlines` (general category Zs, tab, U+000A to U+000D, U+0085, U+2028, U+2029). Foundation's own table is not part of this model; if it differs (for example by also holding U+200B), `Trim` differs on those characters.
- TurtlAI.SuggestTime: the completion values are recorded in a sequence rather than called. The source's `completion` closure is modelled by what `AddTask` does with the one value.
