# DailyRoutine: the routine builder and the progress tracker

DailyRoutine is a mobile habit tracker. This project models the two screens that hold its logic, and proves properties of that model.

- **The routine builder** (`Config` module, `config.dfy`) is a sheet of form fields that it edits one event at a time:
  - the theme colour, picked from a fixed seven-entry palette;
  - the times-per-day counter, which never drops below 1;
  - the name and description, capped at 15 and 80 characters by their inputs;
  - the notification switch and the emoji picker.
  
  When the user is done, the sheet emits one record holding those seven fields.
- **The home screen** (`Home` module, `home.dfy`) installs that record as the selected routine. It then tracks:
  - how many times the routine was done, up to its daily target;
  - a list of day numbers shown in a grid of 30 day cubes (`DayList` module, `day_list.dfy`).
  
  When the count reaches the target, the screen marks day 1. Tapping a cube adds its day to the list, or removes every copy of it.
- **The start-date label**, "M - D - YYYY" (`DateFormat` module, `date_format.dfy`), is defined once. Both screens define an identical `formatDate`. The model pairs it with a reader and proves that the label always reads back to the month, day and year.
- **Shared values** (`Routine` module, `routine.dfy`) are the emitted record and the parts of a date the screens read.

Each screen's state is a class: `Home.HomeState` and `Config.ConfigState`. Each event handler is a method on that class. Each method's postcondition gives the new state:
- either as a pure function of the old state (`Home.Press`, `DayList.Toggle`, `Config.Capped`, `Config.DecrementedTimes`),
- or field by field.

The lemmas prove properties of those functions.

What the home screen keeps, and what it does not:
- It tracks one selected routine. There is no collection of routines and no index, so no index can be out of range.
- It computes no percentage of progress.
- The completed days are a list that can hold duplicates. Reaching the target appends day 1 even when day 1 is already there.
- The day marked on reaching the target is always 1, never the current date.

Modelling choices:
- `timesPerDay` is a natural number in the record. The builder keeps it at least 1. Home's invariant `completedTimes <= timesPerDay` therefore holds for any record it is given.
- Each event is atomic. A handler reads the state it updates.
- The moment the builder opens (`new Date()`) is a parameter of its constructor.

## Model

| member | source | states |
|---|---|---|
| `DateFormat.FormatDate` | screens/Config.jsx:29-31 | the label opens with the one-based month and a separator, closes with a separator and the full year, and its length leaves exactly the day's digits between them |
| `DateFormat.FormatDateRoundTrip` | screens/Config.jsx:29-31 | reading the label back gives the one-based month, the day of the month and the full year, for every date including negative fields |
| `DateFormat.FormatDateInjective` | screens/Home.jsx:135-137 | two dates get the same label exactly when they agree on month, day and year |
| `DayList.Includes` | screens/Home.jsx:71 | the front-to-back scan finds the day exactly when the day is in the list |
| `DayList.RemoveAll` | screens/Home.jsx:72 | the filter's result holds no copy of the removed day, only days from the input, and is strictly shorter when the day was there |
| `DayList.Toggle` | screens/Home.jsx:69-76 | toggling a present day leaves no copy of it and shortens the list; toggling an absent day appends it at the end |
| `DayList.RemoveAllContents` | screens/Home.jsx:72 | the filter keeps every other day with its multiplicity and no copy of the removed day |
| `DayList.RemoveAllKeepsOrder` | screens/Home.jsx:72 | the days the filter keeps appear in their original order |
| `DayList.TogglePresent` | screens/Home.jsx:71-72 | toggling a present day removes every copy of it and keeps the other days, their multiplicity and their order |
| `DayList.ToggleAbsent` | screens/Home.jsx:73-74 | toggling an absent day appends it at the end |
| `DayList.ToggleMembership` | screens/Home.jsx:69-76 | a toggle flips the toggled day's membership and leaves every other day's membership alone |
| `DayList.ToggleTwiceAbsent` | screens/Home.jsx:69-76 | toggling an absent day twice gives back the original list |
| `DayList.ToggleTwicePresent` | screens/Home.jsx:69-76 | toggling a present day twice leaves it once, at the end, after the other days |
| `DayList.Days` | screens/Home.jsx:79 | the grid's day list has 30 entries, starts at 1 and goes up by one from each entry to the next |
| `DayList.DaysAreOneToThirty` | screens/Home.jsx:79 | the grid's days are 30 in strictly ascending order, and a number is among them exactly when it is in 1..30 |
| `Home.Press` | screens/Home.jsx:42-53 | a press raises the count by at most one, and either leaves the day list alone or appends day 1 to it |
| `Home.PressEffect` | screens/Home.jsx:42-53 | a press is a no-op with no routine or at the target; otherwise it adds exactly one. Day 1 is appended exactly when the new count equals the target; otherwise the list is unchanged |
| `Home.PressKeepsBound` | screens/Home.jsx:43-45 | a press keeps the count within the routine's target, and at 0 with no routine |
| `Home.PressesFromZero` | screens/Home.jsx:43-49 | from a count of 0, k presses up to the target give count k, with day 1 appended once exactly when k reaches the target |
| `Home.PressesAtTarget` | screens/Home.jsx:43 | at the target, any number of further presses changes nothing |
| `Home.DailyTarget` | screens/Home.jsx:35-53 | after installing a routine with target t, t or more presses give count t and the day list [1] |
| `Home.RenderDayCubeAsWritten` | screens/Home.jsx:56 | as written, a cube that renders shows its own day and is complete exactly when the day is in the list |
| `Home.RenderDayCubeAsWrittenFails` | screens/Home.jsx:56 | as written, rendering a cube throws exactly when its day is marked and no routine is selected |
| `Home.TapCubeWithoutRoutine` | screens/Home.jsx:109-113 | on a fresh screen, tapping a cube before any routine exists makes that cube's next render throw |
| `Home.RenderDayCube` | screens/Home.jsx:55-56 | the corrected cube shows its own day and is complete exactly when the day is in the list; a complete cube takes the routine's colour, or the completed-cube colour when no routine is selected, and an incomplete one the incomplete-cube colour |
| `Home.RenderDayCubeAgrees` | screens/Home.jsx:55-56 | the corrected cube equals the original one, colour included, wherever the original does not throw |
| `Home.Grid` | screens/Home.jsx:92-93 | the grid has 30 cubes in day order, and cube i is complete exactly when day i + 1 is in the list |
| `Home.HomeState.constructor` | screens/Home.jsx:9-13 | the screen starts with no routine, a count of 0, no marked days and the sheet closed |
| `Home.HomeState.IsComplete` | screens/Home.jsx:56 | a cube shows as complete exactly when its day is in the list |
| `Home.HomeState.HandleAddRoutine` | screens/Home.jsx:31-33 | the plus button opens the sheet and changes nothing else |
| `Home.HomeState.HandleDoneConfig` | screens/Home.jsx:35-40 | the record becomes the selected routine, the count is 0, the list is empty and the sheet is closed |
| `Home.HomeState.HandleTimesCompleted` | screens/Home.jsx:42-53 | the new progress is one press applied to the old progress, and the count stays within the target; routine and sheet are unchanged |
| `Home.HomeState.ToggleDayCompletion` | screens/Home.jsx:69-77 | the new list is the toggle of the old one; count, routine and sheet are unchanged |
| `Config.Capped` | screens/Config.jsx:106-122 | an input's changed text is a prefix of what was entered, no longer than the cap, and is all of it when it fits |
| `Config.CappedIdempotent` | screens/Config.jsx:111 | capping twice is capping once, and text within the cap passes intact |
| `Config.DecrementedTimes` | screens/Config.jsx:149 | the minus button's new count is at least 1: one less above 1, and 1 from 1 or below |
| `Config.IncrementedTimes` | screens/Config.jsx:156 | the plus button's new count is larger, and from any count of at least 1 the minus button brings it back |
| `Config.IncrementDecrementInverse` | screens/Config.jsx:147-159 | minus after plus restores any count of at least 1; plus after minus restores it exactly when it was above 1 |
| `Config.PaletteDistinct` | screens/Config.jsx:19 | the palette, kept verbatim including its last entry, has seven distinct entries |
| `Config.BorderWidth` | screens/Config.jsx:135 | a palette button gets the selection border width exactly when its colour is the selected one, and no border otherwise |
| `Config.Highlighted` | screens/Config.jsx:130-135 | the bordered buttons are exactly the palette positions holding the selected colour, and none when the colour is not in the palette |
| `Config.SelectionHighlightsOne` | screens/Config.jsx:130-137 | after palette entry i is chosen, button i and no other shows the selection border |
| `Config.EmojiShown` | screens/Config.jsx:101 | the emoji label is never empty, and is the picked emoji if one was picked and is not empty |
| `Config.Reminder` | screens/Config.jsx:21-27 | with the switch on, the sheet asks for a daily reminder at the start date's hour and minute; with it off, it asks to cancel all |
| `Config.ConfigState.CurrentReminder` | screens/Config.jsx:21-27 | the sheet asks for a daily reminder exactly when the switch is on, at the selected date's hour and minute |
| `Config.ConfigState.constructor` | screens/Config.jsx:9-17 | the sheet opens with colour orange, count 1, the opening moment as date, notifications off, no emoji, pickers closed, empty name and description |
| `Config.ConfigState.DecrementTimesPerDay` | screens/Config.jsx:149 | the count becomes max(count - 1, 1) and nothing else changes |
| `Config.ConfigState.IncrementTimesPerDay` | screens/Config.jsx:156 | the count grows by exactly one and nothing else changes |
| `Config.ConfigState.SetRoutineName` | screens/Config.jsx:110-112 | the stored name is the entered text, capped at 15 characters |
| `Config.ConfigState.SetRoutineDescription` | screens/Config.jsx:117-120 | the stored description is the entered text, capped at 80 characters |
| `Config.ConfigState.SelectColor` | screens/Config.jsx:137 | the selected colour becomes the tapped palette entry |
| `Config.ConfigState.ToggleNotifications` | screens/Config.jsx:56-58 | the notification switch is negated and nothing else changes |
| `Config.ConfigState.HandleEmojiSelection` | screens/Config.jsx:60-63 | the picked emoji is stored and the picker is closed |
| `Config.ConfigState.ToggleEmojiPicker` | screens/Config.jsx:65-67 | the picker's visibility is negated and nothing else changes |
| `Config.ConfigState.CloseEmojiPicker` | screens/Config.jsx:203 | the picker's close button hides the picker |
| `Config.ConfigState.ToggleDatePicker` | screens/Config.jsx:69-71 | the date picker's visibility is negated and nothing else changes |
| `Config.ConfigState.HandleDone` | screens/Config.jsx:73-84 | the record's seven fields equal the sheet's fields, untransformed. The record has a count of at least 1, a capped name and description, and a palette colour |
| `Config.ToggleTwiceRestores` | screens/Config.jsx:56-67 | two flips of the notification switch and two of the emoji picker leave the sheet exactly as it was |

`Config.ConfigState.Valid` is the builder's invariant. It is preserved by every handler:
- the count is at least 1;
- the name and description are within their caps;
- the colour is a palette entry.

`Home.HomeState.Valid` is the home screen's invariant. It says the count is within the selected routine's target, and is 0 when no routine is selected.

## Left out

- Notification scheduling, screens/Config.jsx:21-54: it calls the operating system's asynchronous reminder service. `Config.Reminder` models only the request that the effect makes for the current switch and date.
- The date picker and `handleDateChange`, screens/Config.jsx:33-38 and 170-179: they depend on a third-party widget.
  - As written, `handleDateChange` stores the picked date at line 35 and then throws at line 37, because it reads `Platform`, which the file never imports. The picker is therefore never closed by it.
  - The model leaves the picker out, so in the model `selectedDate` is always the opening moment.
- The slide animation, screens/Home.jsx:15-29, the emoji selector's contents, every style sheet and all layout: these are rendering, not logic. Of the cubes' styles, only their background colours are modelled.
- The builder's close button, screens/Config.jsx:90: it only writes to the console.
- React's update batching and stale closures: the model runs each event atomically, in order.
- The routines prop, screens/Home.jsx:8: the code never uses it.
- screens/Header.jsx, screens/Goal.jsx and screens/User.jsx: they are view composition and navigation only.
- `Config.Capped`: any input component with a `maxLength` is assumed to pass at most that many characters, the leading ones, to its change handler. This is the input component's own behaviour, which is not part of this model.
- `Config.Capped`: the model counts Unicode scalar values (a Dafny `char`), while JavaScript string lengths and `maxLength` count UTF-16 code units. A character outside the Basic Multilingual Plane, such as an emoji, is one unit in the model and two in the source, so the model admits a name of 15 emoji that the source's input would stop at 15 code units.
- Number widths: JavaScript numbers are modelled as unbounded integers. The counters never come near the limits of a double.

## Findings

| source | as written | input that shows it | evidently intended | confidence | as-written member | corrected member |
|---|---|---|---|---|---|---|
| screens/Home.jsx:56 | for a day in `completedDays`, `renderDayCube` reads `selectedRoutine.selectedColor` even when `selectedRoutine` is null | a fresh home screen with no routine; tap any day cube (the no-routine branch renders them, lines 110-113); the next render dereferences null and throws | a marked day renders as complete: in the routine's colour when there is one, otherwise in the completed-cube colour | high, not executed | `Home.RenderDayCubeAsWritten` (`Home.RenderDayCubeAsWrittenFails`, `Home.TapCubeWithoutRoutine`) | `Home.RenderDayCube` (`Home.RenderDayCubeAgrees`, `Home.Grid`) |
