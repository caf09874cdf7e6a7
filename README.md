# plantmanager: the plant store and its screens, in Dafny

A model of the plant-watering app's persistence module
(`libs/storage.ts`) and of the state rules in the four screens that use it.

- **Store.** The device storage holds, under "@plantmanager:plants", an object
  mapping plant ids to `{data, notificationId}`, and under "@plantmanager:user"
  the user's name.
  - `savePlant` computes the next watering time and a trigger delay. It
    schedules a repeating notification, then merges the new entry into the
    stored object.
  - `loadPlant` lists the records with their `hour` rendered, sorted by
    notification time in whole seconds.
  - `removePlant` cancels an entry's notification, then deletes the entry.
- **Screens.**
  - PlantSelect: environment filter, environment list, paging.
  - PlantSave: reminder-time choice and save.
  - UserIdentification: name input and submit.
  - MyPlants: list loading, spotlight and removal.

Modules, in dependency order:

- `Wrappers`, `Ui`, `Text`: results, screen effects, `trim`.
- `Dates`: date-times as month start, day of month and time of day.
- `Seqs`: `filter`.
- `Recurrence`: next time and trigger seconds.
- `PlantTable`: the stored object, plus the spread merge and `delete`.
- `PlantList`: the load pipeline and its stable sort.
- `Storage`: the storage and notification classes, and the three store operations.
- One module per screen.

Each external call that the store awaits is a method parameter `failAt` naming
the call that rejects. The clock is a parameter `now`, and HTTP responses are
parameters.

Behaviour the model follows from the code:

- `savePlant` stores the record exactly as it was passed. The computed next time only sets the trigger (`nextTime` is a copy).
- Re-saving an id keeps the stored entry, because `oldPlants` is spread last. A fresh notification is still scheduled, and no entry refers to it, so `removePlant` never cancels it (`Storage.SavePlant`'s last ensures).
- The weekly branch writes now's day of the month into the base's month. Across a month end the next time can land in the past (`Recurrence.WeeklyAcrossMonthEndFallsInThePast`).
- `removePlant` on a missing id throws before cancelling anything. This is modelled as a `NotFound` failure that changes nothing.
- `handleFetchMore` starts `fetchPlants` with the page value the handler closed over, one behind the incremented `page`. A fetched page is appended to `filteredPlants` unfiltered.
- `!data` is false for an empty array, so only a missing body keeps PlantSelect loading.
- With an empty store, MyPlants' `loadStorageData` fails at element 0 before setting any state, so the screen keeps loading.

## Model

| member | source | states |
|---|---|---|
| `Dates.SetDateTime` | plantmanager/src/libs/storage.ts:74-80 | `setDate(d)` moves the time by whole days from the current day of the month and keeps the clock time |
| `Dates.FormatHourMinute` | plantmanager/src/libs/storage.ts:181-184 | "HH:mm" is five characters: two digits for the hour, a colon, two digits for the minute |
| `Dates.FormatDeterminesMinuteOfDay` | plantmanager/src/libs/storage.ts:181-184 | two times render alike exactly when they fall in the same minute of the day |
| `Recurrence.IntervalDays` | plantmanager/src/libs/storage.ts:73 | `trunc(7 / times)` is the largest whole number of days d with d·times ≤ 7, between 0 and 7 |
| `Recurrence.IntervalExamples` | plantmanager/src/libs/storage.ts:73 | times 7 gives 1 day, times 1 gives 7, and more than 7 times gives 0 |
| `Recurrence.NextTime` | plantmanager/src/libs/storage.ts:59-81 | weekly: base time moved to now's day of the month plus the interval; otherwise exactly one day after the base; clock time kept |
| `Recurrence.WeeklyLandsOnNowsDayPlusInterval` | plantmanager/src/libs/storage.ts:67-74 | a weekly plant lands in the base's month on now's day plus `7 div times` (+1 for 7 times, +7 for once) |
| `Recurrence.NotWeeklyIsOneDayLater` | plantmanager/src/libs/storage.ts:75-81 | any other `repeat_every` gives base plus one day, whatever `times` is |
| `Recurrence.WeeklySameDayIsBasePlusInterval` | plantmanager/src/libs/storage.ts:67-74 | with the base on today's date, the weekly next time is the base plus the interval, later than the base for at most 7 times |
| `Recurrence.WeeklyAcrossMonthEndFallsInThePast` | plantmanager/src/libs/storage.ts:74 | a base on January 31 saved on February 1 gets a next time of January 2, before both base and now |
| `Recurrence.CeilSeconds` | plantmanager/src/libs/storage.ts:90 | `ceil(x / 1000)` is the least c with x ≤ 1000·c |
| `Recurrence.TriggerSeconds` | plantmanager/src/libs/storage.ts:89-111 | the trigger is at least 60; above 60 it is the rounded absolute difference between now and the next time (up for a past next time, down for a future one) |
| `Recurrence.TriggerIsExactFromSixty` | plantmanager/src/libs/storage.ts:111 | a rounded difference of 60 seconds or more is used unchanged |
| `Recurrence.TriggerIgnoresDirection` | plantmanager/src/libs/storage.ts:89-91 | a next time d whole seconds past and one d seconds ahead give the same trigger |
| `PlantTable.Stored` | plantmanager/src/libs/storage.ts:128-129 | a missing stored value reads as the empty object |
| `PlantTable.Spread` | plantmanager/src/libs/storage.ts:128-147 | keys become old keys plus the id; a new id maps to `{data: plant, notificationId}`; a stored id keeps its old entry; other entries unchanged; the id is listed first |
| `PlantTable.Delete` | plantmanager/src/libs/storage.ts:215 | the id's entry goes; other entries and the order of the other keys stay |
| `PlantTable.SaveTwiceKeepsTheFirst` | plantmanager/src/libs/storage.ts:144-147 | a second save under the same id changes no entry: the first save's entry stays |
| `PlantTable.SaveAddsAtMostOneEntry` | plantmanager/src/libs/storage.ts:130-147 | a save adds one key for a new id and none for a stored one |
| `PlantList.WithHour` | plantmanager/src/libs/storage.ts:179-185 | `hour` becomes the "HH:mm" of `dateTimeNotification`; every other field is copied |
| `PlantList.Records` | plantmanager/src/libs/storage.ts:177-186 | one record per key, in key order, each its entry's data with `hour` rendered |
| `PlantList.SortBySeconds` | plantmanager/src/libs/storage.ts:187-192 | the sort returns a permutation of its input, non-decreasing in whole seconds |
| `PlantList.SortKeepsTies` | plantmanager/src/libs/storage.ts:187-192 | the sort is stable: records in the same second keep their relative order |
| `PlantList.LoadList` | plantmanager/src/libs/storage.ts:177-193 | the loaded list has one record per key, is a permutation of the key-ordered records, and is sorted by second |
| `PlantList.LoadListIsStable` | plantmanager/src/libs/storage.ts:187-192 | records with equal seconds are listed in key order |
| `PlantList.LoadListHasEveryEntry` | plantmanager/src/libs/storage.ts:177-186 | every stored entry's record is listed, with `hour` rendered |
| `PlantList.LoadListHasOnlyEntries` | plantmanager/src/libs/storage.ts:177-186 | every listed record is the rendered record of the entry under its own id |
| `PlantList.EmptyStoreListsNothing` | plantmanager/src/libs/storage.ts:165-166 | a missing stored value lists no plants |
| `PlantList.SavedPlantIsListed` | plantmanager/src/libs/storage.ts:128-148 | after saving under a new id, the plant is listed with only `hour` changed |
| `PlantList.RemovedPlantIsNotListed` | plantmanager/src/libs/storage.ts:214-218 | after removing an id, no listed record has that id |
| `PlantList.FirstIsEarliest` | plantmanager/src/libs/storage.ts:187-192 | the first listed record's second is no later than any stored record's |
| `PlantList.TwoSavesListEarliestFirst` | plantmanager/src/libs/storage.ts:177-192 | two plants saved in either order are listed earliest first |
| `Storage.Notifications.ScheduleNotification` | plantmanager/src/libs/storage.ts:100-114 | scheduling logs the trigger, `repeats` and the plant, and returns a handle never handed out before |
| `Storage.Notifications.CancelNotification` | plantmanager/src/libs/storage.ts:210-212 | cancelling logs the handle |
| `Storage.SavePlant` | plantmanager/src/libs/storage.ts:52-152 | schedules one repeating notification with the trigger for the next time, then stores the spread merge; a rejected call fails the save and stores nothing; re-saving leaves the new handle referenced by no entry |
| `Storage.LoadPlant` | plantmanager/src/libs/storage.ts:159-197 | resolves to the sorted, rendered list of the stored object (empty when nothing is stored), or rejects with the read |
| `Storage.RemovePlant` | plantmanager/src/libs/storage.ts:205-219 | a missing id fails before anything is cancelled; otherwise cancels exactly that entry's handle, then stores the object without the id |
| `PlantSelectScreen.EnvironmentList` | plantmanager/src/pages/PlantSelect.tsx:115-121 | the list is `{key: "all", title: "Todos"}` followed by the fetched environments in order |
| `PlantSelectScreen.PlantsInIsTheEnvironmentsSublist` | plantmanager/src/pages/PlantSelect.tsx:77-80 | the filtered list is an order-preserving sub-list: only plants of the environment, and every one of them as often as it occurs |
| `PlantSelectScreen.Screen.constructor` | plantmanager/src/pages/PlantSelect.tsx:42-48 | starts on "all", loading, page 1, not loading more, with nothing fetched |
| `PlantSelectScreen.Screen.HandleEnviromentSelected` | plantmanager/src/pages/PlantSelect.tsx:56-81 | sets the selected key; "all" shows exactly `plants`; any other key shows the filtered sub-list |
| `PlantSelectScreen.Screen.HandleFetchMore` | plantmanager/src/pages/PlantSelect.tsx:88-102 | a distance below 1 changes nothing; otherwise sets `loadingMore`, increments `page` and fetches the previous page value |
| `PlantSelectScreen.Screen.FetchPlants` | plantmanager/src/pages/PlantSelect.tsx:131-161 | no body only sets `loading`; page > 1 appends the data to both lists; page 1 replaces both; then both flags are cleared |
| `PlantSelectScreen.Screen.FetchEnviroment` | plantmanager/src/pages/PlantSelect.tsx:106-122 | the environments become the prefixed list |
| `PlantSaveScreen.Screen.constructor` | plantmanager/src/pages/PlantSave.tsx:51-59 | the selection starts at now; the picker starts shown only on iOS |
| `PlantSaveScreen.Screen.HandleChangeTime` | plantmanager/src/pages/PlantSave.tsx:76-99 | Android toggles the picker; a past time resets the selection to now and alerts; a later time is selected; no time keeps the selection |
| `PlantSaveScreen.Screen.HandleOpenDateTimePickerForAndroid` | plantmanager/src/pages/PlantSave.tsx:106-108 | toggles the picker |
| `PlantSaveScreen.Screen.ToggleTwice` | plantmanager/src/pages/PlantSave.tsx:106-108 | two presses restore the picker's state |
| `PlantSaveScreen.Screen.RecordToSave` | plantmanager/src/pages/PlantSave.tsx:118-121 | the saved record is the plant with only `dateTimeNotification` replaced by the selection |
| `PlantSaveScreen.Screen.HandleSave` | plantmanager/src/pages/PlantSave.tsx:116-138 | saves that record; shows the confirmation leading to MyPlants only when the save succeeds, and alerts otherwise |
| `Text.Trim` | plantmanager/src/pages/UserIdentification.tsx:101 | `trim` returns the slice between leading and trailing white space; the slice does not start or end with white space, and is empty exactly for all-white-space input |
| `Text.TrimIdempotent` | plantmanager/src/pages/UserIdentification.tsx:101 | trimming twice is trimming once |
| `UserIdentificationScreen.Screen.constructor` | plantmanager/src/pages/UserIdentification.tsx:71-73 | not focused, not filled, no name |
| `UserIdentificationScreen.Screen.HandleInputChange` | plantmanager/src/pages/UserIdentification.tsx:98-102 | the name is the trimmed value; filled means a non-empty raw value, so spaces alone give filled with an empty name |
| `UserIdentificationScreen.Screen.HandleInputBlur` | plantmanager/src/pages/UserIdentification.tsx:81-84 | not focused; filled means a non-empty name |
| `UserIdentificationScreen.Screen.HandleInputFocus` | plantmanager/src/pages/UserIdentification.tsx:87-89 | focused |
| `UserIdentificationScreen.Screen.HandleSubmit` | plantmanager/src/pages/UserIdentification.tsx:51-68 | no or empty name: alert, no write; otherwise the name is stored under the user key and the confirmation leads to PlantSelect, or a rejected write alerts |
| `MyPlantsScreen.WithoutPlantDropsExactlyTheId` | plantmanager/src/pages/MyPlants.tsx:43-45 | the filtered list keeps every other record as often as before, drops all with the id, and keeps the order |
| `MyPlantsScreen.Screen.constructor` | plantmanager/src/pages/MyPlants.tsx:20-22 | empty list, loading, no spotlight |
| `MyPlantsScreen.Screen.LoadStorageData` | plantmanager/src/pages/MyPlants.tsx:66-87 | a non-empty load sets the spotlight from element 0, the list, and clears loading; a rejected or empty load sets nothing |
| `MyPlantsScreen.Screen.HandleRemove` | plantmanager/src/pages/MyPlants.tsx:32-52 | "Não" does nothing; a successful removal filters the id out of the list; a failed one alerts and keeps the list |
| `MyPlantsScreen.SpotlightIsTheEarliestPlant` | plantmanager/src/pages/MyPlants.tsx:67-78 | the spotlight plant is stored and is watered no later, to the second, than any stored plant |

## Left out

- Rendering, styles and presentational components: no state logic.
- Navigation wiring: navigation is the `Ui.Effect` a handler returns. `handlePlantSelect` (PlantSelect.tsx:167-169) only navigates and is not modelled.
- HTTP requests: responses are method parameters.
- JSON encoding: the stored object is kept as a value. A stored value that fails to parse is not modelled.
- Notification content: title, body, sound and priority are not modelled. The trigger, `repeats` and the plant payload are.
- Calendar and time zone:
  - a month's length is not checked against the day of the month (1 to 31);
  - local time has no offset and no daylight-saving shift;
  - the locale text of `formatDistance` is kept as its two instants.
- Clock reads: handleChangeTime's two `new Date()` calls are one instant `now`.
- Key order: JavaScript lists integer-like object keys in ascending order before other keys. The model lists every key in insertion order.
- Concurrency: async interleaving, lost updates between concurrent saves and removes, and React's batching of state updates are not modelled. Each handler is one atomic step.
- Recurrence.NextTime: requires `times >= 1` for a weekly plant. Division by zero or a fractional `times` is not modelled.
- Numbers: JavaScript numbers are unbounded integers here. Millisecond timestamps stay well inside the exact range of doubles.
- PlantSelectScreen.Screen.HandleFetchMore: requires that the list is shown (`!loading`), because only the shown list fires the end-reached event. Appending to a list that was never fetched is therefore not modelled.
