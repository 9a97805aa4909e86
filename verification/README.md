# Wellness journal store — a Dafny model

This project models the local state store of a mood/sleep/activity/journal
app, plus the few read-side derivations the screens compute from it.

- **Entries and state** (`types.dfy`, module `Types`). There are four entry
  records: mood, journal, sleep and activity. Each has an `id` and a `date`
  string. The mood is one of five values. `note`, `quality` and `type` are
  `Option`s; journal `text`, sleep `hours` and activity `minutes` are
  required. `AppState` holds exactly four lists, each newest first. Numbers
  are exact `real`s.
- **Pure store operations** (`store_ops.dfy`, module `StoreOps`). This
  module has the storage key and the default state. It has `uid()` and
  `todayISO()`, each over an input that stands in for `Math.random()` and
  `new Date()`. It has the `date ?? todayISO()` rule and the four add
  operations, each of which prepends one entry to one list. `AddAll` runs
  any sequence of adds. The ordering lemmas cover that sequence, including
  adds of different kinds in any order.
- **The provider** (`app_context.dfy`, module `AppContext`). The class
  `Provider` holds `state`, `loaded` and the device `storage`. Storage is a
  map from keys to stored values. A stored value is the empty string, text
  that does not parse, or a snapshot of a state. `Load` is the mount
  effect. `SaveState` replaces the in-memory state and then attempts the
  write. `AddMood`, `AddJournal`, `AddSleep` and `AddActivity` call
  `SaveState`. `Exposed` is the `loaded` gate.
- **Emoji** (`emoji.dfy`). This is the total, injective map from moods to
  five faces. The face strings in the source are mis-encoded, and the model
  treats them as five opaque, distinct constants. Four of them read back as
  the UTF-8 bytes of U+1F62B, U+1F615, U+1F642 and U+1F604. The neutral
  face's literal keeps only three of its four bytes (F0 9F 98). U+1F610 is
  therefore chosen from the mood's name, not read off the text.
- **Insights** (`insights.dfy`). These are the two averages. Each is "N/A"
  exactly when its list is empty, and otherwise the exact mean. Lemmas show
  that the mean lies between the smallest and largest value, and that it
  does not depend on entry order.
- **Activity screen** (`activity_tracker.dfy`). This covers:
  - the chart window `slice(-7)`;
  - the `MM/DD` labels (`split('-')`, `slice(1)`, `join('/')`) and the data;
  - when the chart is shown;
  - the recent list `slice(0, 5)`;
  - the displayed type;
  - the save handler, as a class `ActivityForm` over a `Provider`.

Entries and states are values, so a state captured before an add is never
changed by it.

Notes on the program:

- The default date is the UTC day (`toISOString().slice(0, 10)`), not the
  local calendar day.
- `saveState` sets the in-memory state before the write, whatever the
  write's outcome.
- A stored value that parses is adopted without any check of its shape.
- No modelled file computes per-mood counts, so none are modelled.

## Model

| member | source | states |
|---|---|---|
| StoreOps.Uid | contexts/AppContext.tsx:6 | the id is characters 2 to 8 of the random number's base-36 text, clipped to its length: exactly min(7, length - 2) characters, none when the text is 2 characters or shorter |
| StoreOps.TodayISO | contexts/AppContext.tsx:7 | today's date is a prefix of the ISO timestamp, 10 characters long (or the whole string if it is shorter) |
| StoreOps.ResolveDate | contexts/AppContext.tsx:36 | a supplied date, the empty string included, is kept; only a missing date becomes today's |
| StoreOps.AddMood | contexts/AppContext.tsx:35-38 | moods grow by one, with the new entry at index 0 and the old list after it; id, date, mood and note are copied unchecked; the other three lists are identical |
| StoreOps.AddJournal | contexts/AppContext.tsx:40-43 | journals grow by one, with the new entry first and the text copied unchecked; the other lists are identical |
| StoreOps.AddSleep | contexts/AppContext.tsx:45-48 | sleeps grow by one, with the new entry first and hours and quality copied unchecked; the other lists are identical |
| StoreOps.AddActivity | contexts/AppContext.tsx:50-53 | activities grow by one, with the new entry first and minutes and type copied unchecked; the other lists are identical |
| StoreOps.MoodsAfterAdds | contexts/AppContext.tsx:37 | after any sequence of adds, moods are the new mood entries newest first, then the old moods, whatever dates were given |
| StoreOps.JournalsAfterAdds | contexts/AppContext.tsx:42 | likewise for journals |
| StoreOps.SleepsAfterAdds | contexts/AppContext.tsx:47 | likewise for sleeps |
| StoreOps.ActivitiesAfterAdds | contexts/AppContext.tsx:52 | likewise for activities |
| StoreOps.RecentAreNewest | components/MoodTracker.tsx:51 | after n or more adds to a list, its first n elements are the n newest entries; this is what every "recent N" view shows |
| AppContext.LoadedState | contexts/AppContext.tsx:17-28 | start-up adopts the stored state only when the key is present, readable and parses; a missing key, an empty value, a parse failure or a read error gives the default state |
| AppContext.Written | contexts/AppContext.tsx:30-33 | a write puts the whole state under the one fixed key and leaves every other key as it was |
| AppContext.SaveThenLoad | contexts/AppContext.tsx:20-32 | a load after a completed save yields exactly the saved state |
| AppContext.CorruptLoadsAsMissing | contexts/AppContext.tsx:21-23 | an empty or unparsable stored value loads the same as a missing key: the default state |
| AppContext.Provider.Exposed | contexts/AppContext.tsx:60 | consumers see no state while `loaded` is false, and the current state once it is true |
| AppContext.Provider.constructor | contexts/AppContext.tsx:14-15 | mounting starts with the default state and `loaded` false |
| AppContext.Provider.Load | contexts/AppContext.tsx:17-28 | the load sets `loaded` in every case, adopts `LoadedState` and does not write storage; it runs only from not-loaded, so Loading to Ready is the only transition |
| AppContext.Provider.SaveState | contexts/AppContext.tsx:30-33 | the state always becomes `s`; storage gets the whole state under the key only if the write succeeds |
| AppContext.Provider.AddMood | contexts/AppContext.tsx:35-38 | the new state is `StoreOps.AddMood` of the old one, and is saved |
| AppContext.Provider.AddJournal | contexts/AppContext.tsx:40-43 | the new state is `StoreOps.AddJournal` of the old one, and is saved |
| AppContext.Provider.AddSleep | contexts/AppContext.tsx:45-48 | the new state is `StoreOps.AddSleep` of the old one, and is saved |
| AppContext.Provider.AddActivity | contexts/AppContext.tsx:50-53 | the new state is `StoreOps.AddActivity` of the old one, and is saved |
| AppContext.RestartAfterAdd | contexts/AppContext.tsx:17-33 | after a load, an add and a successful write, a new provider mounted on that storage loads exactly the state the first one ended with |
| EmojiForMood.EmojiForMood | utils/emojiForMood.ts:3-11 | defined for all five moods; the result is one of the five faces and reads back as the same mood |
| EmojiForMood.EmojiInjective | utils/emojiForMood.ts:5-9 | two different moods never share a face |
| EmojiForMood.EmojiRangeHasFive | utils/emojiForMood.ts:5-9 | the five faces are pairwise distinct |
| Insights.MeanOf | components/Insights.tsx:10-11 | "N/A" exactly for the empty list; otherwise mean times count equals the total, and division happens only when the length is positive |
| Insights.AvgSleep | components/Insights.tsx:9-12 | "N/A" exactly when there are no sleeps; otherwise mean times count equals the sum of hours over every entry |
| Insights.AvgActivity | components/Insights.tsx:14-17 | "N/A" exactly when there are no activities; otherwise mean times count equals the sum of minutes over every entry |
| Insights.SumBounds | components/Insights.tsx:11 | a total of values between lo and hi lies between count times lo and count times hi |
| Insights.MeanBounds | components/Insights.tsx:11 | a mean of values between lo and hi lies between lo and hi |
| Insights.QuotientBounds | components/Insights.tsx:11 | dividing a total between n·lo and n·hi by a positive count n gives a value between lo and hi |
| Insights.MeanBetweenExtremes | components/Insights.tsx:11 | the mean lies between the minimum and the maximum value |
| Insights.SumPermutation | components/Insights.tsx:11 | the total is the same for any reordering of the values |
| Insights.AveragesWithinExtremes | components/Insights.tsx:9-17 | average sleep lies between the minimum and maximum hours, and average activity between the minimum and maximum minutes |
| Insights.AveragesIgnoreOrder | components/Insights.tsx:9-17 | both averages depend only on the multiset of values, not on entry order |
| ActivityTracker.Split | components/ActivityTracker.tsx:23 | `split` returns at least one part, and no part contains the separator |
| ActivityTracker.JoinSplit | components/ActivityTracker.tsx:23 | splitting on '-' and joining with '/' replaces every '-' with '/' |
| ActivityTracker.SplitJoinRoundTrip | components/ActivityTracker.tsx:23 | joining with the same separator gives back the original string |
| ActivityTracker.DateLabel | components/ActivityTracker.tsx:22-24 | the label is everything after the first '-', with later '-'s turned into '/'; a date with no '-' gives "" |
| ActivityTracker.IsoDateLabel | components/ActivityTracker.tsx:22-24 | `YYYY-MM-DD` is labelled `MM/DD` |
| ActivityTracker.ChartWindow | components/ActivityTracker.tsx:21 | the window is the last min(7, n) activities, a suffix of the list |
| ActivityTracker.ChartLabels | components/ActivityTracker.tsx:22-24 | one label per window entry, in order: label i is the label of entry i's date |
| Insights.Minutes | components/ActivityTracker.tsx:25 | the chart data (and the values averaged): same length as the list, and value i is entry i's minutes |
| ActivityTracker.ShowChart | components/ActivityTracker.tsx:78 | the chart and toggle are shown exactly when there is any activity |
| ActivityTracker.WindowIgnoresNewAdds | components/ActivityTracker.tsx:21 | once there are seven activities, no later add changes the chart window |
| ActivityTracker.WindowIsFirstSevenAdded | components/ActivityTracker.tsx:21 | starting from no activities, the window is the first seven activities ever added |
| ActivityTracker.NewestWindow | components/ActivityTracker.tsx:21 | corrected window: the seven newest activities, oldest first |
| ActivityTracker.NewestWindowAfterAdds | components/ActivityTracker.tsx:21 | after seven or more activity adds, the corrected window is the last seven added, in the order they were added |
| ActivityTracker.RecentActivities | components/ActivityTracker.tsx:129 | the recent list is the first min(5, n) activities |
| ActivityTracker.RecentAreLastFiveAdded | components/ActivityTracker.tsx:129 | after five or more activity adds, the recent list is the last five added, newest first |
| ActivityTracker.DisplayType | components/ActivityTracker.tsx:133 | a missing or empty type shows as "Activity", any other type as itself; the displayed text is never empty |
| ActivityTracker.ActivityForm.constructor | components/ActivityTracker.tsx:17-18 | both inputs start empty |
| ActivityTracker.ActivityForm.Save | components/ActivityTracker.tsx:63-69 | with empty minutes nothing changes; otherwise there is exactly one `addActivity` with the parsed minutes, the type as typed (even if empty) and no date, and then both inputs become "" |

## Left out

- Randomness and the clock: `Math.random()` and `new Date()` are inputs (`CallEnv`). Ids are never checked for uniqueness in the code, so no uniqueness is claimed.
- JSON text: `JSON.stringify` and `JSON.parse` are abstracted into the `Blob` cases. A parsed value of the wrong shape would be adopted as is; that cannot be expressed over typed states.
- AsyncStorage I/O and asynchrony: a read failure is the `readFails` input and a write failure is the `writeOk` input. Writes that land out of order are not modelled. The `console.warn` that the load's `catch` logs is not modelled either.
- React machinery: hooks, context, `useMemo`, rendering and `useApp`'s error outside a provider are not modelled. The add closures read `state` captured at render, so two adds before a re-render can lose one. The model applies adds one after another to the current state.
- Floating point: numbers are exact reals. `Number(...)` is a parameter of `ActivityForm.Save`.
- Insights.AvgSleep: the mean is exact, and the `toFixed(1)` rounding for display is not modelled.
- Insights.AvgActivity: the mean is exact, and the `toFixed(0)` rounding for display is not modelled.
- The chart-type toggle, styles, charts, gradients and animation are not modelled. So are the other screens and components/Header.tsx and components/TabBar.tsx.
- The thin views in components/MoodTracker.tsx, SleepTracker.tsx, Journal.tsx and JournalPreview.tsx take the first N entries of a list. `StoreOps.RecentAreNewest` covers them. Their input guards are not modelled.

## Findings

| source | as written | input that shows it | evidently intended | confidence | as-written member | corrected member |
|---|---|---|---|---|---|---|
| components/ActivityTracker.tsx:21 | the "Last 7 Days" chart takes `slice(-7)` of a newest-first list, so it shows the seven OLDEST activities | any store with 7 activities, then one more add: the chart does not change, and the new entry never appears | the seven most recent activities, oldest first | not executed; the behaviour is proved, that it is unintended is inferred from the title | ActivityTracker.WindowIgnoresNewAdds | ActivityTracker.NewestWindow |
