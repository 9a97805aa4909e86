/**
 * The records of the wellness journal (utils/types.ts): four kinds of
 * entry, each with an opaque string id and a calendar-day string, and the
 * aggregate `AppState` of four most-recent-first lists.
 *
 * Optional record fields (`note?`, `quality?`, `type?`) are `Option`s;
 * JavaScript numbers are exact `real`s.
 */
module Types {

  datatype Option<+T> = None | Some(value: T)

  type ID = string

  /** The closed five-value mood scale, worst to best. */
  datatype Mood = Terrible | Bad | Neutral | Good | Great

  datatype MoodEntry = MoodEntry(id: ID, date: string, mood: Mood, note: Option<string>)

  datatype JournalEntry = JournalEntry(id: ID, date: string, text: string)

  datatype SleepEntry = SleepEntry(id: ID, date: string, hours: real, quality: Option<real>)

  /** `activityType` is the record's `type?` field (`type` is a Dafny keyword). */
  datatype ActivityEntry = ActivityEntry(id: ID, date: string, minutes: real, activityType: Option<string>)

  /** The whole store: every list is ordered most recent first. */
  datatype AppState = AppState(
    moods: seq<MoodEntry>,
    journals: seq<JournalEntry>,
    sleeps: seq<SleepEntry>,
    activities: seq<ActivityEntry>)

  /**
   * What a caller hands to an add operation: the entry's own fields without
   * `id` and `date`, plus an optional `date` (None stands for both `null`
   * and `undefined`).
   */
  datatype MoodInput = MoodInput(mood: Mood, note: Option<string>, date: Option<string>)

  datatype JournalInput = JournalInput(text: string, date: Option<string>)

  datatype SleepInput = SleepInput(hours: real, quality: Option<real>, date: Option<string>)

  datatype ActivityInput = ActivityInput(minutes: real, activityType: Option<string>, date: Option<string>)
}
