/**
 * The pure part of the store (contexts/AppContext.tsx): the fixed storage
 * key, the default state, how an entry gets its id and date, and the four
 * add operations, each of which yields a new `AppState` with the new entry
 * prepended to one list and the other three lists carried over.
 *
 * `Math.random()` and `new Date()` are not modelled: each add receives a
 * `CallEnv` holding the base-36 text of the random number and the ISO
 * timestamp of the moment of the call.
 */
module StoreOps {
  import opened Types
  import opened Lists

  /** The one key the whole state is stored under. */
  const StorageKey: string := "@mental_assistant_state_v1"

  /** The state before anything is loaded or added: four empty lists. */
  const DefaultState: AppState := AppState([], [], [], [])

  /** What an add reads from the outside world: `Math.random().toString(36)` and `new Date().toISOString()`. */
  datatype CallEnv = CallEnv(random36: string, isoNow: string)

  /** `uid()`: characters 2 to 8 of the base-36 text of a random number (after its leading "0."). */
  function Uid(random36: string): (r: ID)
    ensures |r| == if |random36| <= 2 then 0 else Min(7, |random36| - 2)
    ensures |random36| >= 9 ==> r == random36[2..9]
    ensures forall i :: 0 <= i < |r| ==> 2 + i < |random36| && r[i] == random36[2 + i]
  {
    Slice(random36, 2, 9)
  }

  /** `todayISO()`: the first ten characters of the ISO timestamp, its `YYYY-MM-DD` part. */
  function TodayISO(isoNow: string): (r: string)
    ensures r <= isoNow
    ensures |r| == Min(10, |isoNow|)
  {
    Take(isoNow, 10)
  }

  /**
   * `date ?? todayISO()`: a supplied date is kept whatever it is, the empty
   * string included; only a missing one falls back to today.
   */
  function ResolveDate(date: Option<string>, env: CallEnv): (r: string)
    ensures date.Some? ==> r == date.value
    ensures date.None? ==> r == TodayISO(env.isoNow)
  {
    match date
    case Some(d) => d
    case None => TodayISO(env.isoNow)
  }

  function NewMood(input: MoodInput, env: CallEnv): MoodEntry {
    MoodEntry(Uid(env.random36), ResolveDate(input.date, env), input.mood, input.note)
  }

  function NewJournal(input: JournalInput, env: CallEnv): JournalEntry {
    JournalEntry(Uid(env.random36), ResolveDate(input.date, env), input.text)
  }

  function NewSleep(input: SleepInput, env: CallEnv): SleepEntry {
    SleepEntry(Uid(env.random36), ResolveDate(input.date, env), input.hours, input.quality)
  }

  function NewActivity(input: ActivityInput, env: CallEnv): ActivityEntry {
    ActivityEntry(Uid(env.random36), ResolveDate(input.date, env), input.minutes, input.activityType)
  }

  /** `addMood`: the new entry comes first, the old moods follow untouched, nothing else changes. */
  function AddMood(s: AppState, input: MoodInput, env: CallEnv): (r: AppState)
    ensures |r.moods| == |s.moods| + 1 && r.moods[1..] == s.moods
    ensures r.moods[0].id == Uid(env.random36) && r.moods[0].date == ResolveDate(input.date, env)
    ensures r.moods[0].mood == input.mood && r.moods[0].note == input.note
    ensures r.journals == s.journals && r.sleeps == s.sleeps && r.activities == s.activities
  {
    s.(moods := [NewMood(input, env)] + s.moods)
  }

  /** `addJournal`: the new entry comes first, the old journals follow untouched, nothing else changes. */
  function AddJournal(s: AppState, input: JournalInput, env: CallEnv): (r: AppState)
    ensures |r.journals| == |s.journals| + 1 && r.journals[1..] == s.journals
    ensures r.journals[0].id == Uid(env.random36) && r.journals[0].date == ResolveDate(input.date, env)
    ensures r.journals[0].text == input.text
    ensures r.moods == s.moods && r.sleeps == s.sleeps && r.activities == s.activities
  {
    s.(journals := [NewJournal(input, env)] + s.journals)
  }

  /** `addSleep`: the new entry comes first, the old sleeps follow untouched, nothing else changes. */
  function AddSleep(s: AppState, input: SleepInput, env: CallEnv): (r: AppState)
    ensures |r.sleeps| == |s.sleeps| + 1 && r.sleeps[1..] == s.sleeps
    ensures r.sleeps[0].id == Uid(env.random36) && r.sleeps[0].date == ResolveDate(input.date, env)
    ensures r.sleeps[0].hours == input.hours && r.sleeps[0].quality == input.quality
    ensures r.moods == s.moods && r.journals == s.journals && r.activities == s.activities
  {
    s.(sleeps := [NewSleep(input, env)] + s.sleeps)
  }

  /** `addActivity`: the new entry comes first, the old activities follow untouched, nothing else changes. */
  function AddActivity(s: AppState, input: ActivityInput, env: CallEnv): (r: AppState)
    ensures |r.activities| == |s.activities| + 1 && r.activities[1..] == s.activities
    ensures r.activities[0].id == Uid(env.random36) && r.activities[0].date == ResolveDate(input.date, env)
    ensures r.activities[0].minutes == input.minutes && r.activities[0].activityType == input.activityType
    ensures r.moods == s.moods && r.journals == s.journals && r.sleeps == s.sleeps
  {
    s.(activities := [NewActivity(input, env)] + s.activities)
  }

  // ---------------------------------------------------------------------
  // Runs of adds

  /** One call of any of the four add operations. */
  datatype Call =
    | MoodCall(mood: MoodInput)
    | JournalCall(journal: JournalInput)
    | SleepCall(sleep: SleepInput)
    | ActivityCall(activity: ActivityInput)

  function Add(s: AppState, c: Call, env: CallEnv): AppState {
    match c
    case MoodCall(i) => AddMood(s, i, env)
    case JournalCall(i) => AddJournal(s, i, env)
    case SleepCall(i) => AddSleep(s, i, env)
    case ActivityCall(i) => AddActivity(s, i, env)
  }

  /** The state after the calls, in order, each with its own environment. */
  function AddAll(s: AppState, calls: seq<Call>, envs: seq<CallEnv>): AppState
    requires |calls| == |envs|
    decreases |calls|
  {
    if calls == [] then s else AddAll(Add(s, calls[0], envs[0]), calls[1..], envs[1..])
  }

  /** The mood entries the calls create, in call order. */
  function MoodsCreated(calls: seq<Call>, envs: seq<CallEnv>): seq<MoodEntry>
    requires |calls| == |envs|
    decreases |calls|
  {
    if calls == [] then []
    else (if calls[0].MoodCall? then [NewMood(calls[0].mood, envs[0])] else [])
         + MoodsCreated(calls[1..], envs[1..])
  }

  function JournalsCreated(calls: seq<Call>, envs: seq<CallEnv>): seq<JournalEntry>
    requires |calls| == |envs|
    decreases |calls|
  {
    if calls == [] then []
    else (if calls[0].JournalCall? then [NewJournal(calls[0].journal, envs[0])] else [])
         + JournalsCreated(calls[1..], envs[1..])
  }

  function SleepsCreated(calls: seq<Call>, envs: seq<CallEnv>): seq<SleepEntry>
    requires |calls| == |envs|
    decreases |calls|
  {
    if calls == [] then []
    else (if calls[0].SleepCall? then [NewSleep(calls[0].sleep, envs[0])] else [])
         + SleepsCreated(calls[1..], envs[1..])
  }

  function ActivitiesCreated(calls: seq<Call>, envs: seq<CallEnv>): seq<ActivityEntry>
    requires |calls| == |envs|
    decreases |calls|
  {
    if calls == [] then []
    else (if calls[0].ActivityCall? then [NewActivity(calls[0].activity, envs[0])] else [])
         + ActivitiesCreated(calls[1..], envs[1..])
  }

  /**
   * After any run of adds, interleaved across the four kinds and with any
   * dates, each list holds the entries created for it newest first, ahead
   * of every entry it held before. One lemma per list.
   */
  lemma {:induction false} MoodsAfterAdds(s: AppState, calls: seq<Call>, envs: seq<CallEnv>)
    requires |calls| == |envs|
    ensures AddAll(s, calls, envs).moods == Reverse(MoodsCreated(calls, envs)) + s.moods
    decreases |calls|
  {
    if calls != [] {
      MoodsAfterAdds(Add(s, calls[0], envs[0]), calls[1..], envs[1..]);
      PrependAfterReverse(MoodsCreated(calls[1..], envs[1..]),
        if calls[0].MoodCall? then [NewMood(calls[0].mood, envs[0])] else [], s.moods);
    }
  }

  lemma {:induction false} JournalsAfterAdds(s: AppState, calls: seq<Call>, envs: seq<CallEnv>)
    requires |calls| == |envs|
    ensures AddAll(s, calls, envs).journals == Reverse(JournalsCreated(calls, envs)) + s.journals
    decreases |calls|
  {
    if calls != [] {
      JournalsAfterAdds(Add(s, calls[0], envs[0]), calls[1..], envs[1..]);
      PrependAfterReverse(JournalsCreated(calls[1..], envs[1..]),
        if calls[0].JournalCall? then [NewJournal(calls[0].journal, envs[0])] else [], s.journals);
    }
  }

  lemma {:induction false} SleepsAfterAdds(s: AppState, calls: seq<Call>, envs: seq<CallEnv>)
    requires |calls| == |envs|
    ensures AddAll(s, calls, envs).sleeps == Reverse(SleepsCreated(calls, envs)) + s.sleeps
    decreases |calls|
  {
    if calls != [] {
      SleepsAfterAdds(Add(s, calls[0], envs[0]), calls[1..], envs[1..]);
      PrependAfterReverse(SleepsCreated(calls[1..], envs[1..]),
        if calls[0].SleepCall? then [NewSleep(calls[0].sleep, envs[0])] else [], s.sleeps);
    }
  }

  lemma {:induction false} ActivitiesAfterAdds(s: AppState, calls: seq<Call>, envs: seq<CallEnv>)
    requires |calls| == |envs|
    ensures AddAll(s, calls, envs).activities == Reverse(ActivitiesCreated(calls, envs)) + s.activities
    decreases |calls|
  {
    if calls != [] {
      ActivitiesAfterAdds(Add(s, calls[0], envs[0]), calls[1..], envs[1..]);
      PrependAfterReverse(ActivitiesCreated(calls[1..], envs[1..]),
        if calls[0].ActivityCall? then [NewActivity(calls[0].activity, envs[0])] else [], s.activities);
    }
  }

  /** One step of the ordering proofs: the newest call's entry, if any, ends up just ahead of the old list. */
  lemma PrependAfterReverse<T>(later: seq<T>, first: seq<T>, earlier: seq<T>)
    requires |first| <= 1
    ensures Reverse(later) + (first + earlier) == Reverse(first + later) + earlier
  {
    if |first| == 1 {
      var l := first + later;
      assert l != [] && l[0] == first[0] && l[1..] == later;
      assert Reverse(l) == Reverse(later) + first;
    } else {
      assert first + later == later;
      assert first + earlier == earlier;
    }
  }

  /**
   * Once n adds have gone to one list, its first n elements (the "recent"
   * views) are exactly the n newest entries, whatever the list held before.
   */
  lemma RecentAreNewest(s: AppState, calls: seq<Call>, envs: seq<CallEnv>, n: nat)
    requires |calls| == |envs|
    ensures n <= |MoodsCreated(calls, envs)| ==>
      Take(AddAll(s, calls, envs).moods, n) == Take(Reverse(MoodsCreated(calls, envs)), n)
    ensures n <= |JournalsCreated(calls, envs)| ==>
      Take(AddAll(s, calls, envs).journals, n) == Take(Reverse(JournalsCreated(calls, envs)), n)
    ensures n <= |SleepsCreated(calls, envs)| ==>
      Take(AddAll(s, calls, envs).sleeps, n) == Take(Reverse(SleepsCreated(calls, envs)), n)
    ensures n <= |ActivitiesCreated(calls, envs)| ==>
      Take(AddAll(s, calls, envs).activities, n) == Take(Reverse(ActivitiesCreated(calls, envs)), n)
  {
    MoodsAfterAdds(s, calls, envs);
    JournalsAfterAdds(s, calls, envs);
    SleepsAfterAdds(s, calls, envs);
    ActivitiesAfterAdds(s, calls, envs);
    if n <= |MoodsCreated(calls, envs)| {
      TakeOfLonger(Reverse(MoodsCreated(calls, envs)), s.moods, n);
    }
    if n <= |JournalsCreated(calls, envs)| {
      TakeOfLonger(Reverse(JournalsCreated(calls, envs)), s.journals, n);
    }
    if n <= |SleepsCreated(calls, envs)| {
      TakeOfLonger(Reverse(SleepsCreated(calls, envs)), s.sleeps, n);
    }
    if n <= |ActivitiesCreated(calls, envs)| {
      TakeOfLonger(Reverse(ActivitiesCreated(calls, envs)), s.activities, n);
    }
  }
}
