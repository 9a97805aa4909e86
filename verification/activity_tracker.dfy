/**
 * The logic of the activity screen (components/ActivityTracker.tsx): the
 * chart window `activities.slice(-7)` with its `MM/DD` labels and minute
 * values, the recent list `activities.slice(0, 5)`, the type shown for an
 * entry, and the save handler that guards, adds and clears the form.
 *
 * Because adds prepend, `slice(-7)` is the OLDEST seven entries, not the
 * newest: `WindowIgnoresNewAdds` shows that once seven activities exist,
 * no later add ever changes the chart.
 */
module ActivityTracker {
  import opened Types
  import opened Lists
  import opened StoreOps
  import AppContext
  import Insights

  // ---------------------------------------------------------------------
  // String splitting and joining

  /** `s.split(sep)` for a one-character separator: never empty, no part holds the separator. */
  function Split(s: string, sep: char): (r: seq<string>)
    ensures |r| >= 1
    ensures forall i :: 0 <= i < |r| ==> sep !in r[i]
    decreases |s|
  {
    if s == [] then [""]
    else
      var rest := Split(s[1..], sep);
      if s[0] == sep then [""] + rest
      else [[s[0]] + rest[0]] + rest[1..]
  }

  /** `parts.join(sep)`. */
  function Join(parts: seq<string>, sep: char): string
    decreases |parts|
  {
    if |parts| == 0 then ""
    else if |parts| == 1 then parts[0]
    else parts[0] + [sep] + Join(parts[1..], sep)
  }

  /** Every `from` character replaced by `to`: the reference meaning of splitting then joining. */
  function Replace(s: string, from: char, to: char): (r: string)
    ensures |r| == |s|
    ensures forall i :: 0 <= i < |s| ==> r[i] == if s[i] == from then to else s[i]
  {
    seq(|s|, i requires 0 <= i < |s| => if s[i] == from then to else s[i])
  }

  lemma JoinPrependChar(c: char, parts: seq<string>, sep: char)
    requires parts != []
    ensures Join([[c] + parts[0]] + parts[1..], sep) == [c] + Join(parts, sep)
  {
    var q := [[c] + parts[0]] + parts[1..];
    assert q[1..] == parts[1..];
  }

  /** Splitting on `sep` and joining with `d` replaces each `sep` by `d`. */
  lemma {:induction false} JoinSplit(s: string, sep: char, d: char)
    ensures Join(Split(s, sep), d) == Replace(s, sep, d)
    decreases |s|
  {
    if s != [] {
      var rest := Split(s[1..], sep);
      JoinSplit(s[1..], sep, d);
      assert Replace(s, sep, d) == [if s[0] == sep then d else s[0]] + Replace(s[1..], sep, d);
      if s[0] == sep {
        var q := [""] + rest;
        assert q[1..] == rest;
      } else {
        JoinPrependChar(s[0], rest, d);
      }
    }
  }

  /** Splitting then joining with the same separator gives the string back. */
  lemma SplitJoinRoundTrip(s: string, sep: char)
    ensures Join(Split(s, sep), sep) == s
  {
    JoinSplit(s, sep, sep);
  }

  lemma {:induction false} SplitWithoutSeparator(s: string, sep: char)
    requires sep !in s
    ensures Split(s, sep) == [s]
    decreases |s|
  {
    if s != [] {
      SplitWithoutSeparator(s[1..], sep);
      assert [s[0]] + s[1..] == s;
    }
  }

  lemma {:induction false} SplitAtFirst(s: string, sep: char, k: nat)
    requires k < |s| && s[k] == sep && sep !in s[..k]
    ensures Split(s, sep) == [s[..k]] + Split(s[k + 1..], sep)
    decreases k
  {
    if k > 0 {
      assert s[0] in s[..k];
      SplitAtFirst(s[1..], sep, k - 1);
      assert [s[0]] + s[1..][..k - 1] == s[..k];
      assert s[1..][k..] == s[k + 1..];
    }
  }

  // ---------------------------------------------------------------------
  // The chart

  /**
   * A chart label, `date.split('-').slice(1).join('/')`: everything after
   * the first '-', with each further '-' turned into '/'; the empty string
   * when the date has no '-'.
   */
  function DateLabel(date: string): (r: string)
    ensures '-' !in date ==> r == ""
    ensures forall k :: 0 <= k < |date| && date[k] == '-' && '-' !in date[..k] ==>
      r == Replace(date[k + 1..], '-', '/')
  {
    var parts := Split(date, '-');
    var joined := Join(parts[1..], '/');
    assert '-' !in date ==> joined == "" by {
      if '-' !in date {
        SplitWithoutSeparator(date, '-');
      }
    }
    assert forall k :: 0 <= k < |date| && date[k] == '-' && '-' !in date[..k] ==>
      joined == Replace(date[k + 1..], '-', '/') by {
      forall k | 0 <= k < |date| && date[k] == '-' && '-' !in date[..k]
        ensures joined == Replace(date[k + 1..], '-', '/')
      {
        SplitAtFirst(date, '-', k);
        JoinSplit(date[k + 1..], '-', '/');
      }
    }
    joined
  }

  /** A `YYYY-MM-DD` date is labelled `MM/DD`. */
  lemma IsoDateLabel(year: string, month: string, day: string)
    requires '-' !in year && '-' !in month && '-' !in day
    ensures DateLabel(year + "-" + month + "-" + day) == month + "/" + day
  {
    var date := year + "-" + month + "-" + day;
    var k := |year|;
    assert date[k] == '-' && date[..k] == year;
    var after := date[k + 1..];
    assert after == month + "-" + day;
    assert Replace(after, '-', '/') == month + "/" + day;
  }

  /** `activities.slice(-7)`: the last seven entries, i.e. the seven added first. */
  function ChartWindow(s: AppState): (r: seq<ActivityEntry>)
    ensures |r| == Min(7, |s.activities|)
    ensures forall i :: 0 <= i < |r| ==> r[i] == s.activities[|s.activities| - |r| + i]
  {
    Last(s.activities, 7)
  }

  /** The chart's `labels`: one per window entry, in window order. */
  function ChartLabels(window: seq<ActivityEntry>): (r: seq<string>)
    ensures |r| == |window|
    ensures forall i :: 0 <= i < |r| ==> r[i] == DateLabel(window[i].date)
  {
    seq(|window|, i requires 0 <= i < |window| => DateLabel(window[i].date))
  }

  // The chart's `data` is the minutes of each window entry, in window
  // order: `Insights.Minutes(window)`, the same map the average is taken over.

  /** `recentActivities.length > 0`: chart and toggle appear exactly when any activity exists. */
  function ShowChart(s: AppState): (r: bool)
    ensures r <==> s.activities != []
  {
    |ChartWindow(s)| > 0
  }

  /**
   * Once seven activities exist, no run of adds (of any kind) changes the
   * chart window: new entries go to the front and the window is the back.
   */
  lemma WindowIgnoresNewAdds(s: AppState, calls: seq<Call>, envs: seq<CallEnv>)
    requires |calls| == |envs|
    requires |s.activities| >= 7
    ensures ChartWindow(AddAll(s, calls, envs)) == ChartWindow(s)
  {
    ActivitiesAfterAdds(s, calls, envs);
    LastOfLonger(Reverse(ActivitiesCreated(calls, envs)), s.activities, 7);
  }

  /**
   * From a store with no activities, once seven or more have been added the
   * chart shows the FIRST seven added (oldest first from the right, i.e. in
   * reverse order of adding), never the latest ones.
   */
  lemma WindowIsFirstSevenAdded(s: AppState, calls: seq<Call>, envs: seq<CallEnv>)
    requires |calls| == |envs|
    requires s.activities == []
    requires |ActivitiesCreated(calls, envs)| >= 7
    ensures ChartWindow(AddAll(s, calls, envs)) == Reverse(ActivitiesCreated(calls, envs)[..7])
  {
    var created := ActivitiesCreated(calls, envs);
    ActivitiesAfterAdds(s, calls, envs);
    assert AddAll(s, calls, envs).activities == Reverse(created) + [];
    LastOfReverse(created, 7);
  }

  /**
   * The window the chart title ("Last 7 Days") calls for on a newest-first
   * list: the seven most recent entries, oldest of them first, as a time
   * axis reads.
   */
  function NewestWindow(s: AppState): (r: seq<ActivityEntry>)
    ensures |r| == Min(7, |s.activities|)
    ensures forall i :: 0 <= i < |r| ==> r[i] == s.activities[|r| - 1 - i]
  {
    var newest := Take(s.activities, 7);
    forall i | 0 <= i < |newest| ensures Reverse(newest)[i] == newest[|newest| - 1 - i] {
      ReverseAt(newest, i);
    }
    Reverse(newest)
  }

  /** After seven or more activity adds, the corrected window holds the last seven added, in the order they were added. */
  lemma NewestWindowAfterAdds(s: AppState, calls: seq<Call>, envs: seq<CallEnv>)
    requires |calls| == |envs|
    requires |ActivitiesCreated(calls, envs)| >= 7
    ensures NewestWindow(AddAll(s, calls, envs)) == Last(ActivitiesCreated(calls, envs), 7)
  {
    var created := ActivitiesCreated(calls, envs);
    ActivitiesAfterAdds(s, calls, envs);
    var w := NewestWindow(AddAll(s, calls, envs));
    var want := Last(created, 7);
    forall i | 0 <= i < 7
      ensures w[i] == want[i]
    {
      ReverseAt(created, 6 - i);
    }
  }

  // ---------------------------------------------------------------------
  // The recent list

  /** `activities.slice(0, 5)`: the first five, which are the five most recently added. */
  function RecentActivities(s: AppState): (r: seq<ActivityEntry>)
    ensures |r| == Min(5, |s.activities|)
    ensures r == s.activities[..|r|]
  {
    Take(s.activities, 5)
  }

  /** After five or more activity adds the recent list is the last five added, newest first. */
  lemma RecentAreLastFiveAdded(s: AppState, calls: seq<Call>, envs: seq<CallEnv>)
    requires |calls| == |envs|
    requires |ActivitiesCreated(calls, envs)| >= 5
    ensures RecentActivities(AddAll(s, calls, envs)) == Take(Reverse(ActivitiesCreated(calls, envs)), 5)
  {
    RecentAreNewest(s, calls, envs, 5);
  }

  /** `a.type || 'Activity'`: a missing or empty type shows as "Activity"; what is shown is never empty. */
  function DisplayType(a: ActivityEntry): (r: string)
    ensures r != ""
    ensures a.activityType.Some? && a.activityType.value != "" ==> r == a.activityType.value
    ensures a.activityType.None? || a.activityType.value == "" ==> r == "Activity"
  {
    match a.activityType
    case Some(t) => if t != "" then t else "Activity"
    case None => "Activity"
  }

  // ---------------------------------------------------------------------
  // The form

  /** The screen's two text inputs and the store it saves into. */
  class ActivityForm {
    var minutes: string
    var activityType: string
    const app: AppContext.Provider

    constructor (app: AppContext.Provider)
      ensures this.app == app && minutes == "" && activityType == ""
    {
      this.app := app;
      minutes := "";
      activityType := "";
    }

    /**
     * The save button: with empty minutes nothing happens; otherwise one
     * `addActivity` with the parsed minutes, the type as typed (even when
     * empty) and no date, and then both inputs are cleared. `number`
     * stands for JavaScript's `Number` conversion.
     */
    method Save(number: string -> real, env: CallEnv, writeOk: bool)
      requires app.Valid() && app.loaded
      modifies this, app
      ensures app.Valid() && app.loaded
      ensures old(minutes) == "" ==>
        minutes == "" && activityType == old(activityType) &&
        app.state == old(app.state) && app.storage == old(app.storage)
      ensures old(minutes) != "" ==>
        minutes == "" && activityType == "" &&
        app.state == AddActivity(old(app.state), ActivityInput(number(old(minutes)), Some(old(activityType)), None), env) &&
        app.storage == if writeOk then AppContext.Written(old(app.storage), app.state) else old(app.storage)
    {
      if minutes != "" {
        var _ := app.AddActivity(ActivityInput(number(minutes), Some(activityType), None), env, writeOk);
        minutes := "";
        activityType := "";
      }
    }
  }
}
