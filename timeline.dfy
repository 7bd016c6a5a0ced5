/** The shape of the log of closed entries that both tracking services write:
    every entry ends no earlier than it starts, and each entry ends no later than
    the next one starts. */
module Timeline {
  import opened Common

  ghost predicate WellFormed(log: seq<TimeEntry>)
  {
    forall i :: 0 <= i < |log| ==> log[i].startTime <= log[i].endTime
  }

  /** Consecutive entries do not overlap. */
  ghost predicate Chained(log: seq<TimeEntry>)
  {
    forall i :: 0 <= i < |log| - 1 ==> log[i].endTime <= log[i + 1].startTime
  }

  /** Entries may start at or after this time without overlapping the log. */
  function Horizon(log: seq<TimeEntry>, origin: int): int
  {
    if |log| == 0 then origin else log[|log| - 1].endTime
  }

  /** The entry a tracker creates when a new activity interval begins: StartTime
      and EndTime both `now`, no id yet and no project. */
  function OpenEntry(title: string, app: string, now: int): (e: TimeEntry)
    ensures e.startTime == e.endTime == now && e.projectId == None
    ensures e.windowTitle == title && e.applicationName == app
  {
    TimeEntry(0, now, now, title, app, None, None)
  }

  /** Closing an entry that started no later than `now` and no earlier than the
      log's horizon keeps the log well formed and chained. */
  lemma {:induction false} AppendClosed(log: seq<TimeEntry>, origin: int, e: TimeEntry)
    requires WellFormed(log) && Chained(log)
    requires Horizon(log, origin) <= e.startTime <= e.endTime
    ensures WellFormed(log + [e]) && Chained(log + [e])
    ensures Horizon(log + [e], origin) == e.endTime
  {
    var l := log + [e];
    forall i | 0 <= i < |l| - 1 ensures l[i].endTime <= l[i + 1].startTime {
      if i < |log| - 1 {
        assert l[i] == log[i] && l[i + 1] == log[i + 1];
      } else {
        assert l[i] == log[|log| - 1] && l[i + 1] == e;
      }
    }
  }

  /** A chained log of well-formed entries never overlaps anywhere: every entry
      ends before any later entry starts. */
  lemma {:induction false} ChainedIsDisjoint(log: seq<TimeEntry>, i: int, j: int)
    requires WellFormed(log) && Chained(log)
    requires 0 <= i < j < |log|
    ensures log[i].endTime <= log[j].startTime
    decreases j - i
  {
    if j > i + 1 {
      ChainedIsDisjoint(log, i, j - 1);
      assert log[j - 1].startTime <= log[j - 1].endTime <= log[j].startTime;
    }
  }

  /** The time covered by a chained log is at most its span: no time is counted twice. */
  function TotalDuration(log: seq<TimeEntry>): int
  {
    if log == [] then 0 else TotalDuration(log[..|log| - 1]) + Duration(log[|log| - 1])
  }

  lemma {:induction false} CoveredTimeWithinSpan(log: seq<TimeEntry>)
    requires WellFormed(log) && Chained(log) && |log| > 0
    ensures 0 <= TotalDuration(log) <= log[|log| - 1].endTime - log[0].startTime
  {
    if |log| > 1 {
      var p := log[..|log| - 1];
      assert WellFormed(p) && Chained(p);
      CoveredTimeWithinSpan(p);
      assert p[|p| - 1] == log[|log| - 2];
      assert log[|log| - 2].endTime <= log[|log| - 1].startTime;
    }
  }
}
