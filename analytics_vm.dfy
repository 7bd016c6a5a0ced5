/** AnalyticsViewModel: the weekly analytics page. Entries without an end time
    are dropped; the rest feed a per-project pie chart (whole minutes per
    project, largest first), a seven-day activity chart and four statistics.
    Durations are integer ticks and whole minutes rather than doubles. */
module AnalyticsVM {
  import opened Common
  import opened Grouping

  // ---------------------------------------------------------------------------
  // The entries the page works on.

  /** The entries LoadWeeklyDataAsync keeps: those whose EndTime is set. */
  function ValidEntries(entries: seq<TimeEntry>): (r: seq<TimeEntry>)
    ensures |r| <= |entries|
    ensures forall e :: e in r <==> e in entries && e.endTime != MinValue
    ensures forall e :: multiset(r)[e] == if e.endTime != MinValue then multiset(entries)[e] else 0
  {
    if entries == [] then []
    else
      assert entries == [entries[0]] + entries[1..];
      if entries[0].endTime != MinValue then [entries[0]] + ValidEntries(entries[1..])
      else ValidEntries(entries[1..])
  }

  /** The filter keeps the order of the entries: filtering two runs one after
      the other is filtering each and putting the results one after the other. */
  lemma {:induction false} ValidEntriesAppend(a: seq<TimeEntry>, b: seq<TimeEntry>)
    ensures ValidEntries(a + b) == ValidEntries(a) + ValidEntries(b)
  {
    if a != [] {
      assert (a + b)[0] == a[0] && (a + b)[1..] == a[1..] + b;
      ValidEntriesAppend(a[1..], b);
      if a[0].endTime != MinValue {
        calc {
          ValidEntries(a + b);
          [a[0]] + ValidEntries(a[1..] + b);
          [a[0]] + (ValidEntries(a[1..]) + ValidEntries(b));
          ([a[0]] + ValidEntries(a[1..])) + ValidEntries(b);
        }
      }
    } else {
      assert a + b == b;
    }
  }

  /** (int)(EndTime - StartTime).TotalMinutes: whole minutes, truncated toward zero. */
  function EntryMinutes(e: TimeEntry): int
  {
    TruncDiv(Duration(e), TicksPerMinute)
  }

  // ---------------------------------------------------------------------------
  // The project chart (UpdateProjectTimeChart).

  /** e.ProjectId ?? -1 */
  function ProjectKey(e: TimeEntry): int
  {
    if e.projectId.Some? then e.projectId.value else -1
  }

  /** The per-project minute totals, largest first. */
  function ProjectTotals(entries: seq<TimeEntry>): (r: seq<Group<int>>)
    ensures Descending(r)
  {
    SortDescending(GroupBy(entries, ProjectKey, EntryMinutes))
  }

  /** Every entry's project has its group among the totals, carrying the minutes
      of exactly the entries with that key; every group is such a group; and
      the totals add up to the minutes of all entries. */
  lemma ProjectTotalsAccount(entries: seq<TimeEntry>)
    ensures forall e :: e in entries ==>
      Group(ProjectKey(e), GroupSum(entries, ProjectKey, EntryMinutes, ProjectKey(e))) in ProjectTotals(entries)
    ensures forall g :: g in ProjectTotals(entries) ==>
      g.total == GroupSum(entries, ProjectKey, EntryMinutes, g.key) &&
      exists e :: e in entries && ProjectKey(e) == g.key
    ensures SumTotals(ProjectTotals(entries)) == Total(entries, EntryMinutes)
  {
    var groups := GroupBy(entries, ProjectKey, EntryMinutes);
    var keys := GroupKeys(entries, ProjectKey);
    GroupKeysCover(entries, ProjectKey);
    SortPermutes(groups);
    forall e | e in entries
      ensures Group(ProjectKey(e), GroupSum(entries, ProjectKey, EntryMinutes, ProjectKey(e))) in ProjectTotals(entries)
    {
      var i :| 0 <= i < |entries| && entries[i] == e;
      var j :| 0 <= j < |keys| && keys[j] == ProjectKey(e);
      assert groups[j] in multiset(groups);
    }
    forall g | g in ProjectTotals(entries)
      ensures g.total == GroupSum(entries, ProjectKey, EntryMinutes, g.key) &&
        exists e :: e in entries && ProjectKey(e) == g.key
    {
      assert g in multiset(groups);
      var j :| 0 <= j < |groups| && groups[j] == g;
      assert keys[j] in keys;
      var i :| 0 <= i < |entries| && ProjectKey(entries[i]) == keys[j];
      assert entries[i] in entries;
    }
    PartitionTotal(entries, ProjectKey, EntryMinutes);
    SortKeepsSum(groups);
  }

  /** The chart label of a project key: -1 is "(No Project)", an id no project
      carries is "Unknown Project", otherwise the first such project's name. */
  function ProjectLabel(key: int, projects: seq<Project>): (r: string)
    ensures key == -1 ==> r == "(No Project)"
    ensures key != -1 && FindProjectById(projects, key).None? ==> r == "Unknown Project"
    ensures key != -1 && FindProjectById(projects, key).Some? ==>
      r == projects[FindProjectById(projects, key).value].name &&
      projects[FindProjectById(projects, key).value].projectId == key
  {
    if key == -1 then "(No Project)"
    else match FindProjectById(projects, key)
      case None => "Unknown Project"
      case Some(i) => projects[i].name
  }

  datatype Colour = DodgerBlue | Orange | MediumSeaGreen | Crimson | BlueViolet | Gold | Teal | Gray

  const Palette: seq<Colour> := [DodgerBlue, Orange, MediumSeaGreen, Crimson, BlueViolet, Gold, Teal]

  function Min(a: int, b: int): int
  {
    if a <= b then a else b
  }

  /** The colour map after the first n iterations of its loop. */
  function PaletteMap(projects: seq<Project>, n: nat): map<int, Colour>
    requires n <= |projects| && n <= |Palette|
  {
    if n == 0 then map[] else PaletteMap(projects, n - 1)[projects[n - 1].projectId := Palette[n - 1]]
  }

  /** The number of projects that get a palette slot. */
  function Slots(projects: seq<Project>): (n: nat)
    ensures n <= |projects| && n <= |Palette|
  {
    Min(|projects|, |Palette|)
  }

  /** The colour map: palette slots for the first projects, then -1 set to gray. */
  method BuildColourMap(projects: seq<Project>) returns (m: map<int, Colour>)
    ensures m == PaletteMap(projects, Slots(projects))[-1 := Gray]
  {
    m := map[];
    var i := 0;
    while i < |projects| && i < |Palette|
      invariant 0 <= i <= Slots(projects)
      invariant m == PaletteMap(projects, i)
    {
      m := m[projects[i].projectId := Palette[i % |Palette|]];
      i := i + 1;
    }
    m := m[-1 := Gray];
  }

  /** The keys of the colour map are -1 and the ids of the first seven projects;
      -1 is gray, and when the ids are distinct the i-th project has slot i. */
  lemma {:induction false} ColourMapSlots(projects: seq<Project>, n: nat)
    requires n <= |projects| && n <= |Palette|
    ensures forall id :: id in PaletteMap(projects, n) <==> exists i :: 0 <= i < n && projects[i].projectId == id
    ensures (forall i, j :: 0 <= i < j < n ==> projects[i].projectId != projects[j].projectId) ==>
      forall i :: 0 <= i < n ==> PaletteMap(projects, n)[projects[i].projectId] == Palette[i]
  {
    if n > 0 {
      ColourMapSlots(projects, n - 1);
    }
  }

  /** A slice of the pie: its name (none for the placeholder), value and fill. */
  datatype Slice = Slice(name: Option<string>, value: int, fill: Colour)

  /** The fill of the i-th slice: the map's colour, else palette slot i mod 7. */
  function SliceColour(colours: map<int, Colour>, key: int, i: nat): Colour
  {
    if key in colours then colours[key] else Palette[i % |Palette|]
  }

  function Slices(totals: seq<Group<int>>, projects: seq<Project>, colours: map<int, Colour>): (r: seq<Slice>)
    ensures |r| == |totals|
    ensures forall i :: 0 <= i < |r| ==>
      r[i] == Slice(Some(ProjectLabel(totals[i].key, projects)), totals[i].total, SliceColour(colours, totals[i].key, i))
  {
    seq(|totals|, i requires 0 <= i < |totals| =>
      Slice(Some(ProjectLabel(totals[i].key, projects)), totals[i].total, SliceColour(colours, totals[i].key, i)))
  }

  /** The sum of the slices' values: what the whole pie represents. */
  function SliceSum(slices: seq<Slice>): int
  {
    if slices == [] then 0 else slices[0].value + SliceSum(slices[1..])
  }

  lemma {:induction false} SliceSumOfTotals(slices: seq<Slice>, totals: seq<Group<int>>)
    requires |slices| == |totals|
    requires forall i :: 0 <= i < |slices| ==> slices[i].value == totals[i].total
    ensures SliceSum(slices) == SumTotals(totals)
  {
    if slices != [] {
      SliceSumOfTotals(slices[1..], totals[1..]);
    }
  }

  /** The pie shows every project total exactly once: the slices add up to the
      minutes of all the entries, each slice is labelled with its project's name
      (or the fallback label), and a project with an assigned colour is drawn in
      it. */
  lemma SlicesAccount(entries: seq<TimeEntry>, projects: seq<Project>, colours: map<int, Colour>)
    ensures var r := Slices(ProjectTotals(entries), projects, colours);
      SliceSum(r) == Total(entries, EntryMinutes) &&
      forall i :: 0 <= i < |r| ==>
        r[i].name == Some(ProjectLabel(ProjectTotals(entries)[i].key, projects)) &&
        (ProjectTotals(entries)[i].key in colours ==> r[i].fill == colours[ProjectTotals(entries)[i].key])
  {
    SliceSumOfTotals(Slices(ProjectTotals(entries), projects, colours), ProjectTotals(entries));
    ProjectTotalsAccount(entries);
  }

  // ---------------------------------------------------------------------------
  // The daily chart (UpdateDailyActivityChart).

  /** (int)(StartTime.Date - weekStart.Date).TotalDays */
  function DayIndex(e: TimeEntry, weekStart: int): int
  {
    e.startTime / TicksPerDay - weekStart / TicksPerDay
  }

  function DayKey(weekStart: int): TimeEntry -> int
  {
    e => DayIndex(e, weekStart)
  }

  function InWeekKey(weekStart: int): TimeEntry -> bool
  {
    e => 0 <= DayIndex(e, weekStart) < 7
  }

  /** The seven day buckets: the ticks of the entries that start on each day. */
  function DayBuckets(entries: seq<TimeEntry>, weekStart: int): (r: seq<int>)
    ensures |r| == 7
  {
    seq(7, d requires 0 <= d < 7 => GroupSum(entries, DayKey(weekStart), Duration, d))
  }

  lemma DayBucketsStep(entries: seq<TimeEntry>, e: TimeEntry, weekStart: int)
    ensures var d := DayIndex(e, weekStart);
      DayBuckets(entries + [e], weekStart) ==
        if 0 <= d < 7 then DayBuckets(entries, weekStart)[d := DayBuckets(entries, weekStart)[d] + Duration(e)]
        else DayBuckets(entries, weekStart)
  {
    assert (entries + [e])[..|entries|] == entries;
  }

  /** UpdateDailyActivityChart's accumulation into a seven-cell array. */
  method DailyActivity(entries: seq<TimeEntry>, weekStart: int) returns (totals: array<int>)
    ensures fresh(totals) && totals.Length == 7
    ensures totals[..] == DayBuckets(entries, weekStart)
  {
    totals := new int[7];
    for i := 0 to 7
      invariant forall j :: 0 <= j < i ==> totals[j] == 0
    {
      totals[i] := 0;
    }
    assert totals[..] == DayBuckets([], weekStart);
    for k := 0 to |entries|
      invariant totals[..] == DayBuckets(entries[..k], weekStart)
    {
      var entry := entries[k];
      var dayIndex := DayIndex(entry, weekStart);
      DayBucketsStep(entries[..k], entry, weekStart);
      assert entries[..k + 1] == entries[..k] + [entry];
      if dayIndex >= 0 && dayIndex < 7 {
        totals[dayIndex] := totals[dayIndex] + Duration(entry);
      }
    }
    assert entries[..|entries|] == entries;
  }

  function SumSeq(s: seq<int>): int
  {
    if s == [] then 0 else s[0] + SumSeq(s[1..])
  }

  lemma {:induction false} SumSeqUpdate(s: seq<int>, i: int, w: int)
    requires 0 <= i < |s|
    ensures SumSeq(s[i := s[i] + w]) == SumSeq(s) + w
  {
    if i > 0 {
      assert s[i := s[i] + w][1..] == s[1..][i - 1 := s[i] + w];
      SumSeqUpdate(s[1..], i - 1, w);
    }
  }

  lemma SumSeqZero(s: seq<int>)
    requires forall i :: 0 <= i < |s| ==> s[i] == 0
    ensures SumSeq(s) == 0
  {
  }

  /** The seven buckets together hold exactly the ticks of the entries that
      start inside the week: an entry outside it lands in no bucket. */
  lemma {:induction false} DayBucketsAccount(entries: seq<TimeEntry>, weekStart: int)
    ensures SumSeq(DayBuckets(entries, weekStart)) == GroupSum(entries, InWeekKey(weekStart), Duration, true)
  {
    if entries == [] {
      SumSeqZero(DayBuckets(entries, weekStart));
    } else {
      var p := entries[..|entries| - 1];
      var e := entries[|entries| - 1];
      assert entries == p + [e];
      DayBucketsAccount(p, weekStart);
      DayBucketsStep(p, e, weekStart);
      var d := DayIndex(e, weekStart);
      if 0 <= d < 7 {
        SumSeqUpdate(DayBuckets(p, weekStart), d, Duration(e));
      }
    }
  }

  // ---------------------------------------------------------------------------
  // The statistics (UpdateStatistics).

  /** "{hours}h {minutes}m" for a total of ticks, with the casts of the source:
      hours = (int)(total / 60), minutes = (int)(total % 60), in minutes. */
  function TrackedTimeText(ticks: int): string
  {
    var hours := TruncDiv(ticks, TicksPerHour);
    var minutes := TruncDiv(TruncRem(ticks, TicksPerHour), TicksPerMinute);
    IntToString(hours) + "h " + IntToString(minutes) + "m"
  }

  /** For a non-negative total the text splits the whole minutes into hours and
      the remaining 0..59 minutes. */
  lemma TrackedTimeSplits(ticks: int)
    requires ticks >= 0
    ensures var hours := TruncDiv(ticks, TicksPerHour);
      var minutes := TruncDiv(TruncRem(ticks, TicksPerHour), TicksPerMinute);
      0 <= minutes < 60 && hours * 60 + minutes == ticks / TicksPerMinute &&
      TrackedTimeText(ticks) == NatToString(hours) + "h " + NatToString(minutes) + "m"
  {
    var hours := ticks / TicksPerHour;
    var rest := ticks % TicksPerHour;
    assert ticks == hours * TicksPerHour + rest;
    assert ticks == (hours * 60 + rest / TicksPerMinute) * TicksPerMinute + rest % TicksPerMinute;
  }

  /** GroupBy(e => e.ProjectId): unlike the chart, null is its own key. */
  function ProjectIdOf(e: TimeEntry): Option<int>
  {
    e.projectId
  }

  /** e.StartTime.Date, as a day number. */
  function DayNumber(e: TimeEntry): int
  {
    e.startTime / TicksPerDay
  }

  /** The name of a project group for MostActiveProject: a null id is
      "(No Project)", an id no project carries is "Unknown Project", otherwise
      the first such project's name. */
  function ProjectGroupName(key: Option<int>, projects: seq<Project>): (r: string)
    ensures key.None? ==> r == "(No Project)"
    ensures key.Some? && FindProjectById(projects, key.value).None? ==> r == "Unknown Project"
    ensures key.Some? && FindProjectById(projects, key.value).Some? ==>
      r == projects[FindProjectById(projects, key.value).value].name &&
      projects[FindProjectById(projects, key.value).value].projectId == key.value
  {
    if key.None? then "(No Project)"
    else match FindProjectById(projects, key.value)
      case None => "Unknown Project"
      case Some(i) => projects[i].name
  }

  /** Date.ToString("dddd"); day 0 (1 January 0001) was a Monday. */
  function DayName(day: int): string
  {
    ["Monday", "Tuesday", "Wednesday", "Thursday", "Friday", "Saturday", "Sunday"][day % 7]
  }

  /** The most active project: the first group of the descending order. */
  function MostActiveProject(entries: seq<TimeEntry>, projects: seq<Project>): string
    requires entries != []
  {
    var gs := GroupBy(entries, ProjectIdOf, EntryMinutes);
    ProjectGroupName(SortDescending(gs)[0].key, projects)
  }

  /** The most active day: the first group of the descending order by day. */
  function MostActiveDay(entries: seq<TimeEntry>): string
    requires entries != []
  {
    var gs := GroupBy(entries, DayNumber, EntryMinutes);
    DayName(SortDescending(gs)[0].key)
  }

  /** The project reported has the most minutes of any entry's project; ties go
      to the project that appears first among the entries. */
  lemma MostActiveProjectIsLargest(entries: seq<TimeEntry>, projects: seq<Project>)
    requires entries != []
    ensures var gs := GroupBy(entries, ProjectIdOf, EntryMinutes);
      gs != [] &&
      MostActiveProject(entries, projects) == ProjectGroupName(gs[FirstMax(gs)].key, projects) &&
      forall i :: 0 <= i < |entries| ==>
        GroupSum(entries, ProjectIdOf, EntryMinutes, entries[i].projectId) <= gs[FirstMax(gs)].total
  {
    HeadIsLargestGroup(entries, ProjectIdOf, EntryMinutes);
  }

  /** The day reported has the most minutes of any entry's day; ties go to the
      day that appears first among the entries. */
  lemma MostActiveDayIsLargest(entries: seq<TimeEntry>)
    requires entries != []
    ensures var ds := GroupBy(entries, DayNumber, EntryMinutes);
      ds != [] &&
      MostActiveDay(entries) == DayName(ds[FirstMax(ds)].key) &&
      forall i :: 0 <= i < |entries| ==>
        GroupSum(entries, DayNumber, EntryMinutes, DayNumber(entries[i])) <= ds[FirstMax(ds)].total
  {
    HeadIsLargestGroup(entries, DayNumber, EntryMinutes);
  }

  /** The four figures under the charts. */
  datatype Statistics = Statistics(totalTrackedTime: string, mostActiveProject: string,
                                   mostActiveDay: string, entryCount: int)

  /** The figures shown before any data is loaded and when there is none. */
  const NoStatistics := Statistics("0h 0m", "None", "None", 0)

  /** UpdateStatistics, which is only called with at least one entry. */
  function ComputeStatistics(entries: seq<TimeEntry>, projects: seq<Project>): Statistics
    requires entries != []
  {
    Statistics(TrackedTimeText(Total(entries, Duration)), MostActiveProject(entries, projects),
               MostActiveDay(entries), |entries|)
  }

  // ---------------------------------------------------------------------------

  class AnalyticsViewModel {
    var projectSeries: seq<Slice>
    var projectLabels: seq<string>
    /** The daily activity column values, in ticks. */
    var dailyActivity: seq<int>
    var statistics: Statistics
    var showAIInsights: bool

    /** The property defaults before any load; the AI insights panel is shown
        exactly when AI is enabled and an API key is present. */
    constructor (aiEnabled: bool, apiKey: Option<string>)
      ensures projectSeries == [] && projectLabels == [] && dailyActivity == []
      ensures statistics == NoStatistics
      ensures showAIInsights == (aiEnabled && NotNullOrEmpty(apiKey))
    {
      projectSeries := [];
      projectLabels := [];
      dailyActivity := [];
      statistics := NoStatistics;
      showAIInsights := aiEnabled && NotNullOrEmpty(apiKey);
    }

    /** The pie chart shows one slice per project key, largest first, coloured
        from the colour map, with the matching legend labels. */
    predicate ShowsProjects(entries: seq<TimeEntry>, projects: seq<Project>)
      reads `projectSeries, `projectLabels
    {
      var totals := ProjectTotals(entries);
      projectSeries == Slices(totals, projects, PaletteMap(projects, Slots(projects))[-1 := Gray]) &&
      |projectLabels| == |totals| &&
      forall i :: 0 <= i < |totals| ==> projectLabels[i] == ProjectLabel(totals[i].key, projects)
    }

    /** UpdateProjectTimeChart. */
    method UpdateProjectTimeChart(entries: seq<TimeEntry>, projects: seq<Project>)
      modifies `projectSeries, `projectLabels
      ensures ShowsProjects(entries, projects)
    {
      var totals := ProjectTotals(entries);
      var colours := BuildColourMap(projects);
      projectSeries := Slices(totals, projects, colours);
      projectLabels := seq(|totals|, i requires 0 <= i < |totals| => ProjectLabel(totals[i].key, projects));
    }

    /** UpdateStatistics. */
    method UpdateStatistics(entries: seq<TimeEntry>, projects: seq<Project>)
      requires entries != []
      modifies `statistics
      ensures statistics == ComputeStatistics(entries, projects)
    {
      statistics := ComputeStatistics(entries, projects);
    }

    /** The branch of LoadWeeklyDataAsync for a week with data. */
    method ShowWeek(valid: seq<TimeEntry>, projects: seq<Project>, weekStart: int, aiEnabled: bool, apiKey: Option<string>)
      requires valid != []
      modifies `projectSeries, `projectLabels, `dailyActivity, `statistics, `showAIInsights
      ensures ShowsProjects(valid, projects)
      ensures dailyActivity == DayBuckets(valid, weekStart)
      ensures statistics == ComputeStatistics(valid, projects)
      ensures showAIInsights == (aiEnabled && NotNullOrEmpty(apiKey))
    {
      var totals := DailyActivity(valid, weekStart);
      dailyActivity := totals[..];
      UpdateStatistics(valid, projects);
      showAIInsights := aiEnabled && NotNullOrEmpty(apiKey);
      UpdateProjectTimeChart(valid, projects);
    }

    /** The branch of LoadWeeklyDataAsync for a week without data. */
    method ShowNoData()
      modifies `projectSeries, `projectLabels, `dailyActivity, `statistics
      ensures projectSeries == [Slice(None, 1, Gray)] && projectLabels == ["No Data"]
      ensures dailyActivity == [0, 0, 0, 0, 0, 0, 0] && statistics == NoStatistics
    {
      projectSeries := [Slice(None, 1, Gray)];
      projectLabels := ["No Data"];
      dailyActivity := [0, 0, 0, 0, 0, 0, 0];
      statistics := NoStatistics;
    }

    /** LoadWeeklyDataAsync. `loadedEntries` and `loadedProjects` are what the
        repositories returned (None when they threw, which changes nothing).
        With no entry that has an end time the page shows the placeholders;
        otherwise the charts and statistics are computed from those entries. */
    method LoadWeeklyData(loadedEntries: Option<seq<TimeEntry>>, loadedProjects: Option<seq<Project>>,
                          weekStart: int, aiEnabled: bool, apiKey: Option<string>)
      modifies `projectSeries, `projectLabels, `dailyActivity, `statistics, `showAIInsights
      ensures loadedEntries.None? || loadedProjects.None? ==>
        projectSeries == old(projectSeries) && projectLabels == old(projectLabels) &&
        dailyActivity == old(dailyActivity) && statistics == old(statistics) &&
        showAIInsights == old(showAIInsights)
      ensures loadedEntries.Some? && loadedProjects.Some? && ValidEntries(loadedEntries.value) == [] ==>
        projectSeries == [Slice(None, 1, Gray)] && projectLabels == ["No Data"] &&
        dailyActivity == [0, 0, 0, 0, 0, 0, 0] && statistics == NoStatistics &&
        showAIInsights == old(showAIInsights)
      ensures loadedEntries.Some? && loadedProjects.Some? && ValidEntries(loadedEntries.value) != [] ==>
        var valid := ValidEntries(loadedEntries.value);
        ShowsProjects(valid, loadedProjects.value) &&
        dailyActivity == DayBuckets(valid, weekStart) &&
        statistics == ComputeStatistics(valid, loadedProjects.value) &&
        showAIInsights == (aiEnabled && NotNullOrEmpty(apiKey))
    {
      if loadedEntries.None? || loadedProjects.None? {
        return;
      }
      var validEntries := ValidEntries(loadedEntries.value);
      if |validEntries| > 0 {
        ShowWeek(validEntries, loadedProjects.value, weekStart, aiEnabled, apiKey);
      } else {
        ShowNoData();
      }
    }
  }
}
