/** DashboardView: the weekly-summary button, which totals the week's time per
    project name before asking the AI for a summary, and the grid's write-back
    of a project chosen in the Project column. The AppState flags, the
    repository's answer and the AI's answer are parameters. */
module DashboardView {
  import opened Common
  import opened Grouping
  import opened Entries

  /** The name an entry is totalled under: its project's name, or "Unassigned"
      when it has no project or its id matches none. */
  function SummaryKey(e: TimeEntry, projects: seq<Project>): (r: string)
    ensures e.projectId.None? ==> r == "Unassigned"
    ensures e.projectId.Some? && FindProjectById(projects, e.projectId.value).None? ==> r == "Unassigned"
    ensures e.projectId.Some? && FindProjectById(projects, e.projectId.value).Some? ==>
      var i := FindProjectById(projects, e.projectId.value).value;
      r == projects[i].name && projects[i].projectId == e.projectId.value
  {
    if e.projectId.None? then "Unassigned"
    else match FindProjectById(projects, e.projectId.value)
      case None => "Unassigned"
      case Some(i) => projects[i].name
  }

  function SummaryKeyOf(projects: seq<Project>): TimeEntry -> string
  {
    e => SummaryKey(e, projects)
  }

  /** The foreach loop of WeeklySummary_Click: each entry's duration is added to
      its name's total, creating the total on first use. The result holds one
      total per name that occurs, and that total is the sum over exactly the
      entries filed under the name. */
  method ProjectTotals(entries: seq<TimeEntry>, projects: seq<Project>) returns (totals: map<string, int>)
    ensures forall k :: k in totals <==> k in GroupKeys(entries, SummaryKeyOf(projects))
    ensures forall k :: k in totals ==> totals[k] == GroupSum(entries, SummaryKeyOf(projects), Duration, k)
  {
    var key := SummaryKeyOf(projects);
    totals := map[];
    for i := 0 to |entries|
      invariant Tallies(totals, entries[..i], key, Duration)
    {
      var entry := entries[i];
      assert entries[..i + 1] == entries[..i] + [entry];
      var projectName := "Unassigned";
      if entry.projectId.Some? {
        var project := FindProjectById(projects, entry.projectId.value);
        if project.Some? {
          projectName := projects[project.value].name;
        }
      }
      assert projectName == key(entry);
      TalliesStep(totals, entries[..i], key, Duration, entry);
      var duration := Duration(entry);
      if projectName in totals {
        totals := totals[projectName := totals[projectName] + duration];
      } else {
        totals := totals[projectName := duration];
      }
    }
    assert entries[..|entries|] == entries;
  }

  /** The dictionary's totals, read in the order the names first occur. */
  function TotalsInOrder(keys: seq<string>, totals: map<string, int>): (r: seq<Group<string>>)
    requires forall i :: 0 <= i < |keys| ==> keys[i] in totals
    ensures |r| == |keys| && forall i :: 0 <= i < |r| ==> r[i] == Group(keys[i], totals[keys[i]])
  {
    seq(|keys|, i requires 0 <= i < |keys| => Group(keys[i], totals[keys[i]]))
  }

  /** The totals the loop builds are the per-name groups, and since each name is
      listed once they add up to the duration of all the entries: every entry is
      counted exactly once. */
  lemma WeeklyTotalsAccount(entries: seq<TimeEntry>, projects: seq<Project>, totals: map<string, int>)
    requires forall k :: k in totals <==> k in GroupKeys(entries, SummaryKeyOf(projects))
    requires forall k :: k in totals ==> totals[k] == GroupSum(entries, SummaryKeyOf(projects), Duration, k)
    ensures TotalsInOrder(GroupKeys(entries, SummaryKeyOf(projects)), totals) ==
      GroupBy(entries, SummaryKeyOf(projects), Duration)
    ensures SumTotals(TotalsInOrder(GroupKeys(entries, SummaryKeyOf(projects)), totals)) == Total(entries, Duration)
  {
    PartitionTotal(entries, SummaryKeyOf(projects), Duration);
  }

  /** What pressing the weekly-summary button leads to. */
  datatype SummaryOutcome =
    | AINotEnabled
    | LoadFailed
    | NoEntries
    | Summarised(totals: map<string, int>, summary: Option<string>)

  /** WeeklySummary_Click. `loaded` is what GetEntriesInRangeAsync returned (None
      when it threw) and `summary` what GetWeeklySummaryAsync returned. Without
      AI or a key nothing is fetched; an empty week builds no totals. */
  method WeeklySummary(aiEnabled: bool, apiKey: Option<string>, loaded: Option<seq<TimeEntry>>,
                       projects: seq<Project>, summary: Option<string>) returns (r: SummaryOutcome)
    ensures !(aiEnabled && NotNullOrEmpty(apiKey)) ==> r == AINotEnabled
    ensures aiEnabled && NotNullOrEmpty(apiKey) && loaded.None? ==> r == LoadFailed
    ensures aiEnabled && NotNullOrEmpty(apiKey) && loaded == Some([]) ==> r == NoEntries
    ensures aiEnabled && NotNullOrEmpty(apiKey) && loaded.Some? && loaded.value != [] ==>
      r.Summarised? && r.summary == summary &&
      (forall k :: k in r.totals <==> k in GroupKeys(loaded.value, SummaryKeyOf(projects))) &&
      (forall k :: k in r.totals ==> r.totals[k] == GroupSum(loaded.value, SummaryKeyOf(projects), Duration, k))
  {
    if !aiEnabled || apiKey.None? || apiKey.value == "" {
      return AINotEnabled;
    }
    if loaded.None? {
      return LoadFailed;
    }
    var entries := loaded.value;
    if |entries| == 0 {
      return NoEntries;
    }
    var totals := ProjectTotals(entries, projects);
    return Summarised(totals, summary);
  }

  /** EntriesDataGrid_CellEditEnding: a committed edit of the Project column
      writes the entry's id and project to the repository; nothing else does. */
  function ProjectCellWrite(committed: bool, projectColumn: bool, item: Option<TimeEntry>): (r: Option<ProjectUpdate>)
    ensures r.Some? <==> committed && projectColumn && item.Some?
    ensures r.Some? ==> r.value.entryId == item.value.id && r.value.projectId == item.value.projectId
  {
    if committed && projectColumn && item.Some? then Some(ProjectUpdate(item.value.id, item.value.projectId))
    else None
  }
}
