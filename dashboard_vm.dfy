/** DashboardViewModel: today's entries and the projects, manual project changes,
    on-demand AI suggestions, and the counter of overridden suggestions that
    proposes a rule after the third identical override. Repository writes are
    recorded in `updates`; the AI client's answer is a parameter. */
module DashboardVM {
  import opened Common
  import opened Entries

  /** The number of identical overrides after which a rule is proposed. */
  const OverrideThreshold: int := 3

  /** GetProjectNameById. */
  function GetProjectNameById(projects: seq<Project>, projectId: Option<int>): (r: string)
    ensures projectId.None? ==> r == "(No Project)"
    ensures projectId.Some? && FindProjectById(projects, projectId.value).None? ==> r == "(Unknown Project)"
    ensures projectId.Some? && FindProjectById(projects, projectId.value).Some? ==>
      r == projects[FindProjectById(projects, projectId.value).value].name
  {
    if projectId.None? then "(No Project)"
    else match FindProjectById(projects, projectId.value)
      case None => "(Unknown Project)"
      case Some(i) => projects[i].name
  }

  /** The name shown for a known id is the name of some project carrying that id,
      and an id no project carries is shown as unknown. */
  lemma ProjectNameOfKnownId(projects: seq<Project>, id: int)
    ensures (exists i :: 0 <= i < |projects| && projects[i].projectId == id) ==>
      exists i :: 0 <= i < |projects| && projects[i].projectId == id &&
        projects[i].name == GetProjectNameById(projects, Some(id))
    ensures (forall i :: 0 <= i < |projects| ==> projects[i].projectId != id) ==>
      GetProjectNameById(projects, Some(id)) == "(Unknown Project)"
  {
    var r := FindProjectById(projects, id);
    if r.Some? {
      assert projects[r.value].projectId == id;
    }
  }

  /** One override of a pattern: the counter after incrementing, reset to 0 when
      the rule proposal is shown, and whether it was shown. */
  function Bump(count: int): (r: (int, bool))
    requires 0 <= count < OverrideThreshold
    ensures 0 <= r.0 < OverrideThreshold
    ensures r.1 <==> count == OverrideThreshold - 1
    ensures r.0 == (count + 1) % OverrideThreshold
  {
    if count + 1 >= OverrideThreshold then (0, true) else (count + 1, false)
  }

  /** The counter after n overrides of the same pattern, starting from none. */
  function CountAfter(n: nat): (c: int)
    ensures 0 <= c < OverrideThreshold
  {
    if n == 0 then 0 else Bump(CountAfter(n - 1)).0
  }

  /** After n identical overrides the counter is n mod 3, and the n-th override
      shows the rule proposal exactly when n is a multiple of 3. */
  lemma {:induction false} OverridesCycle(n: nat)
    ensures CountAfter(n) == n % OverrideThreshold
    ensures n > 0 ==> (Bump(CountAfter(n - 1)).1 <==> n % OverrideThreshold == 0)
  {
    if n > 0 {
      OverridesCycle(n - 1);
    }
  }

  ghost predicate CountersInRange(counts: map<string, int>)
  {
    forall k :: k in counts ==> 0 <= counts[k] < OverrideThreshold
  }

  /** The effect of one TrackSuggestionOverride call on the counters: nothing when
      either name is empty; otherwise the "suggested|chosen" counter is bumped
      (starting from 0) and no other counter changes. Also whether the rule
      proposal is shown. */
  function RecordOverride(counts: map<string, int>, suggested: string, chosen: string): (r: (map<string, int>, bool))
    requires CountersInRange(counts)
    ensures CountersInRange(r.0)
    ensures suggested == "" || chosen == "" ==> r == (counts, false)
    ensures suggested != "" && chosen != "" ==>
      var key := suggested + "|" + chosen;
      r.0.Keys == counts.Keys + {key} &&
      (forall k :: k in counts && k != key ==> r.0[k] == counts[k]) &&
      (r.0[key], r.1) == Bump(if key in counts then counts[key] else 0)
  {
    if suggested == "" || chosen == "" then (counts, false)
    else
      var key := suggested + "|" + chosen;
      var (count, proposed) := Bump(if key in counts then counts[key] else 0);
      (counts[key := count], proposed)
  }

  /** RemoveAt followed by Insert of the same item at the same index. */
  function Refresh<T>(s: seq<T>, i: int): (r: seq<T>)
    requires 0 <= i < |s|
    ensures r == s
  {
    ReinsertRestores(s, i);
    Insert(RemoveAt(s, i), i, s[i])
  }

  class DashboardViewModel {
    var timeEntries: seq<EntryObject>
    var projects: seq<Project>
    /** _suggestionOverrides */
    var overrides: map<string, int>
    /** _suggestedProject and _entryWithSuggestion */
    var suggestedProject: Option<Project>
    var entryWithSuggestion: EntryObject?
    /** The calls made to UpdateEntryProjectAsync, in order. */
    var updates: seq<ProjectUpdate>

    /** Every stored override counter lies in 0..2. */
    ghost predicate Valid()
      reads this
    {
      CountersInRange(overrides)
    }

    constructor (projects: seq<Project>, entries: seq<EntryObject>)
      ensures Valid()
      ensures this.projects == projects && timeEntries == entries
      ensures overrides == map[] && suggestedProject == None && entryWithSuggestion == null && updates == []
    {
      this.projects := projects;
      timeEntries := entries;
      overrides := map[];
      suggestedProject := None;
      entryWithSuggestion := null;
      updates := [];
    }

    /** TrackSuggestionOverride. Returns whether the rule proposal was shown. */
    method TrackSuggestionOverride(suggested: string, chosen: string) returns (proposed: bool)
      requires Valid()
      modifies this
      ensures Valid()
      ensures timeEntries == old(timeEntries) && projects == old(projects) && updates == old(updates)
      ensures suggestedProject == old(suggestedProject) && entryWithSuggestion == old(entryWithSuggestion)
      ensures (overrides, proposed) == RecordOverride(old(overrides), suggested, chosen)
    {
      proposed := false;
      if suggested == "" || chosen == "" {
        return;
      }
      var key := suggested + "|" + chosen;
      var before := if key in overrides then overrides[key] else 0;
      if key in overrides {
        overrides := overrides[key := overrides[key] + 1];
      } else {
        overrides := overrides[key := 1];
      }
      if overrides[key] >= OverrideThreshold {
        proposed := true;
        overrides := overrides[key := 0];
      }
      assert (overrides[key], proposed) == Bump(before);
      assert overrides == old(overrides)[key := overrides[key]];
    }

    /** UpdateEntryProjectAsync: the repository is told the entry's id and
        project; the entry is then removed and re-inserted at its index, so the
        list is unchanged. When the repository throws, nothing else happens. */
    method UpdateEntryProject(entry: EntryObject, repositoryOk: bool)
      modifies this
      ensures timeEntries == old(timeEntries)
      ensures IndexOf(timeEntries, entry) == IndexOf(old(timeEntries), entry)
      ensures updates == old(updates) +
        (if repositoryOk then [ProjectUpdate(entry.value.id, entry.value.projectId)] else [])
      ensures projects == old(projects) && overrides == old(overrides)
      ensures suggestedProject == old(suggestedProject) && entryWithSuggestion == old(entryWithSuggestion)
    {
      if !repositoryOk {
        return;
      }
      updates := updates + [ProjectUpdate(entry.value.id, entry.value.projectId)];
      RefreshEntry(entry);
    }

    /** The remove-then-insert that refreshes the entry's row in the grid. */
    method RefreshEntry(entry: EntryObject)
      modifies `timeEntries
      ensures timeEntries == old(timeEntries)
    {
      var index := IndexOf(timeEntries, entry);
      if index >= 0 {
        timeEntries := Refresh(timeEntries, index);
      }
    }

    /** The ChangeProjectCommand body, run after the grid has written the new
        project into the entry. */
    method ChangeProject(entry: EntryObject?, repositoryOk: bool) returns (proposed: bool)
      requires Valid()
      modifies this
      ensures Valid()
      ensures entry == null ==>
        overrides == old(overrides) && updates == old(updates) && !proposed &&
        suggestedProject == old(suggestedProject) && entryWithSuggestion == old(entryWithSuggestion)
      ensures entry != null ==>
        updates == old(updates) +
          (if repositoryOk then [ProjectUpdate(entry.value.id, entry.value.projectId)] else []) &&
        suggestedProject == None && entryWithSuggestion == null
      ensures entry != null ==>
        var overridden := old(entryWithSuggestion) == entry && old(suggestedProject).Some? &&
          entry.value.projectId != Some(old(suggestedProject).value.projectId);
        (!overridden ==> overrides == old(overrides) && !proposed) &&
        (overridden ==> (overrides, proposed) == RecordOverride(old(overrides),
          old(suggestedProject).value.name, GetProjectNameById(projects, entry.value.projectId)))
      ensures timeEntries == old(timeEntries) && projects == old(projects)
    {
      proposed := false;
      if entry == null {
        return;
      }
      UpdateEntryProject(entry, repositoryOk);
      if entryWithSuggestion == entry && suggestedProject.Some? &&
         entry.value.projectId != Some(suggestedProject.value.projectId) {
        var chosen := GetProjectNameById(projects, entry.value.projectId);
        proposed := TrackSuggestionOverride(suggestedProject.value.name, chosen);
      }
      entryWithSuggestion := null;
      suggestedProject := None;
    }

    /** The resolution logic of SuggestProjectForEntryAsync. `suggestion` is the
        AI client's answer. With AI off or no key nothing happens; a non-empty
        suggestion naming a project (ignoring case) is applied to the entry,
        written to the repository and remembered for override tracking. */
    method SuggestProjectForEntry(entry: EntryObject, aiEnabled: bool, apiKey: Option<string>,
                                  suggestion: Option<string>, repositoryOk: bool)
      requires Valid()
      modifies this, entry
      ensures Valid()
      ensures timeEntries == old(timeEntries) && projects == old(projects) && overrides == old(overrides)
      ensures var applies := aiEnabled && NotNullOrEmpty(apiKey) &&
          suggestion.Some? && suggestion.value != "" &&
          FindProjectByName(projects, suggestion.value).Some?;
        (!applies ==>
          entry.value == old(entry.value) && updates == old(updates) &&
          suggestedProject == old(suggestedProject) && entryWithSuggestion == old(entryWithSuggestion)) &&
        (applies ==>
          var p := projects[FindProjectByName(projects, suggestion.value).value];
          EqualsIgnoreCase(p.name, suggestion.value) &&
          entry.value == old(entry.value).(projectId := Some(p.projectId)) &&
          suggestedProject == Some(p) && entryWithSuggestion == entry &&
          updates == old(updates) + (if repositoryOk then [ProjectUpdate(entry.value.id, Some(p.projectId))] else []))
    {
      if !aiEnabled || apiKey.None? || apiKey.value == "" {
        return;
      }
      if suggestion.None? || suggestion.value == "" {
        return;
      }
      var found := FindProjectByName(projects, suggestion.value);
      if found.None? {
        return;
      }
      var p := projects[found.value];
      entryWithSuggestion := entry;
      suggestedProject := Some(p);
      entry.value := entry.value.(projectId := Some(p.projectId));
      UpdateEntryProject(entry, repositoryOk);
    }
  }
}
