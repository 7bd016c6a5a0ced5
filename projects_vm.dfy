/** ProjectsViewModel: the project and rule lists of the Projects page, the input
    fields for a new project and a new rule, and the commands that add projects
    and rules and delete rules. Each repository call is a parameter: the id it
    returned, or None when it threw. */
module ProjectsVM {
  import opened Common

  /** Collection.Remove: drops the first occurrence, if any. */
  function RemoveFirst<T(==)>(s: seq<T>, x: T): (r: seq<T>)
    ensures x in s ==> |r| == |s| - 1
    ensures x !in s ==> r == s
  {
    if s == [] then []
    else if s[0] == x then s[1..]
    else [s[0]] + RemoveFirst(s[1..], x)
  }

  /** Exactly one copy of the item leaves the list and nothing else does; an item
      that occurred once is gone afterwards. */
  lemma {:induction false} RemoveFirstMultiset<T>(s: seq<T>, x: T)
    ensures multiset(RemoveFirst(s, x)) == multiset(s) - multiset{x}
    ensures multiset(s)[x] <= 1 ==> x !in RemoveFirst(s, x)
  {
    if s != [] {
      assert s == [s[0]] + s[1..];
      if s[0] != x {
        RemoveFirstMultiset(s[1..], x);
      }
    }
  }

  /** Removal keeps the order of the remaining items: the result is the list
      with the first occurrence cut out. */
  lemma {:induction false} RemoveFirstCutsOne<T>(s: seq<T>, x: T, i: int)
    requires 0 <= i < |s| && s[i] == x
    requires forall j :: 0 <= j < i ==> s[j] != x
    ensures RemoveFirst(s, x) == s[..i] + s[i + 1..]
  {
    if i == 0 {
      assert RemoveFirst(s, x) == s[1..];
      assert s[..0] + s[1..] == s[1..];
    } else {
      var t := s[1..];
      assert s[0] != x;
      assert RemoveFirst(s, x) == [s[0]] + RemoveFirst(t, x);
      RemoveFirstCutsOne(t, x, i - 1);
      assert s[..i] == [s[0]] + t[..i - 1];
      assert s[i + 1..] == t[i..];
      assert [s[0]] + (t[..i - 1] + t[i..]) == ([s[0]] + t[..i - 1]) + t[i..];
    }
  }

  class ProjectsViewModel {
    var projects: seq<Project>
    var rules: seq<Rule>
    var newProjectName: string
    var newRulePattern: string
    var selectedProject: Option<Project>

    /** The lists start empty and are then filled by LoadProjectsAndRules from
        what the repositories return (None when a query throws). */
    constructor (loadedProjects: Option<seq<Project>>, loadedRules: Option<seq<Rule>>)
      ensures projects == if loadedProjects.Some? then loadedProjects.value else []
      ensures rules == if loadedProjects.Some? && loadedRules.Some? then loadedRules.value else []
      ensures newProjectName == "" && newRulePattern == "" && selectedProject == None
    {
      projects := [];
      rules := [];
      newProjectName := "";
      newRulePattern := "";
      selectedProject := None;
      new;
      LoadProjectsAndRules(loadedProjects, loadedRules);
    }

    /** A project can be added exactly when the name is not null, empty or white
        space, that is, when its trimmed form is not empty. */
    predicate CanAddProject()
      reads this
      ensures CanAddProject() <==> Trim(newProjectName) != ""
    {
      TrimEmptyIffBlank(newProjectName);
      !IsBlank(newProjectName)
    }

    /** A rule can be added exactly when the trimmed pattern is not empty and a
        project is selected. */
    predicate CanAddRule()
      reads this
      ensures CanAddRule() <==> Trim(newRulePattern) != "" && selectedProject.Some?
    {
      TrimEmptyIffBlank(newRulePattern);
      !IsBlank(newRulePattern) && selectedProject.Some?
    }

    /** LoadProjectsAndRules: the lists are replaced by what the repositories
        return, in order. When the project query throws nothing changes; when the
        rule query throws the projects are already replaced. */
    method LoadProjectsAndRules(loadedProjects: Option<seq<Project>>, loadedRules: Option<seq<Rule>>)
      modifies this
      ensures projects == if loadedProjects.Some? then loadedProjects.value else old(projects)
      ensures rules == if loadedProjects.Some? && loadedRules.Some? then loadedRules.value else old(rules)
      ensures newProjectName == old(newProjectName) && newRulePattern == old(newRulePattern)
      ensures selectedProject == old(selectedProject)
    {
      if loadedProjects.None? {
        return;
      }
      projects := loadedProjects.value;
      if loadedRules.None? {
        return;
      }
      rules := loadedRules.value;
    }

    /** AddProjectAsync: `addedId` is what AddProjectAsync(trimmed name) returned.
        A positive id appends the project under its trimmed, non-empty name and
        clears the input; otherwise nothing changes. */
    method AddProject(addedId: Option<int>)
      modifies this
      ensures var added := old(CanAddProject()) && addedId.Some? && addedId.value > 0;
        (added ==>
          projects == old(projects) + [Project(addedId.value, Trim(old(newProjectName)))] &&
          Trim(old(newProjectName)) != "" &&
          newProjectName == "") &&
        (!added ==> projects == old(projects) && newProjectName == old(newProjectName))
      ensures rules == old(rules) && newRulePattern == old(newRulePattern)
      ensures selectedProject == old(selectedProject)
    {
      if !CanAddProject() {
        return;
      }
      var projectName := Trim(newProjectName);
      if addedId.Some? && addedId.value > 0 {
        projects := projects + [Project(addedId.value, projectName)];
        newProjectName := "";
      }
    }

    /** AddRuleAsync: `addedId` is what AddRuleAsync(trimmed pattern, project id)
        returned. A positive id appends the rule for the selected project, clears
        the pattern and keeps the selection. */
    method AddRule(addedId: Option<int>)
      modifies this
      ensures var added := old(CanAddRule()) && addedId.Some? && addedId.value > 0;
        (added ==>
          old(selectedProject).Some? &&
          rules == old(rules) + [Rule(addedId.value, Trim(old(newRulePattern)),
                                      old(selectedProject).value.projectId,
                                      Some(old(selectedProject).value.name))] &&
          Trim(old(newRulePattern)) != "" &&
          newRulePattern == "") &&
        (!added ==> rules == old(rules) && newRulePattern == old(newRulePattern))
      ensures projects == old(projects) && newProjectName == old(newProjectName)
      ensures selectedProject == old(selectedProject)
    {
      if !CanAddRule() {
        return;
      }
      var pattern := Trim(newRulePattern);
      var projectId := selectedProject.value.projectId;
      if addedId.Some? && addedId.value > 0 {
        rules := rules + [Rule(addedId.value, pattern, projectId, Some(selectedProject.value.name))];
        newRulePattern := "";
      }
    }

    /** DeleteRuleAsync: a null rule is ignored; otherwise its first occurrence
        leaves the list. */
    method DeleteRule(rule: Option<Rule>)
      modifies this
      ensures rules == if rule.Some? then RemoveFirst(old(rules), rule.value) else old(rules)
      ensures rule.Some? && multiset(old(rules))[rule.value] <= 1 ==> rule.value !in rules
      ensures projects == old(projects) && newProjectName == old(newProjectName)
      ensures newRulePattern == old(newRulePattern) && selectedProject == old(selectedProject)
    {
      if rule.None? {
        return;
      }
      RemoveFirstMultiset(rules, rule.value);
      rules := RemoveFirst(rules, rule.value);
    }
  }
}
