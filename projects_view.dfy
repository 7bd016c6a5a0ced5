/** ProjectsView: the "Select Window" and "Select Folder" buttons beside the
    rule editor. Each fills the new rule's pattern and pre-selects the first
    project whose name and the picked name contain one another, ignoring
    case. The dialogs' answers are parameters. */
module ProjectsView {
  import opened Common
  import Paths
  import ProjectsVM
  import WindowPicker

  /** The test of the auto-selection loops: either name contains the other. */
  predicate Matches(p: Project, name: string)
  {
    ContainsIgnoreCase(p.name, name) || ContainsIgnoreCase(name, p.name)
  }

  /** The index of the first project that matches `name`. */
  function FirstMatch(projects: seq<Project>, name: string): (r: Option<nat>)
    ensures r.Some? ==> r.value < |projects| && Matches(projects[r.value], name)
    ensures r.Some? ==> forall j :: 0 <= j < r.value ==> !Matches(projects[j], name)
    ensures r.None? ==> forall j :: 0 <= j < |projects| ==> !Matches(projects[j], name)
  {
    if projects == [] then None
    else if Matches(projects[0], name) then Some(0)
    else match FirstMatch(projects[1..], name)
      case None => None
      case Some(k) => Some(k + 1)
  }

  /** A project named like the picked name, ignoring case, is always found, at
      its own place or earlier. */
  lemma {:induction false} SameNameIsMatched(projects: seq<Project>, name: string, i: nat)
    requires i < |projects| && EqualsIgnoreCase(projects[i].name, name)
    ensures FirstMatch(projects, name).Some? && FirstMatch(projects, name).value <= i
  {
    EqualImpliesContains(projects[i].name, name);
  }

  /** An empty name is contained in every project name, so without the guard in
      OnSelectWindowClick the first project would always be chosen. */
  lemma EmptyNameMatchesFirst(projects: seq<Project>)
    requires projects != []
    ensures FirstMatch(projects, "") == Some(0)
  {
    EmptyIsContained(projects[0].name);
  }

  /** The folder name the rule pattern takes: the last segment of the path once
      its trailing '\' are trimmed. */
  function FolderName(path: string): (r: string)
    ensures forall j :: 0 <= j < |r| ==> !Paths.IsSeparator(r[j])
  {
    Paths.FileName(Paths.TrimEndChar(path, Paths.DirectorySeparatorChar))
  }

  /** Trailing backslashes do not change the folder name. */
  lemma {:induction false} FolderNameIgnoresTrailingSeparator(path: string)
    ensures FolderName(path + [Paths.DirectorySeparatorChar]) == FolderName(path)
  {
    var p := path + [Paths.DirectorySeparatorChar];
    assert p[..|p| - 1] == path;
  }

  /** A drive root has no folder name, which is the case the warning covers. */
  lemma DriveRootHasNoFolderName(drive: char)
    requires Paths.IsDriveLetter(drive)
    ensures FolderName([drive, ':', '\\']) == ""
  {
    var p := [drive, ':', '\\'];
    assert Paths.TrimEndChar(p, '\\') == [drive, ':'] by {
      assert p[..2] == [drive, ':'];
    }
  }

  /** A folder under a drive is named by its last segment. */
  lemma FolderUnderDrive(drive: char, folder: string)
    requires Paths.IsDriveLetter(drive) && folder != []
    requires forall j :: 0 <= j < |folder| ==> !Paths.IsSeparator(folder[j])
    ensures FolderName([drive, ':', '\\'] + folder + ['\\']) == folder
  {
    var p := [drive, ':', '\\'] + folder;
    assert (p + ['\\'])[..|p|] == p;
    assert Paths.TrimEndChar(p + ['\\'], '\\') == p by {
      assert p[|p| - 1] == folder[|folder| - 1];
    }
    assert Paths.RootLength(p) == 3;
    Paths.FileNameAfterRoot(p, |p|);
    assert p[3..] == folder;
  }

  /** How the folder button ended. */
  datatype FolderOutcome = FolderCancelled | InvalidFolder | PatternSet(name: string)

  class ProjectsView {
    var viewModel: ProjectsVM.ProjectsViewModel?

    constructor (viewModel: ProjectsVM.ProjectsViewModel?)
      ensures this.viewModel == viewModel
    {
      this.viewModel := viewModel;
    }

    /** The lists and the project name box, which the buttons leave alone. */
    twostate predicate Untouched(vm: ProjectsVM.ProjectsViewModel)
      reads vm
    {
      vm.projects == old(vm.projects) && vm.rules == old(vm.rules) && vm.newProjectName == old(vm.newProjectName)
    }

    /** The foreach loop with its break: the first matching project becomes the
        selected one; with no match the selection stays. */
    method AutoSelectProject(name: string)
      requires viewModel != null
      modifies viewModel`selectedProject
      ensures FirstMatch(viewModel.projects, name).Some? ==>
        viewModel.selectedProject == Some(viewModel.projects[FirstMatch(viewModel.projects, name).value])
      ensures FirstMatch(viewModel.projects, name).None? ==>
        viewModel.selectedProject == old(viewModel.selectedProject)
    {
      var projects := viewModel.projects;
      for i := 0 to |projects|
        invariant forall j :: 0 <= j < i ==> !Matches(projects[j], name)
        invariant viewModel.selectedProject == old(viewModel.selectedProject)
      {
        if Matches(projects[i], name) {
          viewModel.selectedProject := Some(projects[i]);
          return;
        }
      }
    }

    /** OnSelectWindowClick after the picker closed. The window the picker hands
        back becomes the rule pattern, and its application name, when not
        empty, drives the project auto-selection. */
    method OnSelectWindow(picker: WindowPicker.WindowPickerDialog)
      modifies viewModel
      ensures viewModel == old(viewModel)
      ensures viewModel != null ==> Untouched(viewModel)
      ensures picker.Picked().None? && viewModel != null ==>
        viewModel.newRulePattern == old(viewModel.newRulePattern) &&
        viewModel.selectedProject == old(viewModel.selectedProject)
      ensures picker.Picked().Some? && viewModel != null ==>
        var w := picker.Picked().value;
        viewModel.newRulePattern == w.title &&
        viewModel.selectedProject ==
          if w.appName != "" && FirstMatch(viewModel.projects, w.appName).Some?
          then Some(viewModel.projects[FirstMatch(viewModel.projects, w.appName).value])
          else old(viewModel.selectedProject)
    {
      var picked := picker.Picked();
      if picked.Some? && viewModel != null {
        viewModel.newRulePattern := picked.value.title;
        if picked.value.appName != "" {
          AutoSelectProject(picked.value.appName);
        }
      }
    }

    /** OnSelectFolderClick after the folder dialog closed. `selectedPath` is the
        chosen path (None when the dialog was not confirmed). An empty folder
        name is reported and changes nothing; otherwise the name becomes the
        rule pattern and drives the auto-selection. */
    method OnSelectFolder(selectedPath: Option<string>) returns (outcome: FolderOutcome)
      modifies viewModel
      ensures viewModel == old(viewModel)
      ensures viewModel != null ==> Untouched(viewModel)
      ensures !NotNullOrEmpty(selectedPath) ==> outcome == FolderCancelled
      ensures NotNullOrEmpty(selectedPath) ==>
        outcome == if FolderName(selectedPath.value) == "" then InvalidFolder else PatternSet(FolderName(selectedPath.value))
      ensures !outcome.PatternSet? && viewModel != null ==>
        viewModel.newRulePattern == old(viewModel.newRulePattern) &&
        viewModel.selectedProject == old(viewModel.selectedProject)
      ensures outcome.PatternSet? && viewModel != null ==>
        viewModel.newRulePattern == outcome.name &&
        viewModel.selectedProject ==
          if FirstMatch(viewModel.projects, outcome.name).Some?
          then Some(viewModel.projects[FirstMatch(viewModel.projects, outcome.name).value])
          else old(viewModel.selectedProject)
    {
      if selectedPath.None? || selectedPath.value == "" {
        return FolderCancelled;
      }
      var folderName := FolderName(selectedPath.value);
      if folderName == "" {
        return InvalidFolder;
      }
      if viewModel != null {
        viewModel.newRulePattern := folderName;
        AutoSelectProject(folderName);
      }
      return PatternSet(folderName);
    }
  }
}
