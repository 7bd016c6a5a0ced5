/** MainWindow: the shell's reaction to recorded time entries (an AI project
    suggestion for unassigned ones), pausing and resuming the tracker from the
    tray, and timed status messages. The AppState statics are a Settings value
    and fields of the window; the AI client's and the repository's answers
    are parameters. */
module MainWindow {
  import opened Common
  import opened Entries
  import Tracking

  /** AppState.AIEnabled, ApiKeyPlaintext, TrialExpired and LicenseValid. */
  datatype Settings = Settings(aiEnabled: bool, apiKey: Option<string>, trialExpired: bool, licenseValid: bool)

  /** The test in TrackingService_TimeEntryRecorded for asking for a suggestion. */
  predicate WantsSuggestion(e: TimeEntry, s: Settings)
  {
    e.projectId == None && s.aiEnabled && NotNullOrEmpty(s.apiKey) && (!s.trialExpired || s.licenseValid)
  }

  /** The early-return test repeated at the start of SuggestProjectForEntryAsync. */
  predicate SkipsSuggestion(e: TimeEntry, s: Settings)
  {
    !s.aiEnabled || e.projectId != None || !NotNullOrEmpty(s.apiKey) || (s.trialExpired && !s.licenseValid)
  }

  /** The two guards agree: the suggestion routine returns early exactly for the
      entries the event handler would not have passed to it. */
  lemma GuardsAgree(e: TimeEntry, s: Settings)
    ensures SkipsSuggestion(e, s) <==> !WantsSuggestion(e, s)
  {
  }

  /** The suggestion counts as a project name: it is non-empty and is not
      "none" in any letter case. */
  predicate Usable(suggestion: Option<string>)
  {
    NotNullOrEmpty(suggestion) && FoldLower(suggestion.value) != "none"
  }

  /** `s.ToLower() != "none"` rejects "none" however it is capitalised, and only
      that word. */
  lemma {:induction false} NoneInAnyCase(s: string)
    ensures FoldLower(s) == "none" <==> EqualsIgnoreCase(s, "none")
  {
    if FoldLower(s) == "none" {
      assert forall i :: 0 <= i < |s| ==> FoldUpper(s)[i] == FoldUpper("none")[i];
      assert FoldUpper(s) == FoldUpper("none");
    }
    if EqualsIgnoreCase(s, "none") {
      assert |s| == 4;
      assert forall i :: 0 <= i < 4 ==> Upper(s[i]) == Upper("none"[i]);
      assert forall i :: 0 <= i < 4 ==> FoldLower(s)[i] == "none"[i];
      assert FoldLower(s) == "none";
    }
  }

  /** The status bar after ShowStatusMessageAsync(message, durationMs). When the
      message is timed, `replacement` is the message another call showed
      during the delay, if any; the message is cleared only if it is still the
      one shown. */
  function StatusAfter(message: string, durationMs: int, replacement: Option<string>): (r: string)
    ensures durationMs <= 0 ==> r == message
    ensures durationMs > 0 && replacement.Some? && replacement.value != message ==> r == replacement.value
    ensures durationMs > 0 && (replacement.None? || replacement.value == message) ==> r == ""
  {
    var shown := if durationMs > 0 && replacement.Some? then replacement.value else message;
    if durationMs > 0 && shown == message then "" else shown
  }

  /** How one suggestion attempt ended. */
  datatype SuggestionResult = Skipped | NoProjects | Applied(projectId: int) | NotApplied | NoSuggestion | Failed

  class MainWindow {
    /** AppState.Entries */
    var entries: seq<EntryObject>
    /** AppState.Projects */
    var projects: seq<Project>
    /** The calls to UpdateEntryProjectAsync that succeeded, in order. */
    var updates: seq<ProjectUpdate>
    var statusMessage: string
    var isTrackingPaused: bool
    /** AppState.IsTrackingPaused */
    var appStatePaused: bool
    var trackingService: Tracking.TrackingService?
    /** Whether the tray icon and its pause/resume item exist. */
    var hasTrayIcon: bool
    var hasPauseResumeItem: bool

    constructor (projects: seq<Project>)
      ensures this.projects == projects && entries == [] && updates == [] && statusMessage == ""
      ensures !isTrackingPaused && !appStatePaused && trackingService == null
      ensures !hasTrayIcon && !hasPauseResumeItem
    {
      this.projects := projects;
      entries := [];
      updates := [];
      statusMessage := "";
      isTrackingPaused := false;
      appStatePaused := false;
      trackingService := null;
      hasTrayIcon := false;
      hasPauseResumeItem := false;
    }

    /** ShowStatusMessageAsync; see StatusAfter. */
    method ShowStatusMessage(message: string, durationMs: int, replacement: Option<string>)
      modifies `statusMessage
      ensures statusMessage == StatusAfter(message, durationMs, replacement)
    {
      statusMessage := message;
      if durationMs > 0 {
        if replacement.Some? {
          statusMessage := replacement.value;
        }
        if statusMessage == message {
          statusMessage := "";
        }
      }
    }

    /** ToggleTracking at time `now`. Nothing happens without a tracking service,
        tray icon or menu item; otherwise the paused flag flips, the service is
        stopped when now paused and started when resumed, and AppState mirrors
        the flag. */
    method ToggleTracking(now: int)
      requires trackingService != null ==> trackingService.Valid() && now >= trackingService.clock
      modifies this, trackingService
      ensures trackingService == old(trackingService) && entries == old(entries) && updates == old(updates)
      ensures trackingService != null ==> trackingService.Valid()
      ensures trackingService == null || !hasTrayIcon || !hasPauseResumeItem ==>
        isTrackingPaused == old(isTrackingPaused) && appStatePaused == old(appStatePaused) &&
        (trackingService != null ==> unchanged(trackingService))
      ensures trackingService != null && hasTrayIcon && hasPauseResumeItem ==>
        isTrackingPaused == !old(isTrackingPaused) && appStatePaused == isTrackingPaused &&
        trackingService.isTracking == !isTrackingPaused
      ensures (trackingService != null && hasTrayIcon && hasPauseResumeItem && isTrackingPaused &&
               old(trackingService.isTracking)) ==>
        trackingService.currentEntry == None &&
        trackingService.persisted == old(trackingService.persisted) +
          (if old(trackingService.currentEntry).Some? then [old(trackingService.currentEntry).value.(endTime := now)] else [])
      ensures trackingService != null && hasTrayIcon && hasPauseResumeItem && !isTrackingPaused ==>
        trackingService.currentEntry == old(trackingService.currentEntry) &&
        trackingService.persisted == old(trackingService.persisted)
    {
      if trackingService == null || !hasTrayIcon || !hasPauseResumeItem {
        return;
      }
      isTrackingPaused := !isTrackingPaused;
      if isTrackingPaused {
        trackingService.Stop(now);
      } else {
        trackingService.Start();
      }
      appStatePaused := isTrackingPaused;
    }

    /** SuggestProjectForEntryAsync, run atomically. `suggestion` is what the AI
        client returned and `repositoryOk` whether UpdateEntryProjectAsync
        succeeded. A project whose name equals the suggestion ignoring case is
        written to the repository and then to the entry, whose row is refreshed
        in place; a failed write leaves the entry as it was. */
    method SuggestProjectForEntry(entry: EntryObject, s: Settings, suggestion: Option<string>, repositoryOk: bool)
      returns (result: SuggestionResult)
      modifies this, entry
      ensures entries == old(entries) && projects == old(projects)
      ensures isTrackingPaused == old(isTrackingPaused) && appStatePaused == old(appStatePaused)
      ensures trackingService == old(trackingService)
      ensures hasTrayIcon == old(hasTrayIcon) && hasPauseResumeItem == old(hasPauseResumeItem)
      ensures SkipsSuggestion(old(entry.value), s) ==>
        result == Skipped && entry.value == old(entry.value) && updates == old(updates) &&
        statusMessage == old(statusMessage)
      ensures !SkipsSuggestion(old(entry.value), s) && projects == [] ==>
        result == NoProjects && entry.value == old(entry.value) && updates == old(updates) &&
        statusMessage == old(statusMessage)
      ensures !SkipsSuggestion(old(entry.value), s) && projects != [] ==>
        statusMessage == "" &&
        (result.Applied? <==> Usable(suggestion) && FindProjectByName(projects, suggestion.value).Some? && repositoryOk)
      ensures result.Applied? ==>
        var p := projects[FindProjectByName(projects, suggestion.value).value];
        EqualsIgnoreCase(p.name, suggestion.value) && result.projectId == p.projectId &&
        entry.value == old(entry.value).(projectId := Some(p.projectId)) &&
        updates == old(updates) + [ProjectUpdate(entry.value.id, Some(p.projectId))]
      ensures !result.Applied? ==> entry.value == old(entry.value) && updates == old(updates)
    {
      if SkipsSuggestion(entry.value, s) {
        return Skipped;
      }
      if |projects| == 0 {
        return NoProjects;
      }
      ShowStatusMessage("Getting AI suggestion...", 0, None);
      if !Usable(suggestion) {
        ShowStatusMessage("No AI suggestion available", 3000, None);
        return NoSuggestion;
      }
      var found := FindProjectByName(projects, suggestion.value);
      if found.None? {
        ShowStatusMessage("AI suggestion could not be applied", 3000, None);
        return NotApplied;
      }
      var project := projects[found.value];
      if !repositoryOk {
        ShowStatusMessage("AI suggestion error", 3000, None);
        return Failed;
      }
      updates := updates + [ProjectUpdate(entry.value.id, Some(project.projectId))];
      ShowStatusMessage("AI suggested project: " + project.name, 3000, None);
      entry.value := entry.value.(projectId := Some(project.projectId));
      RefreshEntry(entry);
      return Applied(project.projectId);
    }

    /** The remove-then-insert that refreshes the entry's row. */
    method RefreshEntry(entry: EntryObject)
      modifies `entries
      ensures entries == old(entries)
    {
      var index := IndexOf(entries, entry);
      if index >= 0 {
        ReinsertRestores(entries, index);
        entries := Insert(RemoveAt(entries, index), index, entry);
      }
    }

    /** TrackingService_TimeEntryRecorded: the entry is appended to the list, and
        a suggestion is asked for when the entry qualifies. */
    method OnTimeEntryRecorded(entry: EntryObject, s: Settings, suggestion: Option<string>, repositoryOk: bool)
      returns (result: SuggestionResult)
      modifies this, entry
      ensures entries == old(entries) + [entry] && projects == old(projects)
      ensures isTrackingPaused == old(isTrackingPaused) && appStatePaused == old(appStatePaused)
      ensures trackingService == old(trackingService)
      ensures hasTrayIcon == old(hasTrayIcon) && hasPauseResumeItem == old(hasPauseResumeItem)
      ensures !WantsSuggestion(old(entry.value), s) ==>
        result == Skipped && entry.value == old(entry.value) && updates == old(updates)
      ensures (WantsSuggestion(old(entry.value), s) && projects != [] && Usable(suggestion) &&
               FindProjectByName(projects, suggestion.value).Some? && repositoryOk) ==>
        var p := projects[FindProjectByName(projects, suggestion.value).value];
        result == Applied(p.projectId) && entry.value == old(entry.value).(projectId := Some(p.projectId)) &&
        updates == old(updates) + [ProjectUpdate(old(entry.value).id, Some(p.projectId))]
      ensures result.Applied? <==>
        WantsSuggestion(old(entry.value), s) && projects != [] && Usable(suggestion) &&
        FindProjectByName(projects, suggestion.value).Some? && repositoryOk
      ensures !result.Applied? ==> entry.value == old(entry.value) && updates == old(updates)
    {
      entries := entries + [entry];
      result := Skipped;
      if WantsSuggestion(entry.value, s) {
        result := SuggestProjectForEntry(entry, s, suggestion, repositoryOk);
      }
    }
  }
}
