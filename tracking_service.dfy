/** The second-generation tracking service (namespace DueTime.Tracking): it turns
    WindowChanged and IdleStateChanged events into closed time entries, closes
    entries left open longer than thirty minutes, and, when configured, asks the
    AI client for a project before persisting an entry. DateTime.Now, the AI
    suggestion, the project repository's answer and the Win32 foreground probe
    are parameters of the handlers that use them. The repository and the
    TimeEntryRecorded subscribers are modelled as two logs on the object. */
module Tracking {
  import opened Common
  import opened Timeline

  /** The precautionary limit on an open entry: thirty minutes. */
  const SafetyTimeout: int := 30 * TicksPerMinute

  /** The AI configuration: _useAI, _apiKey, _projectNames and whether a project
      repository was supplied. */
  datatype AIConfig = AIConfig(useAI: bool, apiKey: Option<string>, projectNames: seq<string>, hasProjectRepository: bool)

  predicate HasApiKey(c: AIConfig)
  {
    NotNullOrEmpty(c.apiKey)
  }

  /** The condition under which the handlers ask for a categorization. */
  predicate WantsCategorization(c: AIConfig, e: TimeEntry)
  {
    c.useAI && HasApiKey(c) && |c.projectNames| > 0 && e.projectId.None?
  }

  /** A suggestion the service acts on: neither null, nor empty, nor "None". */
  predicate Usable(suggestion: Option<string>)
  {
    suggestion.Some? && suggestion.value != "" && suggestion.value != "None"
  }

  /** TryAICategorization: `suggestion` is what the AI client returned and
      `projects` what GetAllProjectsAsync returned (None when it threw). Only the
      project id can change, and it changes only to the id of a project whose
      name equals the usable suggestion ignoring case; when such a project
      exists, the first one is chosen. */
  function TryAICategorization(c: AIConfig, entry: TimeEntry, suggestion: Option<string>,
                               projects: Option<seq<Project>>): (r: TimeEntry)
    ensures r == entry.(projectId := r.projectId)
    ensures r.projectId != entry.projectId ==>
      c.useAI && HasApiKey(c) && |c.projectNames| > 0 && c.hasProjectRepository &&
      Usable(suggestion) && projects.Some? && r.projectId.Some? &&
      exists i :: 0 <= i < |projects.value| && projects.value[i].projectId == r.projectId.value &&
        EqualsIgnoreCase(projects.value[i].name, suggestion.value)
    ensures (c.useAI && HasApiKey(c) && |c.projectNames| > 0 && c.hasProjectRepository &&
      Usable(suggestion) && projects.Some? &&
      FindProjectByName(projects.value, suggestion.value).Some?) ==>
      r.projectId == Some(projects.value[FindProjectByName(projects.value, suggestion.value).value].projectId)
  {
    if !c.useAI || !HasApiKey(c) || |c.projectNames| == 0 || !c.hasProjectRepository then entry
    else if !Usable(suggestion) || projects.None? then entry
    else match FindProjectByName(projects.value, suggestion.value)
      case None => entry
      case Some(i) => entry.(projectId := Some(projects.value[i].projectId))
  }

  /** Closing an entry in a handler: it ends at `now` and, when the handler's
      condition holds, is categorized before it is persisted. */
  function Finish(c: AIConfig, e: TimeEntry, now: int, suggestion: Option<string>,
                  projects: Option<seq<Project>>): (r: TimeEntry)
    ensures r.endTime == now && r.startTime == e.startTime
    ensures r.windowTitle == e.windowTitle && r.applicationName == e.applicationName
    ensures !WantsCategorization(c, e) ==> r == e.(endTime := now)
  {
    var closed := e.(endTime := now);
    if WantsCategorization(c, closed) then TryAICategorization(c, closed, suggestion, projects) else closed
  }

  /** The entry GetCurrentWindowAndCreateEntry opens, if any: the foreground
      window; after a failed probe, the last reported window if both its title
      and application are known; nothing when there is no foreground window. */
  function ProbeEntry(probe: ForegroundProbe, lastTitle: string, lastApp: string, now: int): (r: Option<TimeEntry>)
    ensures probe.NoForegroundWindow? ==> r.None?
    ensures probe.ForegroundWindow? ==>
      r == Some(OpenEntry(probe.title, ProcessNameOrUnknown(probe.processName), now))
    ensures probe.ProbeThrew? ==> (r.Some? <==> lastTitle != "" && lastApp != "")
    ensures probe.ProbeThrew? && r.Some? ==> r.value == OpenEntry(lastTitle, lastApp, now)
  {
    match probe
    case NoForegroundWindow => None
    case ForegroundWindow(title, processName) =>
      Some(OpenEntry(title, ProcessNameOrUnknown(processName), now))
    case ProbeThrew =>
      if lastTitle != "" && lastApp != "" then Some(OpenEntry(lastTitle, lastApp, now)) else None
  }

  class TrackingService {
    var currentEntry: Option<TimeEntry>
    var isIdle: bool
    var isTracking: bool
    var lastWindowTitle: string
    var lastAppName: string
    var ai: AIConfig
    /** Every entry handed to AddTimeEntryAsync, in order. */
    var persisted: seq<TimeEntry>
    /** Every entry delivered through TimeEntryRecorded, in order. */
    var emitted: seq<TimeEntry>
    /** Open entries that were replaced without being persisted. */
    ghost var dropped: seq<TimeEntry>
    /** The latest DateTime.Now any handler has observed. */
    ghost var clock: int

    ghost predicate OpenEntryFits()
      reads this
    {
      currentEntry.Some? ==>
        Horizon(persisted, MinValue) <= currentEntry.value.startTime <= clock &&
        currentEntry.value.startTime == currentEntry.value.endTime &&
        currentEntry.value.projectId == None
    }

    /** Everything persisted is also announced, the persisted entries are well
        formed and do not overlap, the open entry starts after all of them, and
        there is no open entry while idle. */
    ghost predicate Valid()
      reads this
    {
      persisted == emitted &&
      WellFormed(persisted) && Chained(persisted) &&
      MinValue <= Horizon(persisted, MinValue) <= clock &&
      OpenEntryFits() &&
      (isIdle ==> currentEntry.None?)
    }

    constructor ()
      ensures Valid()
      ensures currentEntry == None && !isIdle && !isTracking
      ensures lastWindowTitle == "" && lastAppName == ""
      ensures ai == AIConfig(false, None, [], false)
      ensures persisted == [] && dropped == [] && clock == MinValue
    {
      currentEntry := None;
      isIdle := false;
      isTracking := false;
      lastWindowTitle := "";
      lastAppName := "";
      ai := AIConfig(false, None, [], false);
      persisted := [];
      emitted := [];
      dropped := [];
      clock := MinValue;
    }

    /** ConfigureAI; `loaded` is what GetAllProjectsAsync returned to
        LoadProjectNames (None when it threw), which then keeps the old names. */
    method ConfigureAI(useAI: bool, apiKey: Option<string>, hasProjectRepository: bool,
                       loaded: Option<seq<Project>>)
      requires Valid()
      modifies this
      ensures Valid()
      ensures ai.useAI == useAI && ai.apiKey == apiKey && ai.hasProjectRepository == hasProjectRepository
      ensures ai.projectNames ==
        if useAI && hasProjectRepository && loaded.Some? then Names(loaded.value) else old(ai.projectNames)
      ensures currentEntry == old(currentEntry) && isIdle == old(isIdle) && isTracking == old(isTracking)
      ensures lastWindowTitle == old(lastWindowTitle) && lastAppName == old(lastAppName)
      ensures persisted == old(persisted) && dropped == old(dropped) && clock == old(clock)
    {
      var names := ai.projectNames;
      if useAI && hasProjectRepository && loaded.Some? {
        names := Names(loaded.value);
      }
      ai := AIConfig(useAI, apiKey, names, hasProjectRepository);
    }

    /** AddTimeEntryAsync followed by TimeEntryRecorded for a closed entry that
        starts after everything persisted so far. */
    method Record(e: TimeEntry)
      requires persisted == emitted && WellFormed(persisted) && Chained(persisted)
      requires Horizon(persisted, MinValue) <= e.startTime <= e.endTime
      modifies `persisted, `emitted
      ensures persisted == old(persisted) + [e] && emitted == persisted
      ensures WellFormed(persisted) && Chained(persisted) && Horizon(persisted, MinValue) == e.endTime
    {
      AppendClosed(persisted, MinValue, e);
      persisted := persisted + [e];
      emitted := emitted + [e];
    }

    /** Start does nothing when already tracking. It keeps the open entry and the
        idle flag as they are. */
    method Start()
      requires Valid()
      modifies this
      ensures Valid()
      ensures isTracking
      ensures currentEntry == old(currentEntry) && isIdle == old(isIdle) && ai == old(ai)
      ensures lastWindowTitle == old(lastWindowTitle) && lastAppName == old(lastAppName)
      ensures persisted == old(persisted) && dropped == old(dropped) && clock == old(clock)
    {
      if isTracking {
        return;
      }
      isTracking := true;
    }

    /** Stop does nothing when not tracking; otherwise it closes the open entry at
        `now` without categorizing it. */
    method Stop(now: int)
      requires Valid() && now >= clock
      modifies this
      ensures Valid()
      ensures !isTracking && isIdle == old(isIdle) && ai == old(ai) && dropped == old(dropped)
      ensures lastWindowTitle == old(lastWindowTitle) && lastAppName == old(lastAppName)
      ensures !old(isTracking) ==> currentEntry == old(currentEntry) && persisted == old(persisted)
      ensures old(isTracking) ==> currentEntry == None
      ensures old(isTracking) && old(currentEntry).Some? ==>
        persisted == old(persisted) + [old(currentEntry).value.(endTime := now)]
      ensures old(isTracking) && old(currentEntry).None? ==> persisted == old(persisted)
      ensures clock == now
    {
      clock := now;
      if !isTracking {
        return;
      }
      if currentEntry.Some? {
        var e := currentEntry.value.(endTime := now);
        Record(e);
        currentEntry := None;
      }
      isTracking := false;
    }

    /** Ignored while idle. Otherwise the window is remembered, the open entry is
        closed at `now` (categorized when configured) and persisted, and a new
        entry is opened for the window. */
    method OnWindowChanged(title: string, app: string, now: int,
                           suggestion: Option<string>, projects: Option<seq<Project>>)
      requires Valid() && now >= clock
      modifies `clock, `lastWindowTitle, `lastAppName, `currentEntry, `persisted, `emitted
      ensures Valid()
      ensures clock == now
      ensures old(isIdle) ==>
        currentEntry == old(currentEntry) && persisted == old(persisted) &&
        lastWindowTitle == old(lastWindowTitle) && lastAppName == old(lastAppName)
      ensures !old(isIdle) ==>
        lastWindowTitle == title && lastAppName == app &&
        currentEntry == Some(OpenEntry(title, app, now))
      ensures !old(isIdle) && old(currentEntry).Some? ==>
        persisted == old(persisted) + [Finish(ai, old(currentEntry).value, now, suggestion, projects)]
      ensures !old(isIdle) && old(currentEntry).None? ==> persisted == old(persisted)
    {
      clock := now;
      if isIdle {
        return;
      }
      lastWindowTitle := title;
      lastAppName := app;
      if currentEntry.Some? {
        var e := Finish(ai, currentEntry.value, now, suggestion, projects);
        Record(e);
      }
      currentEntry := Some(OpenEntry(title, app, now));
    }

    /** Going idle closes (and, when configured, categorizes) the open entry.
        Coming back clears the flag and opens an entry for the window the probe
        finds; an entry still open at that point is replaced without being
        persisted. */
    method OnIdleStateChanged(idle: bool, now: int, suggestion: Option<string>,
                              projects: Option<seq<Project>>, probe: ForegroundProbe)
      requires Valid() && now >= clock
      modifies `clock, `isIdle, `currentEntry, `persisted, `emitted, `dropped
      ensures Valid()
      ensures isIdle == idle && clock == now
      ensures idle ==> currentEntry == None && dropped == old(dropped)
      ensures idle && old(currentEntry).Some? ==>
        persisted == old(persisted) + [Finish(ai, old(currentEntry).value, now, suggestion, projects)]
      ensures !idle || old(currentEntry).None? ==> persisted == old(persisted)
      ensures !idle ==> (
        var next := ProbeEntry(probe, old(lastWindowTitle), old(lastAppName), now);
        currentEntry == (if next.Some? then next else old(currentEntry)) &&
        dropped == old(dropped) +
          (if next.Some? && old(currentEntry).Some? then [old(currentEntry).value] else []))
    {
      clock := now;
      if idle {
        isIdle := true;
        if currentEntry.Some? {
          var e := Finish(ai, currentEntry.value, now, suggestion, projects);
          Record(e);
          currentEntry := None;
        }
      } else {
        isIdle := false;
        GetCurrentWindowAndCreateEntry(probe, now);
      }
    }

    method GetCurrentWindowAndCreateEntry(probe: ForegroundProbe, now: int)
      requires Valid() && !isIdle && now >= clock
      modifies `clock, `currentEntry, `dropped
      ensures Valid()
      ensures clock == now
      ensures var next := ProbeEntry(probe, lastWindowTitle, lastAppName, now);
        currentEntry == (if next.Some? then next else old(currentEntry)) &&
        dropped == old(dropped) +
          (if next.Some? && old(currentEntry).Some? then [old(currentEntry).value] else [])
    {
      clock := now;
      var next := ProbeEntry(probe, lastWindowTitle, lastAppName, now);
      if next.Some? {
        if currentEntry.Some? {
          dropped := dropped + [currentEntry.value];
        }
        currentEntry := next;
      }
    }

    /** The periodic precaution: an entry open for more than thirty minutes while
        tracking and not idle is closed at `now` and persisted, and an entry is
        opened for the window the probe finds. */
    method CheckIdleTimeout(now: int, probe: ForegroundProbe)
      requires Valid() && now >= clock
      modifies `clock, `currentEntry, `persisted, `emitted, `dropped
      ensures Valid()
      ensures dropped == old(dropped) && clock == now
      ensures var expired := old(isTracking) && !old(isIdle) && old(currentEntry).Some? &&
          now - old(currentEntry).value.startTime > SafetyTimeout;
        (expired ==>
          persisted == old(persisted) + [old(currentEntry).value.(endTime := now)] &&
          currentEntry == ProbeEntry(probe, lastWindowTitle, lastAppName, now)) &&
        (!expired ==> persisted == old(persisted) && currentEntry == old(currentEntry))
    {
      clock := now;
      if !isTracking || isIdle || currentEntry.None? {
        return;
      }
      if now - currentEntry.value.startTime > SafetyTimeout {
        var e := currentEntry.value.(endTime := now);
        Record(e);
        currentEntry := None;
        GetCurrentWindowAndCreateEntry(probe, now);
      }
    }
  }
}
