/** The first-generation tracking engine (namespace DueTime.TrackingEngine.Services):
    a TrackingService that turns foreground-change and idle start/end signals into
    closed time entries. The repository it writes to and the subscribers of its
    TimeEntryRecorded event are modelled as two logs on the object itself. */
module EngineTracking {
  import opened Common
  import opened Timeline

  class TrackingService {
    /** _currentEntry: the open entry, if any. */
    var currentEntry: Option<TimeEntry>
    /** _isIdle */
    var isIdle: bool
    /** Every entry handed to ITimeEntryRepository.AddTimeEntryAsync, in order. */
    var persisted: seq<TimeEntry>
    /** Every entry delivered through TimeEntryRecorded, in order. */
    var emitted: seq<TimeEntry>
    /** Open entries that were discarded without being persisted. */
    ghost var dropped: seq<TimeEntry>
    /** The latest DateTime.Now any handler has observed. */
    ghost var clock: int

    /** The open entry is the last thing that happened: it starts no earlier than
        the last persisted entry ends and has not yet been given a project. */
    ghost predicate OpenEntryFits()
      reads this
    {
      currentEntry.Some? ==>
        Horizon(persisted, MinValue) <= currentEntry.value.startTime <= clock &&
        currentEntry.value.startTime == currentEntry.value.endTime &&
        currentEntry.value.projectId == None
    }

    ghost predicate Valid()
      reads this
    {
      persisted == emitted &&
      WellFormed(persisted) && Chained(persisted) &&
      MinValue <= Horizon(persisted, MinValue) <= clock &&
      OpenEntryFits() &&
      (isIdle ==> currentEntry.None?)
    }

    constructor ()
      ensures Valid()
      ensures currentEntry == None && !isIdle && persisted == [] && emitted == [] && dropped == []
      ensures clock == MinValue
    {
      currentEntry := None;
      isIdle := false;
      persisted := [];
      emitted := [];
      dropped := [];
      clock := MinValue;
    }

    /** Start forgets any open entry without persisting it and clears the idle flag. */
    method Start()
      requires Valid()
      modifies this
      ensures Valid()
      ensures currentEntry == None && !isIdle
      ensures persisted == old(persisted) && emitted == old(emitted) && clock == old(clock)
      ensures dropped == old(dropped) + (if old(currentEntry).Some? then [old(currentEntry).value] else [])
    {
      if currentEntry.Some? {
        dropped := dropped + [currentEntry.value];
      }
      currentEntry := None;
      isIdle := false;
    }

    /** Stop closes the open entry at `now` (unless idle), persists and announces it. */
    method Stop(now: int)
      requires Valid() && now >= clock
      modifies this
      ensures Valid()
      ensures currentEntry == None && isIdle == old(isIdle) && dropped == old(dropped)
      ensures old(currentEntry).Some? ==>
        persisted == old(persisted) + [old(currentEntry).value.(endTime := now)]
      ensures old(currentEntry).None? ==> persisted == old(persisted)
      ensures clock == now
    {
      clock := now;
      if currentEntry.Some? && !isIdle {
        var e := currentEntry.value.(endTime := now);
        AppendClosed(persisted, MinValue, e);
        persisted := persisted + [e];
        emitted := emitted + [e];
        currentEntry := None;
      }
    }

    /** While idle the change is ignored; otherwise the open entry is closed at
        `now` and a new one opened for the new window. */
    method OnForegroundChanged(title: string, app: string, now: int)
      requires Valid() && now >= clock
      modifies this
      ensures Valid()
      ensures isIdle == old(isIdle) && dropped == old(dropped) && clock == now
      ensures old(isIdle) ==> currentEntry == old(currentEntry) && persisted == old(persisted)
      ensures !old(isIdle) ==> currentEntry == Some(OpenEntry(title, app, now))
      ensures !old(isIdle) && old(currentEntry).Some? ==>
        persisted == old(persisted) + [old(currentEntry).value.(endTime := now)]
      ensures !old(isIdle) && old(currentEntry).None? ==> persisted == old(persisted)
    {
      clock := now;
      if isIdle {
        return;
      }
      if currentEntry.Some? {
        var e := currentEntry.value.(endTime := now);
        AppendClosed(persisted, MinValue, e);
        persisted := persisted + [e];
        emitted := emitted + [e];
      }
      currentEntry := Some(OpenEntry(title, app, now));
    }

    /** The first idle start closes the open entry at `now`; a repeated one does nothing. */
    method OnIdleStarted(now: int)
      requires Valid() && now >= clock
      modifies this
      ensures Valid()
      ensures isIdle && currentEntry == None && dropped == old(dropped) && clock == now
      ensures !old(isIdle) && old(currentEntry).Some? ==>
        persisted == old(persisted) + [old(currentEntry).value.(endTime := now)]
      ensures old(isIdle) || old(currentEntry).None? ==> persisted == old(persisted)
    {
      clock := now;
      if isIdle {
        return;
      }
      isIdle := true;
      if currentEntry.Some? {
        var e := currentEntry.value.(endTime := now);
        AppendClosed(persisted, MinValue, e);
        persisted := persisted + [e];
        emitted := emitted + [e];
        currentEntry := None;
      }
    }

    /** Idle end only clears the flag; the next foreground change opens an entry. */
    method OnIdleEnded()
      requires Valid()
      modifies this
      ensures Valid()
      ensures !isIdle && currentEntry == old(currentEntry) && persisted == old(persisted)
      ensures emitted == old(emitted) && dropped == old(dropped) && clock == old(clock)
    {
      if !isIdle {
        return;
      }
      isIdle := false;
    }
  }

  /** Working in "A", going idle, coming back and switching to "A" again records
      two separate entries for "A" with the idle gap between them: the tracker
      never merges across an idle period. */
  method IdleSplitsActivity(t0: int, t1: int, t2: int, t3: int) returns (log: seq<TimeEntry>)
    requires 0 <= t0 < t1 < t2 <= t3
    ensures |log| == 2
    ensures log[0].windowTitle == "A" && log[1].windowTitle == "A"
    ensures log[0].startTime == t0 && log[0].endTime == t1
    ensures log[1].startTime == t2 && log[1].endTime == t3
    ensures log[0].endTime < log[1].startTime
  {
    var service := new TrackingService();
    service.Start();
    service.OnForegroundChanged("A", "app", t0);
    service.OnIdleStarted(t1);
    service.OnForegroundChanged("B", "app", t1);
    service.OnIdleEnded();
    service.OnForegroundChanged("A", "app", t2);
    service.Stop(t3);
    log := service.persisted;
  }

  /** The same window reported twice in a row is not merged: the first interval is
      closed and a fresh one opened at the second signal. */
  method RepeatedSignalSplits(t0: int, t1: int, t2: int) returns (log: seq<TimeEntry>)
    requires 0 <= t0 <= t1 <= t2
    ensures |log| == 2 && log[0].windowTitle == log[1].windowTitle == "A"
    ensures log[0].endTime == log[1].startTime == t1
  {
    var service := new TrackingService();
    service.Start();
    service.OnForegroundChanged("A", "app", t0);
    service.OnForegroundChanged("A", "app", t1);
    service.Stop(t2);
    log := service.persisted;
  }
}
