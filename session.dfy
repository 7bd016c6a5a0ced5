/** The second-generation tracker wired to the signal source it subscribes to:
    TrackingService.Start subscribes to WindowsSystemEvents and starts it, Stop
    unsubscribes and stops it, and each polling iteration delivers the events it
    raises to the tracker's handlers, in order. */
module Session {
  import opened Common
  import SystemEvents
  import Tracking

  /** What a handler observes from outside: the time, the AI client's suggestion,
      the project repository's answer and the foreground probe. */
  datatype Environment = Environment(now: int, suggestion: Option<string>,
                                     projects: Option<seq<Project>>, probe: ForegroundProbe)

  class TrackingSession {
    const source: SystemEvents.WindowsSystemEvents
    const tracker: Tracking.TrackingService

    /** The tracker's idle flag mirrors the source's, and the source runs exactly
        while the tracker is tracking. */
    ghost predicate Valid()
      reads this, source, tracker
    {
      tracker.Valid() &&
      source.isIdle == tracker.isIdle &&
      source.running == tracker.isTracking
    }

    constructor ()
      ensures Valid() && fresh(source) && fresh(tracker)
      ensures !tracker.isTracking && tracker.persisted == [] && tracker.dropped == []
    {
      source := new SystemEvents.WindowsSystemEvents();
      tracker := new Tracking.TrackingService();
    }

    method Start()
      requires Valid()
      modifies source, tracker
      ensures Valid() && tracker.isTracking
      ensures tracker.dropped == old(tracker.dropped) && tracker.persisted == old(tracker.persisted)
    {
      if !tracker.isTracking {
        tracker.Start();
        source.Start();
      }
    }

    method Stop(now: int)
      requires Valid() && now >= tracker.clock
      modifies source, tracker
      ensures Valid() && !tracker.isTracking
      ensures tracker.dropped == old(tracker.dropped)
    {
      var wasTracking := tracker.isTracking;
      tracker.Stop(now);
      if wasTracking {
        source.Stop();
      }
    }

    /** One polling iteration with its events delivered: the idle check first,
        then, unless idle, the window check. Because the source raises an idle
        event only when its state flips, and the tracker's flag follows it, the
        tracker never receives "idle ended" while an entry is open, so no entry is
        ever discarded unpersisted. */
    method Poll(sample: SystemEvents.Sample, env: Environment)
      requires Valid() && tracker.isTracking && env.now >= tracker.clock
      modifies source, tracker
      ensures Valid() && tracker.isTracking
      ensures tracker.dropped == old(tracker.dropped)
      ensures old(tracker.persisted) <= tracker.persisted
      ensures old(tracker.clock) <= tracker.clock <= env.now
    {
      var idleEvents := source.CheckIdleState(sample.lastInput, sample.tickCount);
      if idleEvents != [] {
        tracker.OnIdleStateChanged(idleEvents[0].isIdle, env.now, env.suggestion, env.projects, env.probe);
      }
      if !source.isIdle {
        var windowEvents := source.CheckActiveWindow(sample.foreground);
        if windowEvents != [] {
          tracker.OnWindowChanged(windowEvents[0].windowTitle, windowEvents[0].applicationName,
                                  env.now, env.suggestion, env.projects);
        }
      }
    }

    /** The tracker's one-minute timer. */
    method TimerTick(env: Environment)
      requires Valid() && env.now >= tracker.clock
      modifies tracker
      ensures Valid()
      ensures tracker.dropped == old(tracker.dropped)
      ensures old(tracker.persisted) <= tracker.persisted
    {
      tracker.CheckIdleTimeout(env.now, env.probe);
    }

    /** A whole tracking run: polling iterations at non-decreasing times. No entry
        is lost, and the persisted log stays chained. */
    method Track(samples: seq<SystemEvents.Sample>, envs: seq<Environment>)
      requires Valid() && tracker.isTracking && |envs| == |samples|
      requires forall i :: 0 <= i < |envs| ==> envs[i].now >= tracker.clock
      requires forall i, j :: 0 <= i < j < |envs| ==> envs[i].now <= envs[j].now
      modifies source, tracker
      ensures Valid() && tracker.isTracking
      ensures tracker.dropped == old(tracker.dropped)
      ensures old(tracker.persisted) <= tracker.persisted
    {
      var i := 0;
      while i < |samples|
        invariant 0 <= i <= |samples|
        invariant Valid() && tracker.isTracking
        invariant tracker.dropped == old(tracker.dropped)
        invariant old(tracker.persisted) <= tracker.persisted
        invariant forall k :: i <= k < |envs| ==> envs[k].now >= tracker.clock
      {
        Poll(samples[i], envs[i]);
        i := i + 1;
      }
    }
  }
}
