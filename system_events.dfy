/** The second-generation signal source (namespace DueTime.Tracking):
    WindowsSystemEvents polls once a second. Each iteration first re-evaluates
    the idle state from GetLastInputInfo and raises IdleStateChanged when it
    flips, then, unless idle, reads the foreground window and raises
    WindowChanged when the title or application differs from the last one it
    reported. The Win32 readings of one iteration are a Sample; the events an
    iteration raises are returned in order. */
module SystemEvents {
  import opened Common

  /** IdleThresholdMs: five minutes. */
  const IdleThresholdMs: int := 300000

  datatype SourceEvent =
    | WindowChanged(windowTitle: string, applicationName: string)
    | IdleStateChanged(isIdle: bool)

  /** One polling iteration's readings: GetLastInputInfo's dwTime (None when the
      call fails or throws), Environment.TickCount as a uint, and the window probe. */
  datatype Sample = Sample(lastInput: Option<uint32>, tickCount: uint32, foreground: ForegroundProbe)

  /** The state the source keeps between iterations. */
  datatype Monitor = Monitor(lastWindowTitle: string, lastAppName: string, isIdle: bool)

  /** (uint)Environment.TickCount - dwTime, in unchecked 32-bit arithmetic. */
  function IdleTime(lastInput: uint32, tickCount: uint32): (r: int)
    ensures 0 <= r <= UInt32MaxValue
    ensures (lastInput as int + r) % 0x1_0000_0000 == tickCount as int
  {
    (tickCount as int - lastInput as int) % 0x1_0000_0000
  }

  /** CheckIdleState: the new state and the events it raises. */
  function IdleStep(m: Monitor, lastInput: Option<uint32>, tickCount: uint32): (r: (Monitor, seq<SourceEvent>))
    ensures r.0.lastWindowTitle == m.lastWindowTitle && r.0.lastAppName == m.lastAppName
    ensures lastInput.Some? ==> (r.0.isIdle <==> IdleTime(lastInput.value, tickCount) >= IdleThresholdMs)
    ensures lastInput.None? ==> r.0 == m
    ensures r.1 == (if r.0.isIdle != m.isIdle then [IdleStateChanged(r.0.isIdle)] else [])
  {
    if lastInput.None? then (m, [])
    else
      var idle := IdleTime(lastInput.value, tickCount) >= IdleThresholdMs;
      if idle != m.isIdle then (m.(isIdle := idle), [IdleStateChanged(idle)]) else (m, [])
  }

  /** CheckActiveWindow: the new state and the events it raises. */
  function WindowStep(m: Monitor, probe: ForegroundProbe): (r: (Monitor, seq<SourceEvent>))
    ensures r.0.isIdle == m.isIdle
    ensures !probe.ForegroundWindow? ==> r == (m, [])
    ensures probe.ForegroundWindow? ==>
      r.0.lastWindowTitle == probe.title &&
      r.0.lastAppName == ProcessNameOrUnknown(probe.processName)
    ensures r.1 == (if r.0 != m then [WindowChanged(r.0.lastWindowTitle, r.0.lastAppName)] else [])
  {
    match probe
    case ForegroundWindow(title, processName) =>
      var app := ProcessNameOrUnknown(processName);
      if title != m.lastWindowTitle || app != m.lastAppName then
        (m.(lastWindowTitle := title, lastAppName := app), [WindowChanged(title, app)])
      else (m, [])
    case _ => (m, [])
  }

  /** One iteration of MonitorWindowChanges. */
  function Step(m: Monitor, s: Sample): (Monitor, seq<SourceEvent>)
  {
    var (m1, e1) := IdleStep(m, s.lastInput, s.tickCount);
    if m1.isIdle then (m1, e1)
    else
      var (m2, e2) := WindowStep(m1, s.foreground);
      (m2, e1 + e2)
  }

  /** An iteration is the idle check followed, unless now idle, by the window
      check. */
  lemma StepOfParts(m: Monitor, s: Sample, mid: Monitor, e1: seq<SourceEvent>, m2: Monitor, e2: seq<SourceEvent>)
    requires (mid, e1) == IdleStep(m, s.lastInput, s.tickCount)
    requires mid.isIdle ==> m2 == mid && e2 == []
    requires !mid.isIdle ==> (m2, e2) == WindowStep(mid, s.foreground)
    ensures Step(m, s) == (m2, e1 + e2)
  {
    if mid.isIdle {
      assert e1 + e2 == e1;
    }
  }

  /** A run of iterations, in order. */
  function Run(m: Monitor, samples: seq<Sample>): (Monitor, seq<SourceEvent>)
  {
    if samples == [] then (m, [])
    else
      var (m1, e1) := Run(m, samples[..|samples| - 1]);
      var (m2, e2) := Step(m1, samples[|samples| - 1]);
      (m2, e1 + e2)
  }

  // ---------------------------------------------------------------------------
  // What a subscriber can rely on.

  /** What a subscriber knows after seeing `events`, starting from `m`: the last
      reported window and the last reported idle state. */
  function Observe(m: Monitor, events: seq<SourceEvent>): Monitor
  {
    if events == [] then m
    else
      var o := Observe(m, events[..|events| - 1]);
      match events[|events| - 1]
      case WindowChanged(t, a) => o.(lastWindowTitle := t, lastAppName := a)
      case IdleStateChanged(b) => o.(isIdle := b)
  }

  /** Every event carries news: an idle event reports the opposite of the last
      reported idle state, and a window event is raised only while not idle and
      names a window different from the last one reported. */
  ghost predicate Consistent(m: Monitor, events: seq<SourceEvent>)
  {
    events == [] ||
    (Consistent(m, events[..|events| - 1]) &&
     var o := Observe(m, events[..|events| - 1]);
     match events[|events| - 1]
     case WindowChanged(t, a) => !o.isIdle && (t != o.lastWindowTitle || a != o.lastAppName)
     case IdleStateChanged(b) => b != o.isIdle)
  }

  lemma {:induction false} ObserveConcat(m: Monitor, a: seq<SourceEvent>, b: seq<SourceEvent>)
    ensures Observe(m, a + b) == Observe(Observe(m, a), b)
    ensures Consistent(m, a) && Consistent(Observe(m, a), b) ==> Consistent(m, a + b)
    decreases |b|
  {
    if b != [] {
      var b' := b[..|b| - 1];
      assert (a + b)[..|a + b| - 1] == a + b';
      assert (a + b)[|a + b| - 1] == b[|b| - 1];
      ObserveConcat(m, a, b');
    } else {
      assert a + b == a;
    }
  }

  lemma SingleEvent(m: Monitor, e: SourceEvent)
    ensures Observe(m, [e]) == match e
      case WindowChanged(t, a) => m.(lastWindowTitle := t, lastAppName := a)
      case IdleStateChanged(b) => m.(isIdle := b)
    ensures Consistent(m, [e]) <==> match e
      case WindowChanged(t, a) => !m.isIdle && (t != m.lastWindowTitle || a != m.lastAppName)
      case IdleStateChanged(b) => b != m.isIdle
  {
    assert [e][..0] == [];
  }

  lemma {:induction false} StepConsistent(m: Monitor, s: Sample)
    ensures Consistent(m, Step(m, s).1)
    ensures Observe(m, Step(m, s).1) == Step(m, s).0
  {
    var (m1, e1) := IdleStep(m, s.lastInput, s.tickCount);
    if e1 != [] {
      SingleEvent(m, e1[0]);
    }
    assert Consistent(m, e1) && Observe(m, e1) == m1;
    if !m1.isIdle {
      var (m2, e2) := WindowStep(m1, s.foreground);
      if e2 != [] {
        SingleEvent(m1, e2[0]);
      }
      assert Consistent(m1, e2) && Observe(m1, e2) == m2;
      ObserveConcat(m, e1, e2);
    }
  }

  /** Whatever the readings, the events of a run are consistent with the source's
      state, and the state at the end is exactly what a subscriber has been told. */
  lemma {:induction false} RunConsistent(m: Monitor, samples: seq<Sample>)
    ensures Consistent(m, Run(m, samples).1)
    ensures Observe(m, Run(m, samples).1) == Run(m, samples).0
  {
    if samples != [] {
      var prefix := samples[..|samples| - 1];
      RunConsistent(m, prefix);
      var (m1, e1) := Run(m, prefix);
      StepConsistent(m1, samples[|samples| - 1]);
      ObserveConcat(m, e1, Step(m1, samples[|samples| - 1]).1);
    }
  }

  /** Idle events strictly alternate: between two idle events that are adjacent
      among the idle events, the reported state flips. */
  lemma {:induction false} IdleEventsAlternate(m: Monitor, events: seq<SourceEvent>, i: int, j: int)
    requires Consistent(m, events)
    requires 0 <= i < j < |events| && events[i].IdleStateChanged? && events[j].IdleStateChanged?
    requires forall k :: i < k < j ==> events[k].WindowChanged?
    ensures events[i].isIdle != events[j].isIdle
  {
    ConsistentPrefix(m, events, j + 1);
    var p := events[..j + 1];
    assert p[..j] == events[..j];
    WindowEventsKeepIdle(m, events[..j], i + 1);
    assert events[..j][..i + 1] == events[..i + 1];
    assert Observe(m, events[..i + 1]).isIdle == events[i].isIdle by {
      assert events[..i + 1][..i] == events[..i];
    }
  }

  /** The first idle event after a start that left the source not idle reports
      that the user went idle. */
  lemma {:induction false} FirstIdleEventIsIdleStart(m: Monitor, events: seq<SourceEvent>, j: int)
    requires Consistent(m, events) && !m.isIdle
    requires 0 <= j < |events| && events[j].IdleStateChanged?
    requires forall k :: 0 <= k < j ==> events[k].WindowChanged?
    ensures events[j].isIdle
  {
    ConsistentPrefix(m, events, j + 1);
    var p := events[..j + 1];
    assert p[..j] == events[..j];
    WindowEventsKeepIdle(m, events[..j], 0);
    assert events[..j][..0] == [];
  }

  lemma {:induction false} ConsistentPrefix(m: Monitor, events: seq<SourceEvent>, n: int)
    requires Consistent(m, events) && 0 <= n <= |events|
    ensures Consistent(m, events[..n])
    decreases |events| - n
  {
    if n < |events| {
      assert events[..|events| - 1][..n] == events[..n];
      ConsistentPrefix(m, events[..|events| - 1], n);
    } else {
      assert events[..n] == events;
    }
  }

  /** Window events do not change the reported idle state. */
  lemma {:induction false} WindowEventsKeepIdle(m: Monitor, events: seq<SourceEvent>, n: int)
    requires 0 <= n <= |events|
    requires forall k :: n <= k < |events| ==> events[k].WindowChanged?
    ensures Observe(m, events).isIdle == Observe(m, events[..n]).isIdle
    decreases |events| - n
  {
    if n < |events| {
      var p := events[..|events| - 1];
      assert p[..n] == events[..n];
      WindowEventsKeepIdle(m, p, n);
    } else {
      assert events[..n] == events;
    }
  }

  // ---------------------------------------------------------------------------

  class WindowsSystemEvents {
    var lastWindowTitle: string
    var lastAppName: string
    var isIdle: bool
    /** Whether the monitor task has been started and not cancelled. */
    var running: bool

    function State(): Monitor
      reads `lastWindowTitle, `lastAppName, `isIdle
    {
      Monitor(lastWindowTitle, lastAppName, isIdle)
    }

    constructor ()
      ensures State() == Monitor("", "", false) && !running
    {
      lastWindowTitle := "";
      lastAppName := "";
      isIdle := false;
      running := false;
    }

    /** Start launches the monitor task; it does not reset the idle flag or the
        last reported window. */
    method Start()
      modifies this
      ensures running && State() == old(State())
    {
      running := true;
    }

    method Stop()
      modifies this
      ensures !running && State() == old(State())
    {
      running := false;
    }

    method CheckIdleState(lastInput: Option<uint32>, tickCount: uint32) returns (events: seq<SourceEvent>)
      modifies `isIdle
      ensures (State(), events) == IdleStep(old(State()), lastInput, tickCount)
    {
      events := [];
      if lastInput.Some? {
        var idleTime := IdleTime(lastInput.value, tickCount);
        var currentlyIdle := idleTime >= IdleThresholdMs;
        if currentlyIdle != isIdle {
          isIdle := currentlyIdle;
          events := [IdleStateChanged(isIdle)];
        }
      }
    }

    method CheckActiveWindow(probe: ForegroundProbe) returns (events: seq<SourceEvent>)
      modifies `lastWindowTitle, `lastAppName
      ensures (State(), events) == WindowStep(old(State()), probe)
    {
      events := [];
      if probe.ForegroundWindow? {
        var title := probe.title;
        var appName := "Unknown";
        if probe.processName.Some? {
          appName := probe.processName.value;
        }
        if title != lastWindowTitle || appName != lastAppName {
          lastWindowTitle := title;
          lastAppName := appName;
          events := [WindowChanged(title, appName)];
        }
      }
    }

    /** The polling loop, one iteration per sample until cancellation. The events
        it raises are consistent with what subscribers were told before, and its
        final state is what they have been told. */
    method MonitorWindowChanges(samples: seq<Sample>) returns (events: seq<SourceEvent>)
      modifies `lastWindowTitle, `lastAppName, `isIdle
      ensures (State(), events) == Run(old(State()), samples)
      ensures Consistent(old(State()), events) && Observe(old(State()), events) == State()
    {
      events := [];
      ghost var start := State();
      var i := 0;
      while i < |samples|
        invariant 0 <= i <= |samples|
        invariant (State(), events) == Run(start, samples[..i])
      {
        assert samples[..i + 1][..i] == samples[..i];
        ghost var before := State();
        var idleEvents := CheckIdleState(samples[i].lastInput, samples[i].tickCount);
        ghost var mid := State();
        var windowEvents: seq<SourceEvent> := [];
        if !isIdle {
          windowEvents := CheckActiveWindow(samples[i].foreground);
        }
        StepOfParts(before, samples[i], mid, idleEvents, State(), windowEvents);
        events := events + (idleEvents + windowEvents);
        i := i + 1;
      }
      assert samples[..i] == samples;
      RunConsistent(start, samples);
    }
  }
}
