/** The first-generation signal source (namespace DueTime.TrackingEngine.Services):
    WindowsSystemEvents raises ForegroundChanged from a WinEvent hook and
    IdleStarted / IdleEnded from a one-second timer that compares the time since the
    last user input with an idle threshold. The Win32 calls become parameters: the
    hook handle returned by SetWinEventHook, the GetLastInputInfo reading (None when
    the call fails) and the window probe. */
module EngineEvents {
  import opened Common

  /** EVENT_SYSTEM_FOREGROUND */
  const EventSystemForeground: int := 3
  const TicksPerMillisecond: int := 10_000
  /** The default idle threshold, TimeSpan.FromMinutes(5), in ticks. */
  const DefaultIdleThreshold: int := 5 * TicksPerMinute

  datatype IdleSignal = IdleStarted | IdleEnded

  /** What the callback learns about the window: GetWindowText's result and the
      owning process's name (None when Process.GetProcessById throws), or an
      exception from either call. */
  datatype WindowProbe = WindowUnreadable | Window(title: string, processName: Option<string>)

  // ---------------------------------------------------------------------------
  // Milliseconds since the last input, on the wrapping 32-bit tick counter.

  /** The computation as written: when the counter has wrapped it evaluates
      uint.MaxValue - lastInput + now. */
  function InactiveTicks(lastInput: uint32, now: uint32): (r: int)
    ensures 0 <= r <= UInt32MaxValue
    ensures now >= lastInput ==> r == now as int - lastInput as int
    ensures now < lastInput ==> r == 0x1_0000_0000 + now as int - lastInput as int - 1
  {
    if now >= lastInput then now as int - lastInput as int
    else UInt32MaxValue - lastInput as int + now as int
  }

  /** The elapsed milliseconds on a counter that wraps at 2^32: unsigned
      subtraction, now - lastInput modulo 2^32. */
  function ElapsedTicks(lastInput: uint32, now: uint32): (r: int)
    ensures 0 <= r <= UInt32MaxValue
  {
    (now as int - lastInput as int) % 0x1_0000_0000
  }

  /** The elapsed time is exactly what must be added to the last-input reading, on
      the wrapping counter, to arrive at the current reading; and it is the
      smallest such amount. */
  lemma ElapsedTicksInverse(lastInput: uint32, now: uint32)
    ensures (lastInput as int + ElapsedTicks(lastInput, now)) % 0x1_0000_0000 == now as int
    ensures now >= lastInput ==> ElapsedTicks(lastInput, now) == now as int - lastInput as int
  {
  }

  /** The as-written wrapped branch reports one millisecond less than has elapsed. */
  lemma {:induction false} InactiveTicksUndercounts(lastInput: uint32, now: uint32)
    requires now < lastInput
    ensures InactiveTicks(lastInput, now) == ElapsedTicks(lastInput, now) - 1
  {
    assert (now as int - lastInput as int) % 0x1_0000_0000
      == 0x1_0000_0000 + now as int - lastInput as int;
  }

  /** Input at the last tick before the wrap, read one tick after it: one
      millisecond has passed, the as-written formula says none. */
  lemma InactiveTicksAcrossWrap()
    ensures ElapsedTicks(0xFFFF_FFFF, 0) == 1
    ensures InactiveTicks(0xFFFF_FFFF, 0) == 0
  {
  }

  // ---------------------------------------------------------------------------
  // The idle flag as a function of the inactive time.

  /** The new idle flag and the signal raised, given the old flag. */
  function IdleTransition(idle: bool, inactive: int, threshold: int): (r: (bool, Option<IdleSignal>))
    ensures r.0 <==> inactive >= threshold
    ensures r.1.Some? <==> r.0 != idle
    ensures r.1 == Some(IdleStarted) <==> !idle && r.0
    ensures r.1 == Some(IdleEnded) <==> idle && !r.0
  {
    if !idle && inactive >= threshold then (true, Some(IdleStarted))
    else if idle && inactive < threshold then (false, Some(IdleEnded))
    else (idle, None)
  }

  /** With the default threshold, input at the last tick before the wrap and a
      reading 299999 ms later: five minutes have passed and the idle period
      should begin, but the formula as written counts one millisecond short and
      the timer stays silent. */
  lemma IdleStartMissedAcrossWrap()
    ensures ElapsedTicks(0xFFFF_FFFF, 299_999) * TicksPerMillisecond == DefaultIdleThreshold
    ensures IdleTransition(false, ElapsedTicks(0xFFFF_FFFF, 299_999) * TicksPerMillisecond,
      DefaultIdleThreshold) == (true, Some(IdleStarted))
    ensures IdleTransition(false, InactiveTicks(0xFFFF_FFFF, 299_999) * TicksPerMillisecond,
      DefaultIdleThreshold) == (false, None)
  {
  }

  /** The flag and the signals produced by a run of timer ticks that observed the
      given inactive times (already converted to ticks). */
  function Trace(idle: bool, threshold: int, inactive: seq<int>): (bool, seq<IdleSignal>)
  {
    if inactive == [] then (idle, [])
    else
      var (before, signals) := Trace(idle, threshold, inactive[..|inactive| - 1]);
      var (after, signal) := IdleTransition(before, inactive[|inactive| - 1], threshold);
      (after, signals + (if signal.Some? then [signal.value] else []))
  }

  ghost predicate Alternating(signals: seq<IdleSignal>)
  {
    forall i :: 0 <= i < |signals| - 1 ==> signals[i] != signals[i + 1]
  }

  /** Whatever the readings, IdleStarted and IdleEnded strictly alternate; the
      first one is the one that leaves the initial state (IdleStarted after a
      Start, which clears the flag), and the last one agrees with the final flag. */
  lemma {:induction false} SignalsAlternate(idle: bool, threshold: int, inactive: seq<int>)
    ensures Alternating(Trace(idle, threshold, inactive).1)
    ensures var (final, signals) := Trace(idle, threshold, inactive);
      (signals == [] ==> final == idle) &&
      (signals != [] ==> signals[0] == (if idle then IdleEnded else IdleStarted)) &&
      (signals != [] ==> (signals[|signals| - 1] == IdleStarted <==> final))
  {
    if inactive != [] {
      var prefix := inactive[..|inactive| - 1];
      SignalsAlternate(idle, threshold, prefix);
      var (before, signals) := Trace(idle, threshold, prefix);
      var (after, signal) := IdleTransition(before, inactive[|inactive| - 1], threshold);
      var all := signals + (if signal.Some? then [signal.value] else []);
      assert Trace(idle, threshold, inactive) == (after, all);
      if signal.Some? && signals != [] {
        assert all[|all| - 2] == signals[|signals| - 1];
        forall i | 0 <= i < |all| - 1 ensures all[i] != all[i + 1] {
          if i < |all| - 2 {
            assert all[i] == signals[i] && all[i + 1] == signals[i + 1];
          }
        }
      }
    }
  }

  // ---------------------------------------------------------------------------

  /** The WinEvent callback's filter: only foreground events for a real window
      are forwarded, with the process name empty when it cannot be read. */
  function ForegroundSignal(eventType: int, hwnd: int, probe: WindowProbe): (r: Option<(string, string)>)
    ensures r.Some? <==> eventType == EventSystemForeground && hwnd != 0 && probe.Window?
    ensures r.Some? ==> r.value.0 == probe.title
    ensures r.Some? && probe.processName.None? ==> r.value.1 == ""
    ensures r.Some? && probe.processName.Some? ==> r.value.1 == probe.processName.value
  {
    if eventType != EventSystemForeground || hwnd == 0 then None
    else match probe
      case WindowUnreadable => None
      case Window(title, processName) =>
        Some((title, if processName.Some? then processName.value else ""))
  }

  class WindowsSystemEvents {
    /** _idleThreshold, in ticks */
    const idleThreshold: int
    /** _isIdle */
    var isIdle: bool
    /** _winEventHook; 0 is IntPtr.Zero */
    var hook: int
    /** whether _idleTimer exists and is running */
    var timerRunning: bool

    constructor (threshold: Option<int>)
      ensures idleThreshold == (if threshold.Some? then threshold.value else DefaultIdleThreshold)
      ensures !isIdle && hook == 0 && !timerRunning
    {
      idleThreshold := if threshold.Some? then threshold.value else DefaultIdleThreshold;
      isIdle := false;
      hook := 0;
      timerRunning := false;
    }

    /** Installs the hook; a zero handle makes Start throw before the idle flag is
        reset or the timer started. */
    method Start(newHook: int) returns (ok: bool)
      modifies this
      ensures hook == newHook && (ok <==> newHook != 0)
      ensures ok ==> !isIdle && timerRunning
      ensures !ok ==> isIdle == old(isIdle) && timerRunning == old(timerRunning)
    {
      hook := newHook;
      if newHook == 0 {
        return false;
      }
      isIdle := false;
      timerRunning := true;
      ok := true;
    }

    method Stop()
      modifies this
      ensures hook == 0 && !timerRunning && isIdle == old(isIdle)
    {
      timerRunning := false;
      hook := 0;
    }

    /** One timer tick. A failed GetLastInputInfo throws out of the tick and changes
        nothing; otherwise the flag follows the threshold comparison on the
        inactive time as the source computes it (InactiveTicks, one millisecond
        short across a wrap), and a signal is raised exactly when it flips. */
    method CheckIdleStatus(lastInput: Option<uint32>, now: uint32) returns (signal: Option<IdleSignal>)
      modifies this
      ensures lastInput.None? ==> signal == None && isIdle == old(isIdle)
      ensures lastInput.Some? ==>
        (isIdle, signal) == IdleTransition(old(isIdle),
          InactiveTicks(lastInput.value, now) * TicksPerMillisecond, idleThreshold)
      ensures hook == old(hook) && timerRunning == old(timerRunning)
    {
      signal := None;
      if lastInput.None? {
        return;
      }
      var inactive := InactiveTicks(lastInput.value, now) * TicksPerMillisecond;
      if !isIdle && inactive >= idleThreshold {
        isIdle := true;
        signal := Some(IdleStarted);
      } else if isIdle && inactive < idleThreshold {
        isIdle := false;
        signal := Some(IdleEnded);
      }
    }
  }
}
