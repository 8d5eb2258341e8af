/** The sensor polling scheduler (managers/sensor_scheduler.py).

    One cycle asks the AIRCON sensors, then the DSCT sensors, then waits out the
    cycle interval. A 100 ms main timer drives `_process_state_machine`; a
    single-shot timer of `response_timeout` seconds bounds each wait; the sensor
    managers' "all updated" signals end a wait early. Time is `time.time()` in
    seconds. The timeout timer is an armed flag and a deadline; the main timer is a
    flag saying whether the ticks are being delivered. Calls into the two sensor
    managers and emitted signals are recorded in an event log. */
module SensorScheduler {
  import opened Common
  import SerialLink

  datatype State =
    | Idle | AirconRequesting | AirconWaiting | DsctRequesting | DsctWaiting
    | IntervalWaiting | Paused

  datatype Sensors = Aircon | Dsct

  datatype Event =
    | StateChanged(state: State)     // state_changed
    | Requested(sensors: Sensors)    // <manager>.request_sensor_data()
    | Forwarded(sensors: Sensors)    // <sensors>_all_sensors_updated re-emitted

  /** `response_timeout`: the timeout timer is started with int(10.0 * 1000) ms. */
  const ResponseTimeout: real := 10.0
  /** `connection_check_interval` */
  const ConnectionCheckInterval: real := 5.0

  datatype Sched = Sched(
    state: State,
    running: bool,
    mainTimer: bool,             // main_timer is active
    timeoutArmed: bool,          // timeout_timer is active
    deadline: real,              // when the timeout timer fires, if armed
    cycleInterval: real,
    airconEnabled: bool, dsctEnabled: bool,
    hasAircon: bool, hasDsct: bool,   // aircon_manager / dsct_manager are set
    requestStart: Option<real>,
    lastCycle: Option<real>,
    lastCheck: real,
    events: seq<Event>)

  /** The state `__init__` leaves (no sensor managers yet). */
  function Initial(): Sched
  {
    Sched(Idle, false, false, false, 0.0, 5.0, true, true, false, false, None, None, 0.0, [])
  }

  predicate Waiting(st: State) { st == AirconWaiting || st == DsctWaiting }

  /** What holds between two calls into the scheduler: a response is never
      awaited without the timeout timer running, the REQUESTING states are never
      seen from outside, and the main timer only runs while scheduling is on.
      (The converse of the first does not hold: a completion signal may arm the
      timer while scheduling is off, and `start_scheduling` then moves to IDLE
      without stopping it.) */
  predicate Valid(s: Sched)
  {
    (Waiting(s.state) ==> s.timeoutArmed)
    && s.state != AirconRequesting && s.state != DsctRequesting
    && (s.mainTimer ==> s.running)
  }

  lemma InitialValid()
    ensures Valid(Initial()) && Initial().cycleInterval == 5.0
  {
  }

  /** `_set_state`: the change is signalled only when the state differs. */
  function Enter(s: Sched, st: State): (r: Sched)
    ensures r.state == st
    ensures r.events == if s.state == st then s.events else s.events + [StateChanged(st)]
    ensures r == s.(state := st, events := r.events)
  {
    if s.state != st then s.(state := st, events := s.events + [StateChanged(st)]) else s
  }

  /** `start_scheduling` */
  function Start(s: Sched, healthy: bool, now: real): (r: Sched)
    ensures s.running || !healthy ==> r == s
    ensures !s.running && healthy ==> r.running && r.mainTimer && r.state == Idle && r.lastCycle == Some(now)
    ensures Valid(s) ==> Valid(r)
  {
    if s.running then s
    else if !healthy then s
    else Enter(s.(running := true), Idle).(mainTimer := true, lastCycle := Some(now))
  }

  /** `stop_scheduling` */
  function Stop(s: Sched): (r: Sched)
    ensures !r.running && !r.mainTimer && !r.timeoutArmed && r.state == Paused
    ensures Valid(r)
  {
    Enter(s.(running := false, mainTimer := false, timeoutArmed := false), Paused)
  }

  /** `pause_scheduling`: only while running. */
  function Pause(s: Sched): (r: Sched)
    ensures !s.running ==> r == s
    ensures s.running ==> r.state == Paused && !r.mainTimer && !r.timeoutArmed && r.running
    ensures Valid(s) ==> Valid(r)
  {
    if s.running then Enter(s.(mainTimer := false, timeoutArmed := false), Paused) else s
  }

  /** `resume_scheduling`: only from PAUSED while running. */
  function Resume(s: Sched): (r: Sched)
    ensures !(s.running && s.state == Paused) ==> r == s
    ensures s.running && s.state == Paused ==> r.state == Idle && r.mainTimer
    ensures Valid(s) ==> Valid(r)
  {
    if s.running && s.state == Paused then Enter(s, Idle).(mainTimer := true) else s
  }

  /** `set_cycle_interval`: clamped to [1, 360] seconds. */
  function WithCycleInterval(s: Sched, seconds: real): (r: Sched)
    ensures 1.0 <= r.cycleInterval <= 360.0
    ensures 1.0 <= seconds <= 360.0 ==> r.cycleInterval == seconds
    ensures r == s.(cycleInterval := r.cycleInterval)
  {
    s.(cycleInterval := ClampReal(seconds, 1.0, 360.0))
  }

  /** `_start_dsct_request` */
  function StartDsct(s: Sched, now: real): (r: Sched)
    ensures !s.hasDsct ==> r == Enter(s, IntervalWaiting)
    ensures s.hasDsct ==> r.state == DsctWaiting && r.timeoutArmed && r.deadline == now + ResponseTimeout
    ensures s.hasDsct ==> r.events == Enter(s, DsctRequesting).events + [Requested(Dsct), StateChanged(DsctWaiting)]
    ensures r.running == s.running && r.mainTimer == s.mainTimer && r.lastCycle == s.lastCycle
    ensures r.lastCheck == s.lastCheck && r.cycleInterval == s.cycleInterval
    ensures r.hasAircon == s.hasAircon && r.hasDsct == s.hasDsct
    ensures r.airconEnabled == s.airconEnabled && r.dsctEnabled == s.dsctEnabled
    ensures !s.hasDsct ==> r.timeoutArmed == s.timeoutArmed
    ensures (s.mainTimer ==> s.running) ==> Valid(r)
  {
    if !s.hasDsct then Enter(s, IntervalWaiting) else Request(s, Dsct, now)
  }

  function Requesting(g: Sensors): State { if g == Aircon then AirconRequesting else DsctRequesting }
  function WaitingFor(g: Sensors): State { if g == Aircon then AirconWaiting else DsctWaiting }

  /** The common part of `_start_aircon_request` and `_start_dsct_request`:
      REQUESTING, the record of the start, the timeout timer, the request to
      the group's manager, then WAITING. Nothing else changes. */
  function Request(s: Sched, g: Sensors, now: real): (r: Sched)
    ensures r.state == WaitingFor(g) && r.timeoutArmed && r.deadline == now + ResponseTimeout
    ensures r.requestStart == Some(now)
    ensures r.events == Enter(s, Requesting(g)).events + [Requested(g), StateChanged(WaitingFor(g))]
    ensures r == s.(state := r.state, timeoutArmed := true, deadline := r.deadline,
                    requestStart := r.requestStart, events := r.events)
  {
    var s1 := Enter(s, Requesting(g)).(requestStart := Some(now), timeoutArmed := true,
                                        deadline := now + ResponseTimeout);
    Enter(s1.(events := s1.events + [Requested(g)]), WaitingFor(g))
  }

  /** `_move_to_dsct` */
  function ToDsct(s: Sched, now: real): (r: Sched)
    ensures s.dsctEnabled ==> r == StartDsct(s, now)
    ensures !s.dsctEnabled ==> r == Enter(s, IntervalWaiting)
    ensures (s.mainTimer ==> s.running) ==> Valid(r)
  {
    if s.dsctEnabled then StartDsct(s, now) else Enter(s, IntervalWaiting)
  }

  /** `_start_aircon_request` */
  function StartAircon(s: Sched, now: real): (r: Sched)
    ensures !s.hasAircon ==> r == ToDsct(s, now)
    ensures s.hasAircon ==> r.state == AirconWaiting && r.timeoutArmed && r.deadline == now + ResponseTimeout
    ensures s.hasAircon ==> r.events == Enter(s, AirconRequesting).events + [Requested(Aircon), StateChanged(AirconWaiting)]
    ensures r.running == s.running && r.mainTimer == s.mainTimer && r.lastCycle == s.lastCycle
    ensures r.lastCheck == s.lastCheck && r.cycleInterval == s.cycleInterval
    ensures r.hasAircon == s.hasAircon && r.hasDsct == s.hasDsct
    ensures r.airconEnabled == s.airconEnabled && r.dsctEnabled == s.dsctEnabled
    ensures (s.mainTimer ==> s.running) ==> Valid(r)
  {
    if !s.hasAircon then ToDsct(s, now) else Request(s, Aircon, now)
  }

  /** Python truthiness of `last_cycle_time`: None and 0.0 are false. */
  predicate HasLastCycle(s: Sched) { s.lastCycle.Some? && s.lastCycle.value != 0.0 }

  /** Whether this tick runs the health check. */
  predicate CheckDue(s: Sched, now: real) { now - s.lastCheck >= ConnectionCheckInterval }

  /** The IDLE branch of `_process_state_machine`, after the health check. */
  function IdleStep(s: Sched, now: real): Sched
  {
    if HasLastCycle(s) && now - s.lastCycle.value < s.cycleInterval then s
    else if s.airconEnabled then StartAircon(s, now)
    else if s.dsctEnabled then StartDsct(s, now)
    else Enter(s, IntervalWaiting)
  }

  /** One call of `_process_state_machine` at time `now`, which only the main
      timer's expiry delivers; `healthy` is what `is_connection_healthy()` would
      answer (false when there is no port). */
  function Tick(s: Sched, healthy: bool, now: real): (r: Sched)
    requires s.mainTimer
    ensures !s.running ==> r == s
    ensures r.running == s.running && r.cycleInterval == s.cycleInterval
    ensures s.running && CheckDue(s, now) ==> r.lastCheck == now
    ensures !CheckDue(s, now) ==> r.lastCheck == s.lastCheck
    ensures s.running && CheckDue(s, now) && !healthy ==>
              r.state == Paused && !r.mainTimer && !r.timeoutArmed
    ensures s.running && (healthy || !CheckDue(s, now)) && (Waiting(s.state) || s.state == Paused) ==>
              r == s.(lastCheck := r.lastCheck)
    ensures Valid(s) ==> Valid(r)
  {
    if !s.running then s
    else
      var due := CheckDue(s, now);
      Dispatch(if due then s.(lastCheck := now) else s, due && !healthy, now)
  }

  /** A failed health check pauses. */
  lemma TickPauses(s: Sched, healthy: bool, now: real)
    requires s.mainTimer && s.running && CheckDue(s, now) && !healthy
    ensures Tick(s, healthy, now) == Pause(s.(lastCheck := now))
  {
  }

  /** Otherwise the tick goes on from the state, with the check time updated
      when the check was due. */
  lemma TickAdvances(s: Sched, healthy: bool, now: real)
    requires s.mainTimer && s.running && (healthy || !CheckDue(s, now))
    ensures Tick(s, healthy, now) == Dispatch(if CheckDue(s, now) then s.(lastCheck := now) else s, false, now)
  {
  }

  /** The rest of a running tick once the health check is settled: a failed
      check pauses, otherwise IDLE and INTERVAL_WAITING move on. */
  function Dispatch(s: Sched, pause: bool, now: real): (r: Sched)
    requires s.running
    ensures r.running && r.cycleInterval == s.cycleInterval && r.lastCheck == s.lastCheck
    ensures pause ==> r.state == Paused && !r.mainTimer && !r.timeoutArmed
    ensures !pause && (Waiting(s.state) || s.state == Paused) ==> r == s
    ensures Valid(s) ==> Valid(r)
  {
    if pause then Pause(s)
    else match s.state
      case Idle => IdleStep(s, now)
      case IntervalWaiting => Enter(s.(lastCycle := Some(now)), Idle)
      case _ => s
  }

  /** The single-shot timeout timer firing: it fires only while armed and not
      before its deadline, is no longer armed, then `_handle_timeout` runs. */
  function Timeout(s: Sched, now: real): (r: Sched)
    requires s.timeoutArmed && now >= s.deadline
    ensures s.state == AirconWaiting ==> r == ToDsct(s.(timeoutArmed := false), now)
    ensures s.state == DsctWaiting ==> r.state == IntervalWaiting && !r.timeoutArmed
    ensures !Waiting(s.state) ==> r == s.(timeoutArmed := false)
    ensures r.running == s.running && r.mainTimer == s.mainTimer
    ensures Valid(s) ==> Valid(r)
  {
    var s1 := s.(timeoutArmed := false);
    if s.state == AirconWaiting then ToDsct(s1, now)
    else if s.state == DsctWaiting then Enter(s1, IntervalWaiting)
    else s1
  }

  /** `_on_aircon_all_updated`: stop the timeout, forward the data, go on to DSCT. */
  function AirconDone(s: Sched, now: real): (r: Sched)
    ensures r.running == s.running && r.mainTimer == s.mainTimer
    ensures s.events + [Forwarded(Aircon)] <= r.events
    ensures r.state == DsctWaiting || r.state == IntervalWaiting
    ensures s.dsctEnabled && s.hasDsct ==> r.state == DsctWaiting && r.timeoutArmed && r.deadline == now + ResponseTimeout
    ensures Valid(s) ==> Valid(r)
  {
    ToDsct(s.(timeoutArmed := false, events := s.events + [Forwarded(Aircon)]), now)
  }

  /** `_on_dsct_all_updated`: stop the timeout, forward the data, wait for the next cycle. */
  function DsctDone(s: Sched): (r: Sched)
    ensures r.state == IntervalWaiting && !r.timeoutArmed
    ensures r.running == s.running && r.mainTimer == s.mainTimer
    ensures Valid(s) ==> Valid(r)
  {
    Enter(s.(timeoutArmed := false, events := s.events + [Forwarded(Dsct)]), IntervalWaiting)
  }

  // ---------------------------------------------------------------------------
  // Properties
  // ---------------------------------------------------------------------------

  /** In IDLE, with the health check passed or not due, a tick starts a new cycle
      exactly when the cycle interval has elapsed (or no cycle time is recorded):
      AIRCON first if enabled, else DSCT if enabled, else straight to
      INTERVAL_WAITING. */
  lemma IdleTick(s: Sched, healthy: bool, now: real)
    requires s.mainTimer && s.running && s.state == Idle && (healthy || !CheckDue(s, now))
    ensures var r := Tick(s, healthy, now);
            var due := !HasLastCycle(s) || now - s.lastCycle.value >= s.cycleInterval;
            (!due ==> r == s.(lastCheck := r.lastCheck))
            && (due && s.airconEnabled && s.hasAircon ==> r.state == AirconWaiting && r.timeoutArmed)
            && (due && !s.airconEnabled && s.dsctEnabled && s.hasDsct ==> r.state == DsctWaiting && r.timeoutArmed)
            && (due && !s.airconEnabled && !s.dsctEnabled ==> r.state == IntervalWaiting)
            && (due && s.airconEnabled && !s.hasAircon && !s.dsctEnabled ==> r.state == IntervalWaiting)
  {
  }

  /** A tick in INTERVAL_WAITING records the cycle time and returns to IDLE. */
  lemma IntervalTick(s: Sched, healthy: bool, now: real)
    requires s.mainTimer && s.running && s.state == IntervalWaiting && (healthy || !CheckDue(s, now))
    ensures Tick(s, healthy, now).state == Idle && Tick(s, healthy, now).lastCycle == Some(now)
    ensures Tick(s, healthy, now).events == s.events + [StateChanged(Idle)]
  {
  }

  /** No wait lasts forever: whatever the enable flags, a waiting scheduler whose
      timeout timer fires at `t1` (at or after its deadline) is in
      INTERVAL_WAITING at once, or waits for DSCT with a new deadline
      `t1 + 10`, and the firing of that timer ends in INTERVAL_WAITING. */
  lemma TimeoutsEndWaiting(s: Sched, t1: real, t2: real)
    requires Valid(s) && Waiting(s.state) && t1 >= s.deadline && t2 >= t1 + ResponseTimeout
    ensures var s1 := Timeout(s, t1);
            || (s1.state == IntervalWaiting && !s1.timeoutArmed)
            || (s1.state == DsctWaiting && s1.timeoutArmed && s1.deadline == t1 + ResponseTimeout
                && Timeout(s1, t2).state == IntervalWaiting && !Timeout(s1, t2).timeoutArmed)
  {
    var s1 := Timeout(s, t1);
    if s.state == AirconWaiting {
      assert s1 == ToDsct(s.(timeoutArmed := false), t1);
    }
  }

  /** Hence a wait that sees no answer is over by its deadline plus 10 s, when
      each timer fires on time. */
  lemma WaitOverByDeadline(s: Sched)
    requires Valid(s) && Waiting(s.state)
    ensures var s1 := Timeout(s, s.deadline);
            s1.state == IntervalWaiting
            || (s1.timeoutArmed && s1.deadline == s.deadline + ResponseTimeout
                && Timeout(s1, s1.deadline).state == IntervalWaiting)
  {
    TimeoutsEndWaiting(s, s.deadline, s.deadline + ResponseTimeout);
  }

  /** One complete cycle with both sensor groups enabled and answering: the
      requests go out in order AIRCON then DSCT, each answer is forwarded, and the
      scheduler is back in IDLE with the cycle time recorded. */
  lemma FullCycle(s: Sched, t0: real, t1: real, t3: real)
    requires Valid(s) && s.mainTimer && s.state == Idle
    requires s.airconEnabled && s.dsctEnabled && s.hasAircon && s.hasDsct
    requires !HasLastCycle(s) || t0 - s.lastCycle.value >= s.cycleInterval
    requires !CheckDue(s, t0)
    requires t3 - t0 < ConnectionCheckInterval - (t0 - s.lastCheck)
    ensures var r := Tick(DsctDone(AirconDone(Tick(s, true, t0), t1)), true, t3);
            r.state == Idle && r.lastCycle == Some(t3) && Valid(r)
            && r.events == s.events + [StateChanged(AirconRequesting), Requested(Aircon),
                                       StateChanged(AirconWaiting), Forwarded(Aircon),
                                       StateChanged(DsctRequesting), Requested(Dsct),
                                       StateChanged(DsctWaiting), Forwarded(Dsct),
                                       StateChanged(IntervalWaiting), StateChanged(Idle)]
  {
    var a := CycleStarts(s, t0);
    var b := AirconHandsOver(a, t1);
    var c := DsctFinishes(b);
    var r := IntervalEnds(c, t3);
    assert r.events == s.events + [StateChanged(AirconRequesting), Requested(Aircon),
                                   StateChanged(AirconWaiting)]
                                + [Forwarded(Aircon), StateChanged(DsctRequesting), Requested(Dsct),
                                   StateChanged(DsctWaiting)]
                                + [Forwarded(Dsct), StateChanged(IntervalWaiting)]
                                + [StateChanged(Idle)];
  }

  /** The first step of a full cycle: a tick in IDLE requests the AIRCON data. */
  lemma CycleStarts(s: Sched, t0: real) returns (a: Sched)
    requires Valid(s) && s.mainTimer && s.state == Idle && s.airconEnabled && s.hasAircon
    requires !HasLastCycle(s) || t0 - s.lastCycle.value >= s.cycleInterval
    requires !CheckDue(s, t0)
    ensures a == Tick(s, true, t0) && Valid(a) && a.running && a.state == AirconWaiting
    ensures a.events == s.events + [StateChanged(AirconRequesting), Requested(Aircon), StateChanged(AirconWaiting)]
    ensures a.lastCheck == s.lastCheck && a.dsctEnabled == s.dsctEnabled && a.hasDsct == s.hasDsct && a.mainTimer
  {
    a := Tick(s, true, t0);
    assert a == StartAircon(s, t0);
  }

  /** The AIRCON data arriving hands over to the DSCT request. */
  lemma AirconHandsOver(a: Sched, t1: real) returns (b: Sched)
    requires Valid(a) && a.running && a.state == AirconWaiting && a.dsctEnabled && a.hasDsct
    ensures b == AirconDone(a, t1) && Valid(b) && b.running && b.state == DsctWaiting
    ensures b.events == a.events + [Forwarded(Aircon), StateChanged(DsctRequesting), Requested(Dsct),
                                    StateChanged(DsctWaiting)]
    ensures b.lastCheck == a.lastCheck && b.mainTimer == a.mainTimer
  {
    b := AirconDone(a, t1);
  }

  /** The DSCT data arriving ends the requests of the cycle. */
  lemma DsctFinishes(b: Sched) returns (c: Sched)
    requires Valid(b) && b.running && b.state == DsctWaiting
    ensures c == DsctDone(b) && Valid(c) && c.running && c.state == IntervalWaiting
    ensures c.events == b.events + [Forwarded(Dsct), StateChanged(IntervalWaiting)]
    ensures c.lastCheck == b.lastCheck && c.mainTimer == b.mainTimer
  {
    c := DsctDone(b);
  }

  /** The next tick in INTERVAL_WAITING records the cycle time and goes back to IDLE. */
  lemma IntervalEnds(c: Sched, t3: real) returns (r: Sched)
    requires Valid(c) && c.mainTimer && c.state == IntervalWaiting && !CheckDue(c, t3)
    ensures r == Tick(c, true, t3) && Valid(r) && r.state == Idle && r.lastCycle == Some(t3)
    ensures r.events == c.events + [StateChanged(Idle)]
  {
    r := Tick(c, true, t3);
  }

  /** As written, a completion signal acts in any state. An AIRCON completion
      that arrives while PAUSED starts a DSCT request although the main timer is
      stopped; once that request times out the scheduler sits in
      INTERVAL_WAITING, which only a tick leaves, while no tick is delivered and
      `resume_scheduling` (which needs PAUSED) does nothing. */
  lemma CompletionWhilePausedStrands(s: Sched, t1: real, t2: real)
    requires Valid(s) && s.running && s.state == Paused && !s.mainTimer
    requires s.dsctEnabled && s.hasDsct && t2 >= t1 + ResponseTimeout
    ensures var r := Timeout(AirconDone(s, t1), t2);
            r.state == IntervalWaiting && !r.mainTimer && r.running && Resume(r) == r
  {
    var a := AirconDone(s, t1);
    assert a.state == DsctWaiting;
  }

  /** The health check runs at most once per five seconds. */
  lemma HealthCheckRateLimited(s: Sched, now: real, later: real)
    requires s.mainTimer && s.running && CheckDue(s, now) && later - now < ConnectionCheckInterval
    ensures !CheckDue(Tick(s, true, now), later)
  {
  }

  // ---------------------------------------------------------------------------
  // The scheduler object
  // ---------------------------------------------------------------------------

  class SensorScheduler {
    var state: State
    var running: bool
    var mainTimer: bool
    var timeoutArmed: bool
    var deadline: real
    var cycleInterval: real
    var airconEnabled: bool
    var dsctEnabled: bool
    var hasAircon: bool
    var hasDsct: bool
    var requestStart: Option<real>
    var lastCycle: Option<real>
    var lastCheck: real
    var events: seq<Event>
    /** `serial_manager` */
    var link: SerialLink.Link?

    function View(): Sched
      reads this
    {
      Sched(state, running, mainTimer, timeoutArmed, deadline, cycleInterval, airconEnabled,
            dsctEnabled, hasAircon, hasDsct, requestStart, lastCycle, lastCheck, events)
    }

    /** `is_connection_healthy()` of the port, false when there is none. */
    function Healthy(): bool
      reads this, link
    {
      link != null && link.healthy
    }

    constructor (link: SerialLink.Link?)
      ensures View() == Initial() && this.link == link
    {
      state, running, mainTimer, timeoutArmed, deadline := Idle, false, false, false, 0.0;
      cycleInterval := 5.0;
      airconEnabled, dsctEnabled, hasAircon, hasDsct := true, true, false, false;
      requestStart, lastCycle, lastCheck := None, None, 0.0;
      events := [];
      this.link := link;
    }

    /** `set_serial_manager`. Handing the port on to the two sensor
        managers is their own `SetSerialManager`. */
    method SetSerialManager(link: SerialLink.Link?)
      modifies this`link
      ensures this.link == link
    {
      this.link := link;
    }

    /** `set_sensor_managers`: which of the two managers are present. */
    method SetSensorManagers(aircon: bool, dsct: bool)
      modifies this`hasAircon, this`hasDsct
      ensures hasAircon == aircon && hasDsct == dsct
    {
      hasAircon, hasDsct := aircon, dsct;
    }

    method SetState(st: State)
      modifies this`state, this`events
      ensures View() == Enter(old(View()), st)
    {
      if state != st {
        state := st;
        events := events + [StateChanged(st)];
      }
    }

    method StartScheduling(now: real)
      modifies this`running, this`state, this`events, this`mainTimer, this`lastCycle
      ensures View() == Start(old(View()), old(Healthy()), now)
    {
      if running {
        return;
      }
      if link == null || !link.healthy {
        return;
      }
      ghost var s0 := View();
      running := true;
      assert View() == s0.(running := true);
      SetState(Idle);
      assert View() == Enter(s0.(running := true), Idle);
      mainTimer := true;
      lastCycle := Some(now);
    }

    method StopScheduling()
      modifies this`running, this`mainTimer, this`timeoutArmed, this`state, this`events
      ensures View() == Stop(old(View()))
    {
      ghost var s0 := View();
      running := false;
      mainTimer := false;
      timeoutArmed := false;
      assert View() == s0.(running := false, mainTimer := false, timeoutArmed := false);
      SetState(Paused);
    }

    method PauseScheduling()
      modifies this`mainTimer, this`timeoutArmed, this`state, this`events
      ensures View() == Pause(old(View()))
    {
      if running {
        ghost var s0 := View();
        mainTimer := false;
        timeoutArmed := false;
        assert View() == s0.(mainTimer := false, timeoutArmed := false);
        SetState(Paused);
      }
    }

    method ResumeScheduling()
      modifies this`state, this`events, this`mainTimer
      ensures View() == Resume(old(View()))
    {
      if running && state == Paused {
        ghost var s0 := View();
        SetState(Idle);
        assert View() == Enter(s0, Idle);
        mainTimer := true;
      }
    }

    method ManualRequest(sensors: Sensors)
      modifies this`events
      ensures var present := if sensors == Aircon then hasAircon else hasDsct;
              events == old(events) + if present then [Requested(sensors)] else []
    {
      if (sensors == Aircon && hasAircon) || (sensors == Dsct && hasDsct) {
        events := events + [Requested(sensors)];
      }
    }

    method SetCycleInterval(seconds: real)
      modifies this`cycleInterval
      ensures View() == WithCycleInterval(old(View()), seconds)
    {
      cycleInterval := ClampReal(seconds, 1.0, 360.0);
    }

    method ProcessStateMachine(now: real)
      requires mainTimer
      modifies this`lastCheck, this`mainTimer, this`timeoutArmed, this`state, this`events, this`lastCycle, this`requestStart, this`deadline
      ensures View() == Tick(old(View()), old(Healthy()), now)
    {
      if !running {
        return;
      }
      ghost var s0 := View();
      ghost var healthy := Healthy();
      if now - lastCheck >= ConnectionCheckInterval {
        lastCheck := now;
        assert View() == s0.(lastCheck := now);
        if link == null || !link.healthy {
          TickPauses(s0, healthy, now);
          PauseScheduling();
          return;
        }
      }
      TickAdvances(s0, healthy, now);
      Advance(now);
    }

    /** The state part of `_process_state_machine`, after the health check:
        IDLE starts a cycle once the interval has passed, INTERVAL_WAITING
        goes back to IDLE. */
    method Advance(now: real)
      requires running
      modifies this`mainTimer, this`timeoutArmed, this`state, this`events, this`lastCycle, this`requestStart, this`deadline
      ensures View() == Dispatch(old(View()), false, now)
    {
      if state == Idle {
        if lastCycle.Some? && lastCycle.value != 0.0 && now - lastCycle.value < cycleInterval {
          return;
        }
        if airconEnabled {
          StartAirconRequest(now);
        } else if dsctEnabled {
          StartDsctRequest(now);
        } else {
          SetState(IntervalWaiting);
        }
      } else if state == IntervalWaiting {
        ghost var s0 := View();
        lastCycle := Some(now);
        assert View() == s0.(lastCycle := Some(now));
        SetState(Idle);
      }
    }

    method StartAirconRequest(now: real)
      modifies this`state, this`events, this`requestStart, this`timeoutArmed, this`deadline
      ensures View() == StartAircon(old(View()), now)
    {
      if !hasAircon {
        MoveToDsct(now);
        return;
      }
      RequestSensors(Aircon, now);
    }

    method StartDsctRequest(now: real)
      modifies this`state, this`events, this`requestStart, this`timeoutArmed, this`deadline
      ensures View() == StartDsct(old(View()), now)
    {
      if !hasDsct {
        SetState(IntervalWaiting);
        return;
      }
      RequestSensors(Dsct, now);
    }

    /** Ask one group of sensors for its readings and wait for them. */
    method RequestSensors(g: Sensors, now: real)
      modifies this`state, this`events, this`requestStart, this`timeoutArmed, this`deadline
      ensures View() == Request(old(View()), g, now)
    {
      ghost var s0 := View();
      SetState(Requesting(g));
      ghost var s1 := Enter(s0, Requesting(g));
      assert View() == s1;
      requestStart, timeoutArmed, deadline := Some(now), true, now + ResponseTimeout;
      events := events + [Requested(g)];
      assert View() == s1.(requestStart := Some(now), timeoutArmed := true, deadline := now + ResponseTimeout,
                           events := s1.events + [Requested(g)]);
      SetState(WaitingFor(g));
    }

    method MoveToDsct(now: real)
      modifies this`state, this`events, this`requestStart, this`timeoutArmed, this`deadline
      ensures View() == ToDsct(old(View()), now)
    {
      if dsctEnabled {
        StartDsctRequest(now);
      } else {
        SetState(IntervalWaiting);
      }
    }

    /** The timeout timer fires: it is single-shot, so it is no longer armed. */
    method HandleTimeout(now: real)
      requires timeoutArmed && now >= deadline
      modifies this`state, this`events, this`requestStart, this`timeoutArmed, this`deadline
      ensures View() == Timeout(old(View()), now)
    {
      timeoutArmed := false;
      if state == AirconWaiting {
        MoveToDsct(now);
      } else if state == DsctWaiting {
        SetState(IntervalWaiting);
      }
    }

    method OnAirconAllUpdated(now: real)
      modifies this`state, this`events, this`requestStart, this`timeoutArmed, this`deadline
      ensures View() == AirconDone(old(View()), now)
    {
      ghost var s0 := View();
      timeoutArmed := false;
      events := events + [Forwarded(Aircon)];
      assert View() == s0.(timeoutArmed := false, events := s0.events + [Forwarded(Aircon)]);
      MoveToDsct(now);
    }

    method OnDsctAllUpdated()
      modifies this`timeoutArmed, this`events, this`state
      ensures View() == DsctDone(old(View()))
    {
      ghost var s0 := View();
      timeoutArmed := false;
      events := events + [Forwarded(Dsct)];
      assert View() == s0.(timeoutArmed := false, events := s0.events + [Forwarded(Dsct)]);
      SetState(IntervalWaiting);
    }
  }
}
