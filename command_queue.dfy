/** The priority command queue (managers/command_queue_manager.py).

    Three FIFO bands, HIGH before NORMAL before LOW. A 50 ms timer calls
    `_process_queue`, which sends at most one command per call, and only when the
    queue is not paused, not already dispatching, the port is connected and the
    minimum spacing since the last dispatch has passed. A failed send is retried
    up to `max_retries` times: HIGH commands go back to the front of their band,
    the others to the back. Qt signals and callbacks are recorded in an event log.

    `Queue` is the state as a value, with one pure function per operation; the
    class `CommandQueueManager` holds the same state in fields and its methods are
    proved to move it exactly as those functions say. */
module CommandQueue {
  import opened Common
  import SerialLink

  datatype Priority = Low | Normal | High

  /** The numeric value of `CommandPriority`. */
  function Rank(p: Priority): (n: nat)
    ensures n <= 2
  {
    match p
    case Low => 0
    case Normal => 1
    case High => 2
  }

  /** The `Command` dataclass; the callback is represented only by its presence. */
  datatype Command = Command(payload: string, priority: Priority, hasCallback: bool,
                             retryCount: int, maxRetries: int, timestamp: real)

  /** The dataclass default of `max_retries`. */
  const MaxRetries := 3

  /** The error text `_handle_send_failure` reports when the port refused the
      command (a Korean phrase meaning "send failed" in the source). */
  const SendFailed := "send failed"

  /** Signals and callback invocations, in the order they happen. */
  datatype Event =
    | Sent(payload: string)                    // command_sent
    | Failed(payload: string, error: string)   // command_failed
    | Callback(ok: bool, arg: string)          // cmd.callback(ok, arg)
    | StatusChanged(size: nat)                 // queue_status_changed

  /** What `serial_manager.send_serial_command` did: returned True, returned a
      false value, or raised an exception with this message. */
  datatype SendOutcome = Accepted | Refused | Raised(message: string)

  function ErrorText(o: SendOutcome): string
  {
    match o
    case Raised(m) => m
    case _ => SendFailed
  }

  datatype Queue = Queue(
    high: seq<Command>, normal: seq<Command>, low: seq<Command>,
    paused: bool, processing: bool,
    lastCommandTime: real,   // seconds, as time.time()
    minInterval: real,       // seconds
    totalSent: nat, totalFailed: nat,
    events: seq<Event>)

  /** The state `__init__` leaves. */
  function Initial(): Queue
  {
    Queue([], [], [], false, false, 0.0, 0.05, 0, 0, [])
  }

  function Band(q: Queue, p: Priority): seq<Command>
  {
    match p
    case High => q.high
    case Normal => q.normal
    case Low => q.low
  }

  function WithBand(q: Queue, p: Priority, s: seq<Command>): (r: Queue)
    ensures Band(r, p) == s
    ensures forall o :: o != p ==> Band(r, o) == Band(q, o)
    ensures Settings(r) == Settings(q) && r.events == q.events
  {
    match p
    case High => q.(high := s)
    case Normal => q.(normal := s)
    case Low => q.(low := s)
  }

  /** Everything but the three bands and the event log. */
  function Settings(q: Queue): (bool, bool, real, real, nat, nat)
  {
    (q.paused, q.processing, q.lastCommandTime, q.minInterval, q.totalSent, q.totalFailed)
  }

  function Size(q: Queue): nat { |q.high| + |q.normal| + |q.low| }

  /** A queued command of band `p`: it carries that priority and has retries left. */
  predicate Retryable(p: Priority, c: Command)
  {
    c.priority == p && 0 <= c.retryCount < c.maxRetries
  }

  /** Every command of a band carries that band's priority and has retries left. */
  predicate InBand(p: Priority, s: seq<Command>)
  {
    forall i :: 0 <= i < |s| ==> Retryable(p, s[i])
  }

  /** What holds between two timer calls. */
  predicate Valid(q: Queue)
  {
    InBand(High, q.high) && InBand(Normal, q.normal) && InBand(Low, q.low) && !q.processing
  }

  lemma InBandConcat(p: Priority, a: seq<Command>, b: seq<Command>)
    ensures InBand(p, a + b) <==> InBand(p, a) && InBand(p, b)
  {
    if InBand(p, a) && InBand(p, b) {
      forall i | 0 <= i < |a + b| ensures Retryable(p, (a + b)[i]) {
        if i >= |a| { assert (a + b)[i] == b[i - |a|]; }
      }
    }
    if InBand(p, a + b) {
      forall i | 0 <= i < |a| ensures Retryable(p, a[i]) {
        assert (a + b)[i] == a[i];
      }
      forall i | 0 <= i < |b| ensures Retryable(p, b[i]) {
        assert (a + b)[|a| + i] == b[i];
      }
    }
  }

  lemma InitialValid()
    ensures Valid(Initial()) && Size(Initial()) == 0 && Initial().minInterval == 0.05
  {
  }

  function NewCommand(payload: string, p: Priority, hasCallback: bool, now: real): (c: Command)
    ensures c.retryCount == 0 && c.maxRetries == 3 && Retryable(p, c)
  {
    Command(payload, p, hasCallback, 0, MaxRetries, now)
  }

  /** `add_command`: the new command goes to the back of its own band, nothing else moves. */
  function Add(q: Queue, payload: string, p: Priority, hasCallback: bool, now: real): (r: Queue)
    ensures Band(r, p) == Band(q, p) + [NewCommand(payload, p, hasCallback, now)]
    ensures forall o :: o != p ==> Band(r, o) == Band(q, o)
    ensures Size(r) == Size(q) + 1
    ensures Settings(r) == Settings(q)
    ensures r.events == q.events + [StatusChanged(Size(r))]
    ensures Valid(q) ==> Valid(r)
  {
    var q1 := WithBand(q, p, Band(q, p) + [NewCommand(payload, p, hasCallback, now)]);
    q1.(events := q.events + [StatusChanged(Size(q1))])
  }

  /** `clear_queue(priority)`: one band, or every band when no priority is given. */
  function Clear(q: Queue, p: Option<Priority>): (r: Queue)
    ensures p.None? ==> Size(r) == 0
    ensures p.Some? ==> Band(r, p.value) == [] && forall o :: o != p.value ==> Band(r, o) == Band(q, o)
    ensures Settings(r) == Settings(q)
    ensures r.events == q.events + [StatusChanged(Size(r))]
    ensures Valid(q) ==> Valid(r)
  {
    var q1 := match p
      case None => q.(high := [], normal := [], low := [])
      case Some(b) => WithBand(q, b, []);
    q1.(events := q.events + [StatusChanged(Size(q1))])
  }

  /** `_get_next_command`: pop the head of the highest non-empty band. */
  function Next(q: Queue): (r: (Option<Command>, Queue))
    ensures r.0.None? <==> Size(q) == 0
    ensures r.0.None? ==> r.1 == q
    ensures r.0.Some? && Valid(q) ==>
              var c := r.0.value;
              Band(q, c.priority) != [] && Band(q, c.priority)[0] == c
              && Band(r.1, c.priority) == Band(q, c.priority)[1..]
              && (forall o :: o != c.priority ==> Band(r.1, o) == Band(q, o))
    ensures r.0.Some? && Valid(q) ==> forall o :: Rank(o) > Rank(r.0.value.priority) ==> Band(q, o) == []
    ensures r.0.Some? && Valid(q) ==> Retryable(r.0.value.priority, r.0.value) && Valid(r.1)
    ensures Settings(r.1) == Settings(q) && r.1.events == q.events
  {
    if q.high != [] then (Some(q.high[0]), q.(high := q.high[1..]))
    else if q.normal != [] then (Some(q.normal[0]), q.(normal := q.normal[1..]))
    else if q.low != [] then (Some(q.low[0]), q.(low := q.low[1..]))
    else (None, q)
  }

  /** The events a command that finally failed with `error` produces. */
  function FailureEvents(c: Command, error: string): seq<Event>
  {
    [Failed(c.payload, error)] + if c.hasCallback then [Callback(false, error)] else []
  }

  /** The events a command that was sent produces. */
  function SuccessEvents(c: Command): seq<Event>
  {
    [Sent(c.payload)] + if c.hasCallback then [Callback(true, c.payload)] else []
  }

  /** `_handle_send_failure`: count the attempt; re-queue while retries remain
      (HIGH at the front, others at the back), otherwise report the failure. */
  function Failure(q: Queue, c: Command, error: string): (r: Queue)
    ensures var c1 := c.(retryCount := c.retryCount + 1);
            if c1.retryCount < c.maxRetries then
              Band(r, c.priority) == (if c.priority == High then [c1] + Band(q, c.priority)
                                      else Band(q, c.priority) + [c1])
              && (forall o :: o != c.priority ==> Band(r, o) == Band(q, o))
              && r.events == q.events && r.totalFailed == q.totalFailed
            else
              (forall o :: Band(r, o) == Band(q, o))
              && r.events == q.events + FailureEvents(c, error) && r.totalFailed == q.totalFailed + 1
    ensures r.totalSent == q.totalSent && r.paused == q.paused && r.processing == q.processing
    ensures r.lastCommandTime == q.lastCommandTime && r.minInterval == q.minInterval
    ensures Valid(q) && Retryable(c.priority, c) ==> Valid(r)
  {
    var c1 := c.(retryCount := c.retryCount + 1);
    if c1.retryCount < c1.maxRetries then
      InBandConcat(c.priority, [c1], Band(q, c.priority));
      InBandConcat(c.priority, Band(q, c.priority), [c1]);
      match c.priority
      case High => q.(high := [c1] + q.high)
      case Normal => q.(normal := q.normal + [c1])
      case Low => q.(low := q.low + [c1])
    else
      q.(totalFailed := q.totalFailed + 1, events := q.events + FailureEvents(c, error))
  }

  /** `_send_command`, given what the port did with the command. */
  function Send(q: Queue, c: Command, outcome: SendOutcome): (r: Queue)
    ensures outcome == Accepted ==>
              (forall o :: Band(r, o) == Band(q, o)) && r.totalSent == q.totalSent + 1
              && r.totalFailed == q.totalFailed && r.events == q.events + SuccessEvents(c)
    ensures outcome != Accepted ==> r == Failure(q, c, ErrorText(outcome))
    ensures Valid(q) && Retryable(c.priority, c) ==> Valid(r)
  {
    match outcome
    case Accepted =>
      q.(totalSent := q.totalSent + 1, events := q.events + SuccessEvents(c))
    case Refused => Failure(q, c, SendFailed)
    case Raised(m) => Failure(q, c, m)
  }

  /** The gate of `_process_queue`: not dispatching, not paused, connected, and
      at least `min_command_interval` since the last dispatch. */
  predicate Ready(q: Queue, connected: bool, now: real)
  {
    !q.processing && !q.paused && connected && now - q.lastCommandTime >= q.minInterval
  }

  /** One call of `_process_queue` at time `now`. */
  function Tick(q: Queue, connected: bool, now: real, outcome: SendOutcome): (r: Queue)
    ensures !Ready(q, connected, now) || Size(q) == 0 ==> r == q
    ensures Ready(q, connected, now) && Size(q) > 0 ==>
              r.lastCommandTime == now && Size(q) - 1 <= Size(r) <= Size(q)
              && r.totalSent + r.totalFailed <= q.totalSent + q.totalFailed + 1
    ensures r.paused == q.paused && r.minInterval == q.minInterval
    ensures Valid(q) ==> Valid(r)
  {
    if q.processing || q.paused then q
    else if !connected then q
    else if now - q.lastCommandTime < q.minInterval then q
    else
      var (cmd, q1) := Next(q);
      if cmd.None? then q
      else Send(q1, cmd.value, outcome).(lastCommandTime := now)
  }

  /** A tick that is ready and finds a command sends it and records the time. */
  lemma TickSends(q: Queue, connected: bool, now: real, outcome: SendOutcome, c: Command, q1: Queue)
    requires Ready(q, connected, now) && Next(q) == (Some(c), q1)
    ensures Tick(q, connected, now, outcome) == Send(q1, c, outcome).(lastCommandTime := now)
  {
  }

  /** The commands one call of `_process_queue` hands to the port: the next
      one when the gate is open and a command waits, otherwise none. */
  function Dispatched(q: Queue, connected: bool, now: real): seq<string>
  {
    if Ready(q, connected, now) && Size(q) > 0 then [Next(q).0.value.payload] else []
  }

  /** When the gate is open and a command waits, the tick puts on the port the
      head of the highest non-empty band, leaves every other band as it was and
      stamps the time. */
  lemma DispatchesHead(q: Queue, connected: bool, now: real, outcome: SendOutcome)
    requires Valid(q) && Ready(q, connected, now) && Size(q) > 0
    ensures var c := Next(q).0.value;
            var r := Tick(q, connected, now, outcome);
            && Band(q, c.priority) != [] && Band(q, c.priority)[0] == c
            && (forall o :: Rank(o) > Rank(c.priority) ==> Band(q, o) == [])
            && Dispatched(q, connected, now) == [c.payload]
            && (forall o :: o != c.priority ==> Band(r, o) == Band(q, o))
            && r.lastCommandTime == now
  {
    var (c, q1) := Next(q);
    TickSends(q, connected, now, outcome, c.value, q1);
  }

  /** Sending leaves the dispatch flag as it was. */
  lemma SendKeepsProcessing(q: Queue, c: Command, outcome: SendOutcome)
    ensures Send(q.(processing := true), c, outcome) == Send(q, c, outcome).(processing := true)
  {
    if outcome != Accepted {
      var c1 := c.(retryCount := c.retryCount + 1);
      if c1.retryCount < c1.maxRetries {
        match c.priority
        case High =>
        case Normal =>
        case Low =>
      }
    }
  }

  /** `set_command_interval`: the spacing is clamped to [0.01, 1.0] seconds. */
  function WithInterval(q: Queue, interval: real): (r: Queue)
    ensures 0.01 <= r.minInterval <= 1.0
    ensures 0.01 <= interval <= 1.0 ==> r.minInterval == interval
    ensures r == q.(minInterval := r.minInterval)
  {
    q.(minInterval := ClampReal(interval, 0.01, 1.0))
  }

  // ---------------------------------------------------------------------------
  // Several ticks
  // ---------------------------------------------------------------------------

  /** Timer calls at the given times, every send having the same outcome. */
  function Run(q: Queue, connected: bool, times: seq<real>, outcome: SendOutcome): Queue
    decreases |times|
  {
    if times == [] then q else Run(Tick(q, connected, times[0], outcome), connected, times[1..], outcome)
  }

  /** Successive times, each at least `gap` after the one before, starting from `last`. */
  predicate Spaced(last: real, gap: real, times: seq<real>)
    decreases |times|
  {
    times == [] || (times[0] - last >= gap && Spaced(times[0], gap, times[1..]))
  }

  /** Leaving out the last times keeps the rest spaced. */
  lemma {:induction false} SpacedPrefix(last: real, gap: real, times: seq<real>, n: nat)
    requires Spaced(last, gap, times) && n <= |times|
    ensures Spaced(last, gap, times[..n])
    decreases n
  {
    if n > 0 {
      SpacedPrefix(times[0], gap, times[1..], n - 1);
      assert times[..n][1..] == times[1..][..n - 1];
    }
  }

  /** `r` is `q` after `n` failed sends of the HIGH command at its head:
      below the command's `max_retries` it is still at the head, its count
      `n` higher; at the limit it is gone, with one failure counted and
      reported. The other bands, the sent count and the settings do not
      change. */
  predicate FailedHead(q: Queue, r: Queue, n: nat, error: string)
    requires q.high != []
  {
    var c := q.high[0];
    r.normal == q.normal && r.low == q.low && r.totalSent == q.totalSent
    && r.paused == q.paused && r.minInterval == q.minInterval
    && if n < c.maxRetries - c.retryCount then
         r.high == [c.(retryCount := c.retryCount + n)] + q.high[1..]
         && r.events == q.events && r.totalFailed == q.totalFailed
       else
         r.high == q.high[1..]
         && r.events == q.events + FailureEvents(c, error)
         && r.totalFailed == q.totalFailed + 1
  }

  /** A HIGH command at the head of the queue whose sends keep failing stays at
      the head, one retry further per tick, until its `max_retries`-th attempt;
      that attempt removes it, counts one failure and reports it once. Nothing
      else in the queue moves. */
  lemma {:induction false} HighRetries(q: Queue, times: seq<real>, outcome: SendOutcome)
    requires Valid(q) && !q.paused && q.high != []
    requires outcome != Accepted
    requires Spaced(q.lastCommandTime, q.minInterval, times)
    requires |times| <= q.high[0].maxRetries - q.high[0].retryCount
    ensures var r := Run(q, true, times, outcome);
            Valid(r) && FailedHead(q, r, |times|, ErrorText(outcome))
            && (times != [] ==> r.lastCommandTime == times[|times| - 1])
    decreases |times|
  {
    if times == [] {
      assert Retryable(High, q.high[0]);
      NoFailures(q, ErrorText(outcome));
    } else {
      var q1 := FirstFailure(q, times, outcome);
      var rest := times[1..];
      if rest == [] {
        assert Run(q1, true, rest, outcome) == q1;
      } else {
        var r := Run(q, true, times, outcome);
        HighRetries(q1, rest, outcome);
        FailedMore(q, q1, r, |rest|, |times|, ErrorText(outcome));
        LastOfRest(times);
      }
    }
  }

  lemma LastOfRest(times: seq<real>)
    requires |times| >= 2
    ensures times[1..][|times| - 2] == times[|times| - 1]
  {
  }

  /** The first tick of a failing run, and the other times run after it. */
  lemma FirstFailure(q: Queue, times: seq<real>, outcome: SendOutcome) returns (q1: Queue)
    requires Valid(q) && !q.paused && q.high != [] && outcome != Accepted
    requires times != [] && Spaced(q.lastCommandTime, q.minInterval, times)
    ensures Valid(q1) && q1.lastCommandTime == times[0] && FailedHead(q, q1, 1, ErrorText(outcome))
    ensures Spaced(q1.lastCommandTime, q1.minInterval, times[1..])
    ensures Run(q, true, times, outcome) == Run(q1, true, times[1..], outcome)
  {
    q1 := Tick(q, true, times[0], outcome);
    HeadFails(q, times[0], outcome);
  }

  lemma NoFailures(q: Queue, error: string)
    requires q.high != [] && Retryable(High, q.high[0])
    ensures FailedHead(q, q, 0, error)
  {
    var c := q.high[0];
    assert c.(retryCount := c.retryCount + 0) == c;
    assert [c] + q.high[1..] == q.high;
  }

  /** One failed send followed by `n` more is `n + 1` failed sends. */
  lemma FailedMore(q: Queue, q1: Queue, r: Queue, n: nat, m: nat, error: string)
    requires q.high != [] && FailedHead(q, q1, 1, error)
    requires n > 0 && q1.high != [] && FailedHead(q1, r, n, error)
    requires m == n + 1 <= q.high[0].maxRetries - q.high[0].retryCount
    ensures FailedHead(q, r, m, error)
  {
    var c := q.high[0];
    var c1 := c.(retryCount := c.retryCount + 1);
    assert q1.high == [c1] + q.high[1..];
    assert q1.high[0] == c1 && q1.high[1..] == q.high[1..];
    assert c1.(retryCount := c1.retryCount + n) == c.(retryCount := c.retryCount + (n + 1));
  }

  /** One tick on a HIGH command at the head whose send fails. */
  lemma HeadFails(q: Queue, now: real, outcome: SendOutcome)
    requires Valid(q) && !q.paused && q.high != [] && outcome != Accepted
    requires now - q.lastCommandTime >= q.minInterval
    ensures var r := Tick(q, true, now, outcome);
            Valid(r) && r.lastCommandTime == now && FailedHead(q, r, 1, ErrorText(outcome))
  {
    var c := q.high[0];
    assert Ready(q, true, now);
    assert Tick(q, true, now, outcome) == Failure(q.(high := q.high[1..]), c, ErrorText(outcome)).(lastCommandTime := now);
  }

  /** A command created by `add_command` and always refused is attempted exactly
      three times: after two failing ticks it is still at the head of HIGH, after
      the third it is gone and reported once. */
  lemma UrgentCommandTriedThreeTimes(q: Queue, payload: string, hasCallback: bool,
                                     added: real, times: seq<real>)
    requires Valid(q) && !q.paused && q.high == []
    requires |times| == 3
    requires Spaced(q.lastCommandTime, q.minInterval, times)
    ensures var q0 := Add(q, payload, High, hasCallback, added);
            var c := NewCommand(payload, High, hasCallback, added);
            Run(q0, true, times[..2], Refused).high == [c.(retryCount := 2)]
            && Run(q0, true, times[..2], Refused).totalFailed == q.totalFailed
            && Run(q0, true, times, Refused).high == []
            && Run(q0, true, times, Refused).totalFailed == q.totalFailed + 1
            && Run(q0, true, times, Refused).events == q0.events + FailureEvents(c, SendFailed)
  {
    var q0 := Add(q, payload, High, hasCallback, added);
    assert q0.high == [NewCommand(payload, High, hasCallback, added)];
    SpacedPrefix(q.lastCommandTime, q.minInterval, times, 2);
    HighRetries(q0, times[..2], Refused);
    HighRetries(q0, times, Refused);
  }

  /** A refused NORMAL command with retries left goes to the back of its band,
      behind the commands that were waiting after it. */
  lemma NormalRetryGoesToBack(q: Queue, now: real)
    requires Valid(q) && Ready(q, true, now) && q.high == [] && q.normal != []
    requires q.normal[0].retryCount + 1 < q.normal[0].maxRetries
    ensures var r := Tick(q, true, now, Refused);
            r.normal == q.normal[1..] + [q.normal[0].(retryCount := q.normal[0].retryCount + 1)]
            && r.high == [] && r.low == q.low && r.events == q.events
  {
    var (c, q1) := Next(q);
    assert c == Some(q.normal[0]);
  }

  /** A successful send removes the command for good, counts it and runs its
      callback with (True, command) once. */
  lemma SentCommandLeaves(q: Queue, now: real)
    requires Valid(q) && Ready(q, true, now) && Size(q) > 0
    ensures var (c, q1) := Next(q);
            var r := Tick(q, true, now, Accepted);
            c.Some? && (forall o :: Band(r, o) == Band(q1, o))
            && r.totalSent == q.totalSent + 1 && r.totalFailed == q.totalFailed
            && r.events == q.events + SuccessEvents(c.value) && Size(r) == Size(q) - 1
  {
  }

  // ---------------------------------------------------------------------------
  // The manager object
  // ---------------------------------------------------------------------------

  /** `get_queue_info()` */
  datatype QueueInfo = QueueInfo(highSize: nat, normalSize: nat, lowSize: nat,
                                 totalSent: nat, totalFailed: nat, isProcessing: bool)

  class CommandQueueManager {
    var high: seq<Command>
    var normal: seq<Command>
    var low: seq<Command>
    var paused: bool
    var processing: bool
    var lastCommandTime: real
    var minCommandInterval: real
    var totalSent: nat
    var totalFailed: nat
    var events: seq<Event>
    var link: SerialLink.Link?

    function View(): Queue
      reads this
    {
      Queue(high, normal, low, paused, processing, lastCommandTime, minCommandInterval,
            totalSent, totalFailed, events)
    }

    constructor (link: SerialLink.Link?)
      ensures View() == Initial() && this.link == link
    {
      high, normal, low := [], [], [];
      processing, paused := false, false;
      lastCommandTime, minCommandInterval := 0.0, 0.05;
      totalSent, totalFailed := 0, 0;
      events := [];
      this.link := link;
    }

    method SetSerialManager(link: SerialLink.Link?)
      modifies this`link
      ensures this.link == link
    {
      this.link := link;
    }

    method UpdateQueueStatus()
      modifies this`events
      ensures events == old(events) + [StatusChanged(Size(View()))]
    {
      events := events + [StatusChanged(|high| + |normal| + |low|)];
    }

    method AddCommand(payload: string, priority: Priority, hasCallback: bool, now: real)
      returns (ok: bool)
      modifies this
      ensures ok
      ensures View() == Add(old(View()), payload, priority, hasCallback, now)
      ensures link == old(link)
    {
      var cmd := Command(payload, priority, hasCallback, 0, MaxRetries, now);
      if priority == High {
        high := high + [cmd];
      } else if priority == Normal {
        normal := normal + [cmd];
      } else {
        low := low + [cmd];
      }
      UpdateQueueStatus();
      return true;
    }

    method AddUrgentCommand(payload: string, hasCallback: bool, now: real) returns (ok: bool)
      modifies this
      ensures ok
      ensures View() == Add(old(View()), payload, High, hasCallback, now)
      ensures link == old(link)
    {
      ok := AddCommand(payload, High, hasCallback, now);
    }

    method ClearQueue(priority: Option<Priority>)
      modifies this
      ensures View() == Clear(old(View()), priority)
      ensures link == old(link)
    {
      match priority {
        case None =>
          high, normal, low := [], [], [];
        case Some(High) =>
          high := [];
        case Some(Normal) =>
          normal := [];
        case Some(Low) =>
          low := [];
      }
      UpdateQueueStatus();
    }

    method ProcessQueue(now: real, outcome: SendOutcome)
      modifies this, if link == null then {} else {link}
      ensures View() == Tick(old(View()), link != null && link.connected, now, outcome)
      ensures link == old(link)
      ensures link != null ==> link.sent == old(link.sent) + Dispatched(old(View()), link.connected, now)
      ensures link != null ==> link.connected == old(link.connected) && link.healthy == old(link.healthy)
                               && link.written == old(link.written)
    {
      if processing || paused {
        return;
      }
      if link == null || !link.connected {
        return;
      }
      if now - lastCommandTime < minCommandInterval {
        return;
      }
      ghost var q0 := View();
      var command := GetNextCommand();
      if command.Some? {
        ghost var q1 := View();
        TickSends(q0, true, now, outcome, command.value, q1);
        processing := true;
        SendCommand(command.value, outcome);
        SendKeepsProcessing(q1, command.value, outcome);
        processing := false;
        lastCommandTime := now;
      }
    }

    method GetNextCommand() returns (command: Option<Command>)
      modifies this
      ensures (command, View()) == Next(old(View()))
      ensures link == old(link)
    {
      if high != [] {
        command := Some(high[0]);
        high := high[1..];
      } else if normal != [] {
        command := Some(normal[0]);
        normal := normal[1..];
      } else if low != [] {
        command := Some(low[0]);
        low := low[1..];
      } else {
        command := None;
      }
    }

    /** `_send_command`: the command goes to `send_serial_command` on every
        attempt; `outcome` is what that call reports. */
    method SendCommand(cmd: Command, outcome: SendOutcome)
      modifies this, if link == null then {} else {link}
      ensures View() == Send(old(View()), cmd, outcome)
      ensures link == old(link)
      ensures link != null ==> link.sent == old(link.sent) + [cmd.payload]
      ensures link != null ==> link.connected == old(link.connected) && link.healthy == old(link.healthy)
                               && link.written == old(link.written)
    {
      if link != null {
        link.SendSerialCommand(cmd.payload);
      }
      match outcome {
        case Accepted =>
          totalSent := totalSent + 1;
          events := events + [Sent(cmd.payload)];
          if cmd.hasCallback {
            events := events + [Callback(true, cmd.payload)];
          }
        case Refused =>
          HandleSendFailure(cmd, SendFailed);
        case Raised(m) =>
          HandleSendFailure(cmd, m);
      }
    }

    method HandleSendFailure(cmd: Command, error: string)
      modifies this
      ensures View() == Failure(old(View()), cmd, error)
      ensures link == old(link)
    {
      var c := cmd.(retryCount := cmd.retryCount + 1);
      if c.retryCount < c.maxRetries {
        if c.priority == High {
          high := [c] + high;
        } else if c.priority == Normal {
          normal := normal + [c];
        } else {
          low := low + [c];
        }
      } else {
        totalFailed := totalFailed + 1;
        events := events + [Failed(c.payload, error)];
        if c.hasCallback {
          events := events + [Callback(false, error)];
        }
      }
    }

    method GetQueueInfo() returns (info: QueueInfo)
      ensures info.highSize == |high| && info.normalSize == |normal| && info.lowSize == |low|
      ensures info.highSize + info.normalSize + info.lowSize == Size(View())
      ensures info.totalSent == totalSent && info.totalFailed == totalFailed
      ensures info.isProcessing == processing
    {
      info := QueueInfo(|high|, |normal|, |low|, totalSent, totalFailed, processing);
    }

    method SetCommandInterval(interval: real)
      modifies this`minCommandInterval
      ensures View() == WithInterval(old(View()), interval)
    {
      minCommandInterval := ClampReal(interval, 0.01, 1.0);
    }

    method PauseQueue()
      modifies this`paused
      ensures paused
    {
      paused := true;
    }

    method ResumeQueue()
      modifies this`paused
      ensures !paused
    {
      paused := false;
    }
  }
}
