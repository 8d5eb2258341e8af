/** The per-sensor table that both temperature/humidity managers keep
    (managers/air_sensor_manager.py, managers/sensor_manager.py), and how one
    received line changes it. The two managers differ in the tag they match
    (`AIRCON` or `DSCT`), the number of sensors they start with and whether a
    line for an ID outside the table is dropped (`knownOnly`). */
module SensorTable {
  import opened Common
  import opened SensorLines

  /** The `status` entry: `'unknown'`, `'active'` or `'timeout'`. */
  datatype Status = Unknown | Active | TimedOut

  /** One sensor's dictionary. `lastUpdate` is the clock reading taken by
      `datetime.now()`, in seconds. */
  datatype Reading = Reading(temp: Option<real>, humi: Option<real>, status: Status, lastUpdate: Option<real>)

  /** `{'temp': None, 'humi': None, 'status': 'unknown', 'last_update': None}` */
  const Blank := Reading(None, None, Unknown, None)

  /** The two Qt signals: `sensor_data_updated` and `all_sensors_updated`. */
  datatype Event =
    | Updated(id: string, reading: Reading)
    | AllUpdated(table: map<string, Reading>)

  /** The table, the `is_scanning` flag and the signals emitted so far. */
  datatype Table = Table(data: map<string, Reading>, scanning: bool, events: seq<Event>)

  /** `f"ID{i:02d}"` */
  function SensorId(i: nat): (id: string)
    requires i < 100
    ensures IsSensorId(id)
  {
    "ID" + [DigitChar(i / 10), DigitChar(i % 10)]
  }

  lemma SensorIdInjective(i: nat, j: nat)
    requires i < 100 && j < 100
    requires SensorId(i) == SensorId(j)
    ensures i == j
  {
    assert SensorId(i)[2] == SensorId(j)[2] && SensorId(i)[3] == SensorId(j)[3];
    assert DigitValue(DigitChar(i / 10)) == i / 10 && DigitValue(DigitChar(j / 10)) == j / 10;
    assert DigitValue(DigitChar(i % 10)) == i % 10 && DigitValue(DigitChar(j % 10)) == j % 10;
  }

  /** The IDs `ID01` .. `IDnn` the table starts with. */
  function Ids(n: nat): set<string>
    requires n < 100
  {
    set i | 1 <= i <= n :: SensorId(i)
  }

  /** The table `__init__` builds: every ID from `Ids(n)`, each blank. */
  function InitialTable(n: nat): (t: map<string, Reading>)
    requires n < 100
  {
    map k | k in Ids(n) :: Blank
  }

  /** A sensor number above `n` is not among the first `n` IDs. */
  lemma NotInitial(n: nat, j: nat)
    requires n < j < 100
    ensures SensorId(j) !in Ids(n)
  {
    if SensorId(j) in Ids(n) {
      var i :| 1 <= i <= n && SensorId(i) == SensorId(j);
      SensorIdInjective(i, j);
    }
  }

  /** The table for `n + 1` sensors is the one for `n` with one more blank entry;
      this is what each round of the constructor's loop adds. */
  lemma InitialTableSnoc(n: nat)
    requires n + 1 < 100
    ensures InitialTable(n + 1) == InitialTable(n)[SensorId(n + 1) := Blank]
  {
    assert Ids(n + 1) == Ids(n) + {SensorId(n + 1)} by {
      forall k | k in Ids(n + 1) ensures k in Ids(n) || k == SensorId(n + 1) {
        var i :| 1 <= i <= n + 1 && SensorId(i) == k;
        if i <= n { assert SensorId(i) in Ids(n); }
      }
      forall k | k in Ids(n) ensures k in Ids(n + 1) {
        var i :| 1 <= i <= n && SensorId(i) == k;
        assert SensorId(i) in Ids(n + 1);
      }
      assert SensorId(n + 1) in Ids(n + 1);
    }
  }

  /** The first `n` IDs are `n` distinct keys. */
  lemma {:induction false} InitialSize(n: nat)
    requires n < 100
    ensures |InitialTable(n).Keys| == n
  {
    if n == 0 {
      assert InitialTable(0).Keys == {};
    } else {
      InitialSize(n - 1);
      InitialTableSnoc(n - 1);
      NotInitial(n - 1, n);
      assert InitialTable(n).Keys == InitialTable(n - 1).Keys + {SensorId(n)};
    }
  }

  /** The loop of `__init__` that fills the table with `n` blank sensors,
      `ID01` first. */
  method BuildInitial(n: nat) returns (d: map<string, Reading>)
    requires n < 100
    ensures d == InitialTable(n) && |d.Keys| == n
  {
    d := map[];
    var i := 1;
    assert d == InitialTable(0);
    while i <= n
      invariant 1 <= i <= n + 1
      invariant d == InitialTable(i - 1)
    {
      InitialTableSnoc(i - 1);
      d := d[SensorId(i) := Blank];
      i := i + 1;
    }
    InitialSize(n);
  }

  /** `float(text)` on the digits-and-dots text a data line carries. */
  function Number(text: string): Option<real>
  {
    PyFloat(text)
  }

  /** One call of `parse_sensor_data(line)` at clock `now`. */
  function Parse(t: Table, tag: string, knownOnly: bool, line: string, now: real): Option<Table>
  {
    Step(t, Classify(tag, line), knownOnly, now)
  }

  /** What a line of kind `k` does to the table. `None` means the call raised
      `ValueError` (a number such as `1.2.3` that `float` refuses); the table is
      then as it was, since both numbers are converted before anything is
      stored, and before the ID is looked up. */
  function Step(t: Table, k: LineKind, knownOnly: bool, now: real): (r: Option<Table>)
    ensures r.Some? ==> r.value.data.Keys <= t.data.Keys + Keys(k)
    ensures r.Some? && knownOnly ==> r.value.data.Keys == t.data.Keys
    ensures r.Some? ==> t.events <= r.value.events
    ensures !t.scanning || k.Other? ==> r == Some(t)
    ensures r.None? ==> t.scanning && k.Data?
    ensures knownOnly && (k.Data? || k.Timeout?) && k.id !in t.data && r.Some? ==> r == Some(t)
  {
    if !t.scanning then Some(t)
    else
      match k
      case Data(id, ttext, htext) =>
        var temp := Number(ttext);
        var humi := Number(htext);
        if temp.None? || humi.None? then None
        else if knownOnly && id !in t.data then Some(t)
        else
          var v := Reading(temp, humi, Active, Some(now));
          Some(t.(data := t.data[id := v], events := t.events + [Updated(id, v)]))
      case Timeout(id) =>
        if knownOnly && id !in t.data then Some(t)
        else
          var v := Reading(None, None, TimedOut, Some(now));
          Some(t.(data := t.data[id := v], events := t.events + [Updated(id, v)]))
      case ScanComplete =>
        Some(t.(scanning := false, events := t.events + [AllUpdated(t.data)]))
      case Other => Some(t)
  }

  /** The IDs a line of this kind may add to the table. */
  function Keys(k: LineKind): set<string>
  {
    match k
    case Data(id, _, _) => {id}
    case Timeout(id) => {id}
    case _ => {}
  }

  /** `reset_all_sensors`: every existing entry back to blank. */
  function Reset(data: map<string, Reading>): (r: map<string, Reading>)
    ensures r.Keys == data.Keys
    ensures forall k :: k in r ==> r[k] == Blank
  {
    map k | k in data :: Blank
  }

  // ---------------------------------------------------------------------------
  // What one line does
  // ---------------------------------------------------------------------------

  /** A data line for an ID the manager accepts stores the two numbers as an
      active reading stamped `now`, and touches no other entry. */
  lemma DataLineStores(t: Table, tag: string, knownOnly: bool, id: string, ttext: string, htext: string,
                       tv: real, hv: real, now: real)
    requires t.scanning
    requires Number(ttext) == Some(tv) && Number(htext) == Some(hv)
    requires IsSensorId(id) && IsNumText(ttext) && IsNumText(htext)
    requires !knownOnly || id in t.data
    ensures var v := Reading(Some(tv), Some(hv), Active, Some(now));
            Parse(t, tag, knownOnly, DataLine(tag, id, ttext, htext), now)
            == Some(Table(t.data[id := v], true, t.events + [Updated(id, v)]))
  {
    DataLineRoundTrip(tag, id, ttext, htext);
  }

  /** A number `float` refuses makes the whole call fail, whatever the ID. */
  lemma BadNumberRaises(t: Table, tag: string, knownOnly: bool, id: string, ttext: string, htext: string, now: real)
    requires t.scanning
    requires IsSensorId(id) && IsNumText(ttext) && IsNumText(htext)
    requires Number(ttext).None? || Number(htext).None?
    ensures Parse(t, tag, knownOnly, DataLine(tag, id, ttext, htext), now).None?
  {
    DataLineRoundTrip(tag, id, ttext, htext);
  }

  /** A timeout line for an ID the manager accepts marks it timed out with no
      values; without the filter that adds the ID when it is new. */
  lemma TimeoutLineMarks(t: Table, tag: string, knownOnly: bool, id: string, now: real)
    requires t.scanning && IsSensorId(id)
    requires !knownOnly || id in t.data
    ensures var r := Parse(t, tag, knownOnly, TimeoutLine(tag, id), now);
            r.Some? && r.value.data == t.data[id := Reading(None, None, TimedOut, Some(now))]
            && r.value.scanning
  {
    TimeoutLineRoundTrip(tag, id);
  }

  /** The scan-complete line ends the scan, leaves every entry as it was and
      reports the whole table. */
  lemma ScanLineEndsScan(t: Table, tag: string, knownOnly: bool, total: nat, success: nat, errors: nat,
                         ms: nat, now: real)
    requires t.scanning
    ensures Parse(t, tag, knownOnly, ScanLine(tag, total, success, errors, ms), now)
            == Some(Table(t.data, false, t.events + [AllUpdated(t.data)]))
  {
    ScanLineRoundTrip(tag, total, success, errors, ms);
  }

  /** With the filter on, no sequence of lines changes the set of IDs. */
  lemma {:induction false} FilteredKeysStable(t: Table, tag: string, lines: seq<string>, now: real)
    ensures var r := ParseAll(t, tag, true, lines, now); r.Some? ==> r.value.data.Keys == t.data.Keys
    decreases |lines|
  {
    if lines != [] {
      var r := Parse(t, tag, true, lines[0], now);
      if r.Some? {
        FilteredKeysStable(r.value, tag, lines[1..], now);
      }
    }
  }

  /** Several lines in a row, stopping at the first that raises. */
  function ParseAll(t: Table, tag: string, knownOnly: bool, lines: seq<string>, now: real): Option<Table>
    decreases |lines|
  {
    if lines == [] then Some(t)
    else
      match Parse(t, tag, knownOnly, lines[0], now)
      case None => None
      case Some(t1) => ParseAll(t1, tag, knownOnly, lines[1..], now)
  }

}
