/** `SensorManager` (managers/sensor_manager.py): the twelve DSCT
    temperature/humidity sensors. There is no filter on the ID: a line for an
    ID outside ID01..ID12 adds it to the table. This manager also still has its
    own auto-refresh timer. */
module DsctSensors {
  import opened Common
  import opened SensorLines
  import opened SensorTable
  import SerialLink

  const Tag := "DSCT"
  const SensorCount := 12
  const RequestCommand := "$CMD,DSCT,TH"

  /** ID13 .. ID99 are taken in as they come: a data line for one of them,
      read while scanning, adds its ID to the table. */
  lemma UnlistedIdAdded(t: Table, j: nat, ttext: string, htext: string, tv: real, hv: real, now: real)
    requires SensorCount < j < 100
    requires t.data.Keys == Ids(SensorCount) && t.scanning
    requires IsNumText(ttext) && IsNumText(htext) && Number(ttext) == Some(tv) && Number(htext) == Some(hv)
    ensures var r := Parse(t, Tag, false, DataLine(Tag, SensorId(j), ttext, htext), now);
            r.Some? && r.value.data.Keys == Ids(SensorCount) + {SensorId(j)}
            && SensorId(j) !in t.data
            && r.value.data[SensorId(j)] == Reading(Some(tv), Some(hv), Active, Some(now))
  {
    NotInitial(SensorCount, j);
    DataLineStores(t, Tag, false, SensorId(j), ttext, htext, tv, hv, now);
    var v := Reading(Some(tv), Some(hv), Active, Some(now));
    assert t.data[SensorId(j) := v].Keys == t.data.Keys + {SensorId(j)};
  }

  class SensorManager {
    /** `sensor_data` */
    var sensorData: map<string, Reading>
    /** `is_scanning` */
    var isScanning: bool
    /** The `sensor_data_updated` / `all_sensors_updated` signals emitted so far. */
    var events: seq<Event>
    /** `serial_manager` */
    var link: SerialLink.Link?
    /** Whether `auto_refresh_timer` is running. */
    var autoRefreshActive: bool
    /** `auto_refresh_interval`, in milliseconds. */
    var autoRefreshInterval: int

    function View(): Table
      reads this
    {
      Table(sensorData, isScanning, events)
    }

    constructor (link: SerialLink.Link?)
      ensures sensorData == InitialTable(SensorCount)
      ensures |sensorData.Keys| == SensorCount
      ensures !isScanning && events == [] && this.link == link
      ensures !autoRefreshActive && autoRefreshInterval == 5000
    {
      var d := BuildInitial(SensorCount);
      sensorData := d;
      isScanning := false;
      events := [];
      this.link := link;
      autoRefreshActive := false;
      autoRefreshInterval := 5000;
    }

    /** `set_serial_manager` */
    method SetSerialManager(link: SerialLink.Link?)
      modifies this`link
      ensures this.link == link
    {
      this.link := link;
    }

    /** `start_auto_refresh`: on a healthy link, start the timer and request a
        scan at once; otherwise do nothing. */
    method StartAutoRefresh()
      modifies this`isScanning, this`autoRefreshActive, link
      ensures link == old(link) && autoRefreshInterval == old(autoRefreshInterval)
      ensures old(link != null && link.healthy) ==>
                autoRefreshActive && isScanning && link.sent == old(link.sent) + [RequestCommand]
      ensures !old(link != null && link.healthy) ==>
                autoRefreshActive == old(autoRefreshActive) && isScanning == old(isScanning)
                && (link != null ==> link.sent == old(link.sent))
      ensures link != null ==> link.healthy == old(link.healthy) && link.connected == old(link.connected)
                               && link.written == old(link.written)
    {
      if link != null && link.healthy {
        autoRefreshActive := true;
        RequestSensorData();
      }
    }

    /** `stop_auto_refresh` */
    method StopAutoRefresh()
      modifies this`autoRefreshActive
      ensures !autoRefreshActive
    {
      autoRefreshActive := false;
    }

    /** `set_refresh_interval(seconds)`: the interval in milliseconds; a running
        timer is restarted with it and keeps running. */
    method SetRefreshInterval(seconds: int)
      modifies this`autoRefreshInterval
      ensures autoRefreshInterval == seconds * 1000
      ensures autoRefreshInterval / 1000 == seconds
    {
      autoRefreshInterval := seconds * 1000;
    }

    /** `request_sensor_data`: on a healthy link, send the scan command and
        start accepting lines; otherwise do nothing. */
    method RequestSensorData()
      modifies this`isScanning, link
      ensures link == old(link)
      ensures old(link != null && link.healthy) ==>
                link.sent == old(link.sent) + [RequestCommand] && isScanning
      ensures !old(link != null && link.healthy) ==>
                isScanning == old(isScanning) && (link != null ==> link.sent == old(link.sent))
      ensures link != null ==> link.healthy == old(link.healthy) && link.connected == old(link.connected)
                               && link.written == old(link.written)
    {
      if link != null && link.healthy {
        link.SendSerialCommand(RequestCommand);
        isScanning := true;
      }
    }

    /** `parse_sensor_data(line)` at clock `now`. `raised` is true when
        `float` refused one of the numbers, and then nothing has changed. */
    method ParseSensorData(line: string, now: real) returns (raised: bool)
      modifies this`sensorData, this`isScanning, this`events
      ensures var r := Parse(old(View()), Tag, false, line, now);
              if r.Some? then !raised && View() == r.value else raised && View() == old(View())
    {
      raised := false;
      if !isScanning {
        return;
      }
      var kind := Classify(Tag, line);
      match kind {
        case Data(id, ttext, htext) =>
          var temp := Number(ttext);
          var humi := Number(htext);
          if temp.None? || humi.None? {
            raised := true;
            return;
          }
          var v := Reading(temp, humi, Active, Some(now));
          sensorData := sensorData[id := v];
          events := events + [Updated(id, v)];
        case Timeout(id) =>
          var v := Reading(None, None, TimedOut, Some(now));
          sensorData := sensorData[id := v];
          events := events + [Updated(id, v)];
        case ScanComplete =>
          isScanning := false;
          events := events + [AllUpdated(sensorData)];
        case Other =>
      }
    }

    /** `get_sensor_data(sensor_id)`: the entry, or `None` for an unknown ID. */
    method GetSensorData(id: string) returns (r: Option<Reading>)
      ensures r.Some? <==> id in sensorData
      ensures r.Some? ==> r.value == sensorData[id]
    {
      if id in sensorData {
        r := Some(sensorData[id]);
      } else {
        r := None;
      }
    }

    /** `get_all_sensor_data`: a copy of the table. */
    method GetAllSensorData() returns (r: map<string, Reading>)
      ensures r == sensorData
    {
      r := sensorData;
    }

    /** `reset_all_sensors`: every entry back to unknown, one key at a time. */
    method ResetAllSensors()
      modifies this`sensorData, this`events
      ensures sensorData == Reset(old(sensorData))
      ensures events == old(events) + [AllUpdated(sensorData)]
    {
      var pending := sensorData.Keys;
      while pending != {}
        invariant pending <= sensorData.Keys
        invariant sensorData.Keys == old(sensorData).Keys && events == old(events)
        invariant forall k :: k in sensorData && k !in pending ==> sensorData[k] == Blank
        decreases |pending|
      {
        var k :| k in pending;
        sensorData := sensorData[k := Blank];
        pending := pending - {k};
      }
      events := events + [AllUpdated(sensorData)];
    }
  }
}
