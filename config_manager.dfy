/** `ConfigManager` (config/config_manager.py): the user settings kept in a
    JSON file, chiefly the refresh interval of each sensor type (1..360 s,
    default 5).

    The source copies its defaults with a shallow `dict.copy()`, so the
    in-memory `refresh_intervals` object is, after every load, the very
    object held in the defaults: saving an interval or merging a file's
    intervals changes the defaults too. The model keeps both maps and an
    `aliased` flag that says whether they are one object. */
module Config {
  import opened Common

  /** A JSON value as `json.load` produces it. */
  datatype Json =
    | Null
    | Bool(b: bool)
    | Int(i: int)
    | Float(x: real)
    | Str(s: string)
    | Arr(items: seq<Json>)
    | Obj(fields: map<string, Json>)

  const RefreshKey := "refresh_intervals"
  const LastUpdatedKey := "last_updated"
  const DsctSensor := "dsct_sensor"
  const AirconSensor := "aircon_sensor"
  const DefaultInterval := 5
  const MinInterval := 1
  const MaxInterval := 360

  /** `default_settings["refresh_intervals"]` as first built. */
  const DefaultIntervals: map<string, Json> :=
    map[DsctSensor := Int(DefaultInterval), AirconSensor := Int(DefaultInterval)]

  /** The other default settings; nothing ever changes them in place. */
  const DefaultRest: map<string, Json> :=
    map["csv_cleanup" := Obj(map["enabled" := Bool(true), "max_files_per_type" := Int(20)]),
        LastUpdatedKey := Null]

  /** The settings file: absent, unreadable or not JSON, or a JSON value. */
  datatype Stored = Missing | Unreadable | Parsed(json: Json)

  /** A file holding JSON that is not an object makes the loader raise. */
  predicate Loadable(f: Stored)
  {
    f.Parsed? ==> f.json.Obj?
  }

  /** `isinstance(v, int) and 1 <= v <= 360`; a JSON `true` is the int 1. */
  predicate IsValidInterval(v: Json)
  {
    match v
    case Int(i) => MinInterval <= i <= MaxInterval
    case Bool(b) => b
    case _ => false
  }

  /** The integer a valid interval stands for. */
  function IntOf(v: Json): int
  {
    match v
    case Int(i) => i
    case Bool(b) => if b then 1 else 0
    case _ => 0
  }

  /** `load_refresh_interval(t)` on the in-memory intervals. */
  function Lookup(intervals: map<string, Json>, t: string): (r: int)
    ensures MinInterval <= r <= MaxInterval
  {
    var v := if t in intervals then intervals[t] else Int(DefaultInterval);
    if IsValidInterval(v) then IntOf(v) else DefaultInterval
  }

  /** The lookup returns the stored value exactly when it is a valid
      interval, and 5 when it is not or when the type is unknown. */
  lemma LookupSpec(intervals: map<string, Json>, t: string)
    ensures t in intervals && IsValidInterval(intervals[t]) ==>
              Lookup(intervals, t) == IntOf(intervals[t])
    ensures !(t in intervals && IsValidInterval(intervals[t])) ==>
              Lookup(intervals, t) == DefaultInterval
  {
  }

  /** Both sensor types start at 5 s. */
  lemma DefaultsAreFive()
    ensures Lookup(DefaultIntervals, DsctSensor) == DefaultInterval
    ensures Lookup(DefaultIntervals, AirconSensor) == DefaultInterval
  {
  }

  /** What the manager holds: the defaults' interval object, the settings'
      interval object and the remaining settings, whether the two interval
      objects are one, and the file. */
  datatype State = State(defaultIntervals: map<string, Json>, intervals: map<string, Json>,
                         rest: map<string, Json>, aliased: bool, file: Stored)

  predicate Valid(st: State)
  {
    && (st.aliased ==> st.intervals == st.defaultIntervals)
    && RefreshKey !in st.rest
    && Loadable(st.file)
  }

  /** The object `_save_settings` dumps: a copy of the settings with
      `last_updated` stamped. */
  function Dump(intervals: map<string, Json>, rest: map<string, Json>, stamp: string): Json
  {
    Obj(rest[LastUpdatedKey := Str(stamp)][RefreshKey := Obj(intervals)])
  }

  /** `_save_settings`: the file is replaced when it can be written. */
  function Written(st: State, intervals: map<string, Json>, rest: map<string, Json>,
                   writable: bool, stamp: string): State
  {
    if writable then st.(file := Parsed(Dump(intervals, rest, stamp))) else st
  }

  /** `_load_settings` (with `_merge_with_defaults`): a readable file is
      merged into the defaults key by key, its interval object updating the
      defaults' one in place; otherwise the defaults are written out and
      taken. Either way the settings' intervals are the defaults' object. */
  function Load(st: State, writable: bool, stamp: string): (r: State)
    requires Loadable(st.file)
  {
    match st.file
    case Parsed(j) =>
      var loaded := j.fields;
      var ri := if RefreshKey in loaded && loaded[RefreshKey].Obj?
                then st.defaultIntervals + loaded[RefreshKey].fields
                else st.defaultIntervals;
      st.(defaultIntervals := ri, intervals := ri,
          rest := DefaultRest + (loaded - {RefreshKey}), aliased := true)
    case _ =>
      Written(st, st.defaultIntervals, DefaultRest, writable, stamp)
        .(intervals := st.defaultIntervals, rest := DefaultRest, aliased := true)
  }

  /** The state `__init__` starts from, before it loads. */
  function Fresh(file: Stored): State
  {
    State(DefaultIntervals, DefaultIntervals, DefaultRest, false, file)
  }

  /** `save_refresh_interval(t, v)`: an invalid interval or an unknown type
      is refused; otherwise the interval is set in memory (and in the
      defaults when they are the same object) before the file is written,
      and the result is whether the write succeeded. */
  function SaveInterval(st: State, t: string, v: Json, writable: bool, stamp: string): (State, bool)
  {
    if !IsValidInterval(v) || t !in [DsctSensor, AirconSensor] then (st, false)
    else
      var st1 := st.(intervals := st.intervals[t := v],
                     defaultIntervals := if st.aliased then st.defaultIntervals[t := v]
                                         else st.defaultIntervals);
      (Written(st1, st1.intervals, st1.rest, writable, stamp), writable)
  }

  /** `reset_to_defaults`: the settings become a deep copy of the defaults,
      are written, and on success are loaded back from the file. */
  function Reset(st: State, writable: bool, stamp: string): (State, bool)
  {
    var st1 := st.(intervals := st.defaultIntervals, rest := DefaultRest, aliased := false);
    var st2 := Written(st1, st1.intervals, st1.rest, writable, stamp);
    if writable then (Load(st2, writable, stamp), true) else (st2, false)
  }

  /** Loading keeps the state well formed and always leaves the settings'
      intervals as the defaults' object. */
  lemma LoadValid(st: State, writable: bool, stamp: string)
    requires Valid(st)
    ensures var r := Load(st, writable, stamp);
            Valid(r) && r.aliased && r.intervals == r.defaultIntervals
  {
  }

  /** `_merge_with_defaults` key by key: an interval in the file wins, an
      interval missing from it keeps the default, and every other top-level
      key comes from the file when present and from the defaults otherwise. */
  lemma MergeKeyByKey(st: State, loaded: map<string, Json>, writable: bool, stamp: string)
    requires st.file == Parsed(Obj(loaded))
    ensures var r := Load(st, writable, stamp);
            var fileIntervals := if RefreshKey in loaded && loaded[RefreshKey].Obj?
                                 then loaded[RefreshKey].fields else map[];
            && (forall t :: t in fileIntervals ==> t in r.intervals && r.intervals[t] == fileIntervals[t])
            && (forall t :: t !in fileIntervals && t in st.defaultIntervals ==>
                  t in r.intervals && r.intervals[t] == st.defaultIntervals[t])
            && (forall t :: t in r.intervals ==> t in fileIntervals || t in st.defaultIntervals)
            && (forall k :: k != RefreshKey && k in loaded ==> k in r.rest && r.rest[k] == loaded[k])
            && (forall k :: k !in loaded && k in DefaultRest ==> k in r.rest && r.rest[k] == DefaultRest[k])
            && (forall k :: k in r.rest ==> k != RefreshKey && (k in loaded || k in DefaultRest))
            && r.file == st.file
  {
  }

  /** With no usable file, the defaults are taken and written out stamped. */
  lemma LoadWithoutFile(st: State, writable: bool, stamp: string)
    requires st.file == Missing || st.file == Unreadable
    ensures var r := Load(st, writable, stamp);
            && r.intervals == st.defaultIntervals && r.rest == DefaultRest
            && r.file == (if writable then Parsed(Dump(st.defaultIntervals, DefaultRest, stamp)) else st.file)
  {
  }

  /** A refused save changes nothing and reports failure. */
  lemma SaveRefused(st: State, t: string, v: Json, writable: bool, stamp: string)
    requires !IsValidInterval(v) || (t != DsctSensor && t != AirconSensor)
    ensures SaveInterval(st, t, v, writable, stamp) == (st, false)
  {
  }

  /** An accepted save: the lookup of `t` now gives the saved value, every
      other type and every other setting is as before, the result is whether
      the file was written, and the state stays well formed. */
  lemma SaveAccepted(st: State, t: string, v: Json, writable: bool, stamp: string)
    requires Valid(st)
    requires IsValidInterval(v) && (t == DsctSensor || t == AirconSensor)
    ensures var (r, ok) := SaveInterval(st, t, v, writable, stamp);
            && ok == writable
            && Valid(r)
            && Lookup(r.intervals, t) == IntOf(v)
            && (forall u :: u != t ==> Lookup(r.intervals, u) == Lookup(st.intervals, u))
            && r.rest == st.rest
            && r.file == (if writable then Parsed(Dump(r.intervals, st.rest, stamp)) else st.file)
  {
    var (r, ok) := SaveInterval(st, t, v, writable, stamp);
    assert r.intervals == st.intervals[t := v];
    forall u | u != t
      ensures Lookup(r.intervals, u) == Lookup(st.intervals, u)
    {
      assert (u in r.intervals) == (u in st.intervals);
    }
  }

  /** A saved interval survives a restart: a fresh manager loading the file
      just written looks up the saved value. */
  lemma SaveThenRestart(st: State, t: string, v: Json, stamp: string, stamp2: string)
    requires Valid(st)
    requires IsValidInterval(v) && (t == DsctSensor || t == AirconSensor)
    ensures var r := SaveInterval(st, t, v, true, stamp).0;
            Loadable(r.file) && Lookup(Load(Fresh(r.file), true, stamp2).intervals, t) == IntOf(v)
  {
    var r := SaveInterval(st, t, v, true, stamp).0;
    var loaded := Dump(r.intervals, r.rest, stamp).fields;
    assert loaded[RefreshKey] == Obj(r.intervals);
    var merged := Load(Fresh(r.file), true, stamp2).intervals;
    assert merged == DefaultIntervals + r.intervals;
    assert t in merged && merged[t] == v;
  }

  /** Writing does not stamp the settings in memory: `last_updated` changes
      only in the file. */
  lemma StampOnlyInFile(st: State, t: string, v: Json, writable: bool, stamp: string)
    requires IsValidInterval(v) && (t == DsctSensor || t == AirconSensor)
    ensures var r := SaveInterval(st, t, v, writable, stamp).0;
            && r.rest == st.rest
            && (writable ==> r.file.json.fields[LastUpdatedKey] == Str(stamp))
  {
  }

  /** A failed write still leaves the new interval in memory. */
  lemma FailedSaveKeepsInterval(st: State, t: string, v: Json, stamp: string)
    requires IsValidInterval(v) && (t == DsctSensor || t == AirconSensor)
    ensures var (r, ok) := SaveInterval(st, t, v, false, stamp);
            !ok && Lookup(r.intervals, t) == IntOf(v) && r.file == st.file
  {
    assert SaveInterval(st, t, v, false, stamp).0.intervals == st.intervals[t := v];
  }

  /** A successful reset takes its intervals from the defaults' object as
      it now is, the other settings from the defaults, and stamps the file. */
  lemma ResetTakesDefaults(st: State, stamp: string)
    requires Valid(st)
    ensures var (r, ok) := Reset(st, true, stamp);
            && ok && Valid(r)
            && r.intervals == st.defaultIntervals
            && r.rest == DefaultRest[LastUpdatedKey := Str(stamp)]
            && r.file == Parsed(Dump(st.defaultIntervals, DefaultRest, stamp))
  {
    var st1 := st.(intervals := st.defaultIntervals, rest := DefaultRest, aliased := false);
    var loaded := Dump(st.defaultIntervals, DefaultRest, stamp).fields;
    assert loaded - {RefreshKey} == DefaultRest[LastUpdatedKey := Str(stamp)];
    assert st.defaultIntervals + st.defaultIntervals == st.defaultIntervals;
  }

  /** A failed reset keeps the deep copy of the defaults, no longer the same
      object as them, and leaves the file alone. */
  lemma ResetUnwritten(st: State, stamp: string)
    requires Valid(st)
    ensures var (r, ok) := Reset(st, false, stamp);
            && !ok && Valid(r) && !r.aliased
            && r.intervals == st.defaultIntervals && r.rest == DefaultRest && r.file == st.file
  {
  }

  /** Because of the shared interval object, a reset after a save restores
      the saved interval, not the 5 s default. */
  lemma ResetKeepsSavedInterval(file: Stored, stamp: string)
    requires Loadable(file)
    ensures var st := Load(Fresh(file), true, stamp);
            var saved := SaveInterval(st, DsctSensor, Int(10), true, stamp).0;
            Lookup(Reset(saved, true, stamp).0.intervals, DsctSensor) == 10
  {
    var st := Load(Fresh(file), true, stamp);
    LoadValid(Fresh(file), true, stamp);
    SaveAccepted(st, DsctSensor, Int(10), true, stamp);
    var saved := SaveInterval(st, DsctSensor, Int(10), true, stamp).0;
    assert saved.defaultIntervals == saved.intervals;
    ResetTakesDefaults(saved, stamp);
  }

  /** `ConfigManager` with its file. `stamp` is the formatted
      `datetime.now()` and `writable` whether the file can be written. */
  class ConfigManager {
    var defaultIntervals: map<string, Json>
    var intervals: map<string, Json>
    var rest: map<string, Json>
    var aliased: bool
    var file: Stored

    function Current(): State
      reads this
    {
      State(defaultIntervals, intervals, rest, aliased, file)
    }

    /** `__init__`: the defaults, then `_load_settings`. */
    constructor (file: Stored, writable: bool, stamp: string)
      requires Loadable(file)
      ensures Current() == Load(Fresh(file), writable, stamp) && Valid(Current())
    {
      defaultIntervals := DefaultIntervals;
      intervals := DefaultIntervals;
      rest := DefaultRest;
      aliased := false;
      this.file := file;
      new;
      LoadValid(Fresh(file), writable, stamp);
      LoadSettings(writable, stamp);
    }

    /** `_save_settings(settings)`: dumps a stamped copy; the settings
        themselves are not changed. */
    method SaveSettings(settingsIntervals: map<string, Json>, settingsRest: map<string, Json>,
                        writable: bool, stamp: string) returns (ok: bool)
      modifies this`file
      ensures ok == writable
      ensures Current() == Written(old(Current()), settingsIntervals, settingsRest, writable, stamp)
    {
      if writable {
        file := Parsed(Dump(settingsIntervals, settingsRest, stamp));
      }
      ok := writable;
    }

    /** `_load_settings` */
    method LoadSettings(writable: bool, stamp: string)
      requires Loadable(file)
      modifies this
      ensures Current() == Load(old(Current()), writable, stamp)
    {
      match file
      case Parsed(j) =>
        var loaded := j.fields;
        if RefreshKey in loaded && loaded[RefreshKey].Obj? {
          defaultIntervals := defaultIntervals + loaded[RefreshKey].fields;
        }
        intervals := defaultIntervals;
        rest := DefaultRest + (loaded - {RefreshKey});
        aliased := true;
      case _ =>
        var _ := SaveSettings(defaultIntervals, DefaultRest, writable, stamp);
        intervals := defaultIntervals;
        rest := DefaultRest;
        aliased := true;
    }

    /** `load_refresh_interval(t)` */
    method LoadRefreshInterval(t: string) returns (r: int)
      ensures MinInterval <= r <= MaxInterval
      ensures t in intervals && IsValidInterval(intervals[t]) ==> r == IntOf(intervals[t])
      ensures !(t in intervals && IsValidInterval(intervals[t])) ==> r == DefaultInterval
    {
      var v := if t in intervals then intervals[t] else Int(DefaultInterval);
      if !IsValidInterval(v) {
        return DefaultInterval;
      }
      r := IntOf(v);
    }

    /** `save_refresh_interval(t, v)` */
    method SaveRefreshInterval(t: string, v: Json, writable: bool, stamp: string) returns (ok: bool)
      requires Valid(Current())
      modifies this
      ensures (Current(), ok) == SaveInterval(old(Current()), t, v, writable, stamp)
      ensures Valid(Current())
    {
      if !IsValidInterval(v) || t !in [DsctSensor, AirconSensor] {
        return false;
      }
      intervals := intervals[t := v];
      if aliased {
        defaultIntervals := defaultIntervals[t := v];
      }
      ok := SaveSettings(intervals, rest, writable, stamp);
      SaveAccepted(old(Current()), t, v, writable, stamp);
    }

    /** `get_all_refresh_intervals` */
    method GetAllRefreshIntervals() returns (r: map<string, Json>)
      ensures forall t :: Lookup(r, t) == Lookup(intervals, t)
      ensures r == intervals
    {
      r := intervals;
    }

    /** `get_last_updated`: the in-memory stamp, `None` when there is none. */
    method GetLastUpdated() returns (r: Json)
      ensures LastUpdatedKey in rest ==> r == rest[LastUpdatedKey]
      ensures LastUpdatedKey !in rest ==> r == Null
    {
      r := if LastUpdatedKey in rest then rest[LastUpdatedKey] else Null;
    }

    /** `reset_to_defaults` */
    method ResetToDefaults(writable: bool, stamp: string) returns (ok: bool)
      requires Valid(Current())
      modifies this
      ensures (Current(), ok) == Reset(old(Current()), writable, stamp)
      ensures Valid(Current())
    {
      intervals := defaultIntervals;
      rest := DefaultRest;
      aliased := false;
      ok := SaveSettings(intervals, rest, writable, stamp);
      if ok {
        LoadSettings(writable, stamp);
        LoadValid(old(Current()).(intervals := old(defaultIntervals), rest := DefaultRest, aliased := false)
                    .(file := file), writable, stamp);
      }
    }
  }

  /** The module-level `_config_manager` behind `get_config_manager`. */
  class Registry {
    var instance: ConfigManager?

    constructor ()
      ensures instance == null
    {
      instance := null;
    }

    /** `get_config_manager`: the first call builds the manager, every later
        call returns that same one. */
    method GetConfigManager(file: Stored, writable: bool, stamp: string) returns (m: ConfigManager)
      requires Loadable(file)
      modifies this
      ensures old(instance) != null ==> m == old(instance)
      ensures old(instance) == null ==> fresh(m) && m.Current() == Load(Fresh(file), writable, stamp)
      ensures instance == m
    {
      if instance == null {
        instance := new ConfigManager(file, writable, stamp);
      }
      m := instance;
    }
  }
}
