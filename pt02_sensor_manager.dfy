/** `PT02SensorManager` (managers/pt02_sensor_manager.py): the CO2 / PM2.5 /
    temperature / humidity air-quality sensor. A received line is parsed in
    one of two formats; a parsed sample replaces the stored record, is logged
    to a daily CSV file chosen by size, and every fiftieth save prunes the
    PT02 CSV files to the newest thirty. */
module Pt02Sensors {
  import opened Common
  import opened DataDirectory

  // ---------------------------------------------------------------------------
  // Parsing a received line
  // ---------------------------------------------------------------------------

  /** The values one line carries. `humidity` is absent from the legacy format
      and optional in the PT02 format. */
  datatype Sample = Sample(temp: real, co2: int, pm25: int, humidity: Option<real>)

  /** `data.split(tag)[1].strip().split(",")`: the comma fields after the tag. */
  function Fields(data: string, tag: string): seq<string>
    requires |tag| > 0 && Contains(data, tag)
  {
    Split(Strip(SecondField(data, tag)), ',')
  }

  /** `_parse_pt02_format`: `PT02 co2,pm25,temp[,humidity]`. */
  function ParsePt02Format(data: string): Option<Sample>
    requires Contains(data, "PT02")
  {
    ReadPt02(Fields(data, "PT02"))
  }

  /** The fields of a PT02-format line. `None` for fewer than three fields,
      or when `int` / `float` refuses one of them; the exception is caught and
      the call returns `False`. */
  function ReadPt02(values: seq<string>): Option<Sample>
  {
    if |values| < 3 then None
    else
      var co2 := PyInt(Strip(values[0]));
      var pm25 := PyInt(Strip(values[1]));
      var temp := PyFloat(Strip(values[2]));
      var humidity := if |values| >= 4 then PyFloat(Strip(values[3])) else None;
      if co2.None? || pm25.None? || temp.None? || (|values| >= 4 && humidity.None?) then None
      else Some(Sample(temp.value, co2.value, pm25.value, humidity))
  }

  /** `_parse_aircon_format`: `[AIRCON] co2,pm25,temp`. */
  function ParseAirconFormat(data: string): Option<Sample>
    requires Contains(data, "[AIRCON]")
  {
    ReadAircon(Fields(data, "[AIRCON]"))
  }

  /** The fields of a legacy line: the temperature is in tenths of a degree,
      and there is no humidity. */
  function ReadAircon(values: seq<string>): Option<Sample>
  {
    if |values| < 3 then None
    else
      var co2 := PyInt(Strip(values[0]));
      var pm25 := PyInt(Strip(values[1]));
      var temp := PyFloat(Strip(values[2]));
      if co2.None? || pm25.None? || temp.None? then None
      else Some(Sample(Tenths(temp.value), co2.value, pm25.value, None))
  }

  /** `temp / 10`: the legacy format sends tenths of a degree. */
  function Tenths(t: real): real
  {
    t / 10.0
  }

  /** `parse_pt02_response`: a line that starts with `PT02 ` or `PT02<TAB>` is
      in the PT02 format; otherwise one that contains `[AIRCON]` is in the
      legacy format; anything else is not a PT02 line. */
  function ParseResponse(data: string): Option<Sample>
  {
    if StartsWith(data, "PT02 ") || StartsWith(data, "PT02\t") then
      assert data[..4] == "PT02" && OccursAt(data, "PT02", 0);
      ParsePt02Format(data)
    else if Contains(data, "[AIRCON]") then ParseAirconFormat(data)
    else None
  }

  // ---------------------------------------------------------------------------
  // Lines as the sensor sends them
  // ---------------------------------------------------------------------------

  /** A field the sensor writes: non-empty, no whitespace, no comma, and none
      of the characters that begin the two tags. */
  predicate FieldText(s: string)
  {
    s != [] && NoSpace(s) && ',' !in s && 'P' !in s && '[' !in s
  }

  /** Every one of `fields` is a field the sensor writes. */
  predicate AllFieldText(fields: seq<string>)
  {
    forall k :: 0 <= k < |fields| ==> FieldText(fields[k])
  }

  lemma ThreeFields(a: string, b: string, c: string)
    requires FieldText(a) && FieldText(b) && FieldText(c)
    ensures AllFieldText([a, b, c])
  {
  }

  lemma FourFields(a: string, b: string, c: string, d: string)
    requires FieldText(a) && FieldText(b) && FieldText(c) && FieldText(d)
    ensures AllFieldText([a, b, c, d])
  {
  }

  /** A PT02-format line. */
  function Pt02Line(fields: seq<string>): string
    requires |fields| >= 1
  {
    "PT02 " + Join(fields, ',')
  }

  /** A legacy-format line. */
  function AirconLine(fields: seq<string>): string
    requires |fields| >= 1
  {
    "[AIRCON] " + Join(fields, ',')
  }

  /** `str(i)` is a field. */
  lemma IntField(i: int)
    ensures FieldText(IntToString(i))
  {
    var s := IntToString(i);
    var d := NatToString(if i < 0 then -i else i);
    assert s == (if i < 0 then "-" + d else d);
    assert forall k :: 0 <= k < |s| ==> s[k] == '-' || IsDigit(s[k]);
  }

  /** Joining fields keeps out any character that none of them has and that is
      not the separator. */
  lemma {:induction false} JoinAvoids(fields: seq<string>, sep: char, c: char)
    requires |fields| >= 1 && c != sep
    requires forall k :: 0 <= k < |fields| ==> c !in fields[k]
    ensures c !in Join(fields, sep)
    decreases |fields|
  {
    if |fields| > 1 {
      JoinAvoids(fields[1..], sep, c);
    }
  }

  /** Joining whitespace-free fields with a comma gives a non-empty,
      whitespace-free text. */
  lemma {:induction false} JoinNoSpace(fields: seq<string>)
    requires |fields| >= 1
    requires forall k :: 0 <= k < |fields| ==> NoSpace(fields[k]) && fields[k] != []
    ensures NoSpace(Join(fields, ',')) && Join(fields, ',') != []
    decreases |fields|
  {
    if |fields| > 1 {
      JoinNoSpace(fields[1..]);
      var t := Join(fields[1..], ',');
      assert Join(fields, ',') == fields[0] + [','] + t;
      assert fields[1..][0] == fields[1];
    }
  }

  /** `tag + rest`, where `rest` has no copy of the tag's first character,
      contains the tag and splits on it into `rest`. */
  lemma TagThenRest(tag: string, rest: string)
    requires |tag| > 0 && tag[0] !in rest
    ensures Contains(tag + rest, tag) && SecondField(tag + rest, tag) == rest
  {
    var line := tag + rest;
    assert OccursAt(line, tag, 0) by { assert line[..|tag|] == tag; }
    ContainsAt(line, tag, 0);
    assert IndexOf(line, tag, 0) == Some(0);
    assert line[|tag|..] == rest;
  }

  /** A character other than a space that `body` lacks is not in `" " + body`. */
  lemma SpaceThen(c: char, body: string)
    requires c != ' ' && c !in body
    ensures c !in " " + body
  {
    assert forall k :: 1 <= k < |" " + body| ==> (" " + body)[k] == body[k - 1];
  }

  /** `(" " + body).strip()` is `body` for a whitespace-free `body`. */
  lemma StripSpaceThen(body: string)
    requires body != [] && NoSpace(body)
    ensures Strip(" " + body) == body
  {
    StripOneSpace(body);
    StripNoSpace(body);
    assert StripLeft(body) == body;
  }

  /** The fields of `tag + " " + Join(fields)` are `fields`. */
  lemma FieldsOfLine(tag: string, fields: seq<string>)
    requires |tag| > 0 && |fields| >= 1
    requires forall k :: 0 <= k < |fields| ==> FieldText(fields[k])
    requires tag[0] == 'P' || tag[0] == '['
    ensures Contains(tag + (" " + Join(fields, ',')), tag)
    ensures Fields(tag + (" " + Join(fields, ',')), tag) == fields
  {
    var body := Join(fields, ',');
    JoinAvoids(fields, ',', tag[0]);
    JoinNoSpace(fields);
    SpaceThen(tag[0], body);
    TagThenRest(tag, " " + body);
    StripSpaceThen(body);
    JoinSplit(fields, ',');
  }

  /** A PT02 line is dispatched to the PT02 format, and its fields are the
      ones it was written from. */
  lemma Pt02LineFields(fields: seq<string>)
    requires |fields| >= 1 && AllFieldText(fields)
    ensures StartsWith(Pt02Line(fields), "PT02 ") && Contains(Pt02Line(fields), "PT02")
    ensures ParseResponse(Pt02Line(fields)) == ReadPt02(fields)
  {
    Pt02Prefix(fields, Pt02Line(fields));
  }

  lemma Pt02Prefix(fields: seq<string>, line: string)
    requires |fields| >= 1 && AllFieldText(fields) && line == Pt02Line(fields)
    ensures StartsWith(line, "PT02 ") && Contains(line, "PT02") && Fields(line, "PT02") == fields
  {
    assert line == "PT02" + (" " + Join(fields, ','));
    FieldsOfLine("PT02", fields);
    assert line[..5] == "PT02 ";
  }

  /** A legacy line is dispatched to the legacy format, and its fields are
      the ones it was written from. */
  lemma AirconLineFields(fields: seq<string>)
    requires |fields| >= 1 && AllFieldText(fields)
    ensures Contains(AirconLine(fields), "[AIRCON]")
    ensures ParseAirconFormat(AirconLine(fields)) == ReadAircon(fields)
    ensures ParseResponse(AirconLine(fields)) == ReadAircon(fields)
  {
    var line := AirconLine(fields);
    assert line == "[AIRCON]" + (" " + Join(fields, ','));
    FieldsOfLine("[AIRCON]", fields);
    NotPt02(line);
  }

  /** A line that opens with `[` is not in the PT02 format. */
  lemma NotPt02(line: string)
    requires line != [] && line[0] == '['
    ensures !StartsWith(line, "PT02 ") && !StartsWith(line, "PT02\t")
  {
    assert !StartsWith(line, "PT02 ") by { assert |line| >= 5 ==> line[..5][0] == line[0]; }
    assert !StartsWith(line, "PT02\t") by { assert |line| >= 5 ==> line[..5][0] == line[0]; }
  }

  /** `int(str(i).strip()) == i`. */
  lemma IntFieldValue(i: int)
    ensures FieldText(IntToString(i)) && PyInt(Strip(IntToString(i))) == Some(i)
  {
    IntField(i);
    StripNoSpace(IntToString(i));
    IntRoundTrip(i);
  }

  /** Three fields that `int(v.strip())` and `float(v.strip())` read as the
      given values. */
  predicate Spelled(ctext: string, ptext: string, ttext: string, co2: int, pm25: int, tv: real)
  {
    PyInt(Strip(ctext)) == Some(co2) && PyInt(Strip(ptext)) == Some(pm25) && PyFloat(Strip(ttext)) == Some(tv)
  }

  lemma ReadPt02Spelled(ctext: string, ptext: string, ttext: string, co2: int, pm25: int, tv: real)
    requires Spelled(ctext, ptext, ttext, co2, pm25, tv)
    ensures ReadPt02([ctext, ptext, ttext]) == Some(Sample(tv, co2, pm25, None))
    ensures ReadAircon([ctext, ptext, ttext]) == Some(Sample(Tenths(tv), co2, pm25, None))
  {
  }

  lemma ReadPt02Humidity(ctext: string, ptext: string, ttext: string, htext: string,
                         co2: int, pm25: int, tv: real)
    requires Spelled(ctext, ptext, ttext, co2, pm25, tv)
    ensures var h := PyFloat(Strip(htext));
            ReadPt02([ctext, ptext, ttext, htext]) == if h.None? then None else Some(Sample(tv, co2, pm25, h))
  {
  }

  /** A full PT02 line reads back as the values its fields spell. */
  lemma Pt02LineRoundTrip(ctext: string, ptext: string, ttext: string, htext: string,
                          co2: int, pm25: int, tv: real, hv: real)
    requires FieldText(ctext) && FieldText(ptext) && FieldText(ttext)
    requires Spelled(ctext, ptext, ttext, co2, pm25, tv)
    requires FieldText(htext) && PyFloat(Strip(htext)) == Some(hv)
    ensures ParseResponse(Pt02Line([ctext, ptext, ttext, htext])) == Some(Sample(tv, co2, pm25, Some(hv)))
  {
    ReadPt02Humidity(ctext, ptext, ttext, htext, co2, pm25, tv);
    FourFields(ctext, ptext, ttext, htext);
    Pt02LineFields([ctext, ptext, ttext, htext]);
  }

  /** Without the fourth field the humidity is `None`. */
  lemma Pt02LineNoHumidity(ctext: string, ptext: string, ttext: string, co2: int, pm25: int, tv: real)
    requires FieldText(ctext) && FieldText(ptext) && FieldText(ttext)
    requires Spelled(ctext, ptext, ttext, co2, pm25, tv)
    ensures ParseResponse(Pt02Line([ctext, ptext, ttext])) == Some(Sample(tv, co2, pm25, None))
  {
    ReadPt02Spelled(ctext, ptext, ttext, co2, pm25, tv);
    ThreeFields(ctext, ptext, ttext);
    Pt02LineFields([ctext, ptext, ttext]);
  }

  /** Two fields are not enough: the line is refused. */
  lemma Pt02LineTooShort(a: string, b: string)
    requires FieldText(a) && FieldText(b)
    ensures ParseResponse(Pt02Line([a, b])).None?
  {
    assert AllFieldText([a, b]);
    Pt02LineFields([a, b]);
  }

  /** A legacy line reads back with the temperature divided by ten. */
  lemma AirconLineRoundTrip(ctext: string, ptext: string, ttext: string, co2: int, pm25: int, tv: real)
    requires FieldText(ctext) && FieldText(ptext) && FieldText(ttext)
    requires Spelled(ctext, ptext, ttext, co2, pm25, tv)
    ensures ParseResponse(AirconLine([ctext, ptext, ttext])) == Some(Sample(Tenths(tv), co2, pm25, None))
  {
    ReadPt02Spelled(ctext, ptext, ttext, co2, pm25, tv);
    ThreeFields(ctext, ptext, ttext);
    AirconLineFields([ctext, ptext, ttext]);
  }

  /** The sensor's own integer fields: `str(co2)`, `str(pm25)`. */
  lemma IntegersRoundTrip(co2: int, pm25: int, ttext: string, tv: real)
    requires FieldText(ttext) && PyFloat(ttext) == Some(tv)
    ensures ParseResponse(Pt02Line([IntToString(co2), IntToString(pm25), ttext])) == Some(Sample(tv, co2, pm25, None))
  {
    IntFieldValue(co2);
    IntFieldValue(pm25);
    StripNoSpace(ttext);
    Pt02LineNoHumidity(IntToString(co2), IntToString(pm25), ttext, co2, pm25, tv);
  }

  // ---------------------------------------------------------------------------
  // The stored record
  // ---------------------------------------------------------------------------

  /** The `status` entry: `'unknown'` or `'active'`. */
  datatype Status = Unknown | Active

  /** The `sensor_data` dictionary. `humidity` is `None` when the key is
      absent (after `reset_sensor_data`) and `Some(None)` when it holds
      Python's `None`. `lastUpdate` is `datetime.now()` in seconds. */
  datatype Record = Record(temp: Option<real>, co2: Option<int>, pm25: Option<int>,
                           humidity: Option<Option<real>>, status: Status, lastUpdate: Option<real>)

  /** The dictionary `__init__` builds. */
  const Initial := Record(None, None, None, Some(None), Unknown, None)

  /** The dictionary `reset_sensor_data` builds: no `humidity` key. */
  const Cleared := Record(None, None, None, None, Unknown, None)

  /** The dictionary `save_sensor_data` stores for a sample taken at `now`. */
  function Saved(x: Sample, now: real): Record
  {
    Record(Some(x.temp), Some(x.co2), Some(x.pm25), Some(x.humidity), Active, Some(now))
  }

  // ---------------------------------------------------------------------------
  // The save counter
  // ---------------------------------------------------------------------------

  /** Every fiftieth save prunes the PT02 files (about fifty minutes at one
      sample a minute). */
  const CleanupEvery := 50

  /** How many PT02 files a prune keeps (about a month). */
  const KeepFiles := 30

  /** Whether the save made with counter `c` triggers a prune. */
  predicate CleanupDue(c: nat)
  {
    c + 1 >= CleanupEvery
  }

  /** `save_count` after one more save. */
  function NextCount(c: nat): (r: nat)
    ensures r < CleanupEvery
    ensures CleanupDue(c) <==> r == 0
    ensures c < CleanupEvery && !CleanupDue(c) ==> r == c + 1
  {
    if CleanupDue(c) then 0 else c + 1
  }

  /** The counter after `n` saves from a fresh manager. */
  function CountAfter(n: nat): nat
  {
    if n == 0 then 0 else NextCount(CountAfter(n - 1))
  }

  /** How many of the first `n` saves pruned the files. */
  function CleanupsAfter(n: nat): nat
  {
    if n == 0 then 0
    else CleanupsAfter(n - 1) + (if CleanupDue(CountAfter(n - 1)) then 1 else 0)
  }

  /** After `n` saves, `n` is fifty times the number of prunes so far plus
      the counter, and the counter is under fifty: the counter is `n % 50`
      and `n / 50` prunes have run, one every fifty saves, the first at the
      fiftieth. */
  lemma {:induction false} SaveCycle(n: nat)
    ensures CountAfter(n) < CleanupEvery
    ensures n == CleanupEvery * CleanupsAfter(n) + CountAfter(n)
  {
    if n > 0 {
      SaveCycle(n - 1);
    }
  }

  // ---------------------------------------------------------------------------
  // Pruning the PT02 files
  // ---------------------------------------------------------------------------

  /** Names starting with `PT02_` and ending with `.csv`. */
  const Pt02Csv := Pattern("PT02_", ".csv")

  /** `f.startswith('PT02_') and f.endswith('.csv')` is the pattern: the two
      ends of such a name cannot overlap. */
  lemma Pt02Pattern(name: string)
    ensures Matches(name, Pt02Csv) <==> StartsWith(name, "PT02_") && EndsWith(name, ".csv")
  {
    if StartsWith(name, "PT02_") && EndsWith(name, ".csv") {
      assert name[|name| - 4] == name[|name| - 4..][0] == '.';
      assert forall k :: 0 <= k < 5 ==> name[k] == name[..5][k] != '.';
    }
  }

  /** How many of `n` files the `while len(pt02_files) > max_files` loop
      tries to pop: none when there are few enough; for a negative limit all
      of them, after which `pop(0)` on the empty list raises and ends it. */
  function PruneCount(n: nat, maxFiles: int): (k: nat)
    ensures k <= n
    ensures maxFiles >= 0 ==> n - k == Min(n, maxFiles)
    ensures maxFiles < 0 ==> k == n
  {
    if maxFiles < 0 then n else if n <= maxFiles then 0 else n - maxFiles
  }

  /** Where the removals stop: the first file at or after `i` and before
      `k` that `os.remove` refuses (the exception ends the loop), or `k`. */
  function PruneStop(s: seq<FileRecord>, i: nat, k: nat, locked: set<string>): (r: nat)
    requires i <= k <= |s|
    ensures i <= r <= k
    ensures forall j :: i <= j < r ==> s[j].name !in locked
    ensures r < k ==> s[r].name in locked
    decreases k - i
  {
    if i == k then k
    else if s[i].name in locked then i
    else PruneStop(s, i + 1, k, locked)
  }

  /** The PT02 files, oldest first (a stable sort on the modification time). */
  function Pt02Sorted(files: seq<FileRecord>): seq<FileRecord>
  {
    SortByMtime(Glob(files, Pt02Csv))
  }

  /** The names `_cleanup_pt02_files(max_files)` removes, in order. */
  function PruneDeleted(files: seq<FileRecord>, maxFiles: int, locked: set<string>): seq<string>
  {
    var s := Pt02Sorted(files);
    Names(s[..PruneStop(s, 0, PruneCount(|s|, maxFiles), locked)])
  }

  /** The names removed up to where the removals stop are the prune's. */
  lemma StoppedPrune(files: seq<FileRecord>, maxFiles: int, locked: set<string>,
                     sorted: seq<FileRecord>, deleted: seq<string>)
    requires sorted == Pt02Sorted(files)
    requires deleted == Names(sorted[..PruneStop(sorted, 0, PruneCount(|sorted|, maxFiles), locked)])
    ensures deleted == PruneDeleted(files, maxFiles, locked)
    ensures Without(files, Elems(deleted)) == Pruned(files, true, maxFiles, locked)
  {
  }

  /** With no file refusing removal, the prune deletes exactly the oldest
      files beyond the limit: what stays is the newest `max_files` of them
      (none for a negative limit), and no deleted file is newer than a kept
      one. */
  lemma PruneOldest(files: seq<FileRecord>, maxFiles: int)
    ensures var s := Pt02Sorted(files);
            var k := PruneCount(|s|, maxFiles);
            PruneDeleted(files, maxFiles, {}) == Names(s[..k])
            && |s| - k == (if maxFiles < 0 then 0 else Min(|s|, maxFiles))
            && forall i, j :: 0 <= i < k <= j < |s| ==> s[i].mtime <= s[j].mtime
  {
    var s := Pt02Sorted(files);
    var k := PruneCount(|s|, maxFiles);
    assert PruneStop(s, 0, k, {}) == k;
  }

  /** The prune deletes only PT02 files that are there, each at most once;
      every other file is untouched. */
  lemma PruneOnlyPt02(files: seq<FileRecord>, maxFiles: int, locked: set<string>)
    requires UniqueNames(files)
    ensures var d := PruneDeleted(files, maxFiles, locked);
            (forall n :: n in d ==> n in NameSet(files) && Matches(n, Pt02Csv) && n !in locked)
            && (forall f :: f in files && !Matches(f.name, Pt02Csv) ==> f in Without(files, Elems(d)))
            && (forall i, j :: 0 <= i < j < |d| ==> d[i] != d[j])
  {
    var s := Pt02Sorted(files);
    var stop := PruneStop(s, 0, PruneCount(|s|, maxFiles), locked);
    var d := PruneDeleted(files, maxFiles, locked);
    GlobUnique(files, Pt02Csv);
    SortUnique(Glob(files, Pt02Csv));
    forall n | n in d ensures n in NameSet(files) && Matches(n, Pt02Csv) && n !in locked {
      var i :| 0 <= i < |d| && d[i] == n;
      assert s[i] in s;
    }
  }

  /** With no PT02 file refusing removal, the PT02 files left after a prune
      are exactly the newest ones past the cut: `max_files` of them, or all
      when there were no more than that. */
  lemma PruneKeepsNewest(files: seq<FileRecord>, maxFiles: int, locked: set<string>)
    requires UniqueNames(files)
    requires forall f :: f in files && Matches(f.name, Pt02Csv) ==> f.name !in locked
    ensures var s := Pt02Sorted(files);
            var k := PruneCount(|s|, maxFiles);
            forall f :: f in Glob(Pruned(files, true, maxFiles, locked), Pt02Csv) <==> f in s[k..]
  {
    var s := Pt02Sorted(files);
    var k := PruneCount(|s|, maxFiles);
    var stop := PruneStop(s, 0, k, locked);
    assert forall j :: 0 <= j < |s| ==> s[j] in s && s[j].name !in locked;
    assert stop == k;
    assert PruneDeleted(files, maxFiles, locked) == Names(s[..k]);
    GlobUnique(files, Pt02Csv);
    SortUnique(Glob(files, Pt02Csv));
    forall f | f in s {
      PrefixMember(s, k, f);
    }
    assert forall f :: f in s[k..] ==> f in s;
  }

  /** In a list with unique names, a member's name is among the first `k`
      names exactly when the member is not in the rest. */
  lemma PrefixMember(s: seq<FileRecord>, k: nat, f: FileRecord)
    requires UniqueNames(s) && k <= |s| && f in s
    ensures f.name in Elems(Names(s[..k])) <==> f !in s[k..]
  {
    var d := Names(s[..k]);
    var m :| 0 <= m < |s| && s[m] == f;
    if f.name in Elems(d) {
      var j :| 0 <= j < |d| && d[j] == f.name;
      assert s[j].name == s[m].name;
    }
    if m < k {
      assert d[m] == f.name;
    }
    if f in s[k..] {
      var j :| 0 <= j < |s[k..]| && s[k..][j] == f;
      assert s[k + j].name == s[m].name;
    }
    if m >= k {
      assert s[k..][m - k] == f;
    }
  }

  // ---------------------------------------------------------------------------
  // Choosing the CSV file
  // ---------------------------------------------------------------------------

  /** A file at or over 10 MiB is full, and the next index is tried. */
  const TenMb := 10 * 1024 * 1024

  /** The column header `writeheader` writes into a new file, with the CSV
      writer's line end. */
  const Header := "timestamp,temperature,co2,pm25,humidity\r\n"

  /** `PT02_YYYY-MM-DD` for the date text `today`. */
  function BaseName(today: string): string
  {
    "PT02_" + today
  }

  /** The `index`-th candidate: `BASE.csv`, then `BASE_001.csv`, `BASE_002.csv`, ... */
  function FileName(base: string, index: nat): string
  {
    if index == 0 then base + ".csv" else base + "_" + ZeroPad(index, 3) + ".csv"
  }

  /** A candidate is taken when it does not exist or is under 10 MiB. */
  predicate Usable(files: seq<FileRecord>, name: string)
  {
    match Find(files, name)
    case None => true
    case Some(f) => f.size < TenMb
  }

  /** The `index`-th candidate exists and is at or over 10 MiB. */
  predicate Full(files: seq<FileRecord>, base: string, index: nat)
  {
    !Usable(files, FileName(base, index))
  }

  /** Every daily file falls under the prune's pattern, so logging cannot
      outgrow it. */
  lemma FileNamePruned(today: string, index: nat)
    ensures Matches(FileName(BaseName(today), index), Pt02Csv)
  {
    var n := FileName(BaseName(today), index);
    var mid := if index == 0 then today else today + "_" + ZeroPad(index, 3);
    FileNameParts(today, index, mid);
    Framed("PT02_", mid, ".csv");
    Pt02Pattern(n);
  }

  /** A daily file name is the prefix, the date part and the extension. */
  lemma FileNameParts(today: string, index: nat, mid: string)
    requires mid == if index == 0 then today else today + "_" + ZeroPad(index, 3)
    ensures FileName(BaseName(today), index) == "PT02_" + mid + ".csv"
  {
    if index != 0 {
      assert FileName(BaseName(today), index) == "PT02_" + (today + "_" + ZeroPad(index, 3)) + ".csv";
    }
  }

  /** A concatenation starts with its first part and ends with its last. */
  lemma Framed(head: string, mid: string, tail: string)
    ensures StartsWith(head + mid + tail, head) && EndsWith(head + mid + tail, tail)
  {
    var n := head + mid + tail;
    assert n[..|head|] == head;
    assert n[|n| - |tail|..] == tail;
  }

  /** Different indices give different names. */
  lemma FileNameInjective(base: string, i: nat, j: nat)
    requires FileName(base, i) == FileName(base, j)
    ensures i == j
  {
    var a := FileName(base, i);
    var b := FileName(base, j);
    FileNameMark(base, i);
    FileNameMark(base, j);
    if i != 0 {
      var zi := ZeroPad(i, 3);
      var zj := ZeroPad(j, 3);
      assert |zi| == |zj|;
      assert a[|base| + 1..|base| + 1 + |zi|] == zi;
      assert b[|base| + 1..|base| + 1 + |zj|] == zj;
      ZeroPadValue(i, 3);
      ZeroPadValue(j, 3);
    }
  }

  /** The character after the base tells the first candidate from the others. */
  lemma FileNameMark(base: string, index: nat)
    ensures |FileName(base, index)| > |base|
    ensures FileName(base, index)[|base|] == if index == 0 then '.' else '_'
  {
  }

  /** The first `k` candidates. */
  function Tried(base: string, k: nat): set<string>
  {
    set j | 0 <= j < k :: FileName(base, j)
  }

  lemma {:induction false} TriedSize(base: string, k: nat)
    ensures |Tried(base, k)| == k
  {
    if k > 0 {
      TriedSize(base, k - 1);
      TriedSnoc(base, k - 1);
    }
  }

  /** One more candidate adds one new name. */
  lemma TriedSnoc(base: string, k: nat)
    ensures Tried(base, k + 1) == Tried(base, k) + {FileName(base, k)}
    ensures FileName(base, k) !in Tried(base, k)
  {
    if FileName(base, k) in Tried(base, k) {
      var j :| 0 <= j < k && FileName(base, j) == FileName(base, k);
      FileNameInjective(base, j, k);
    }
  }

  /** Full candidates are files of the directory, so there are no more of
      them than files: the search ends. */
  lemma TriedBound(files: seq<FileRecord>, base: string, k: nat)
    requires forall j :: 0 <= j < k ==> Full(files, base, j)
    ensures k <= |NameSet(files)|
  {
    assert Tried(base, k) <= NameSet(files) by {
      forall n | n in Tried(base, k) ensures n in NameSet(files) {
        var j :| 0 <= j < k && FileName(base, j) == n;
        assert Full(files, base, j);
        assert Find(files, n).Some?;
      }
    }
    TriedSize(base, k);
    SubsetSize(Tried(base, k), NameSet(files));
  }

  lemma {:induction false} SubsetSize<T>(a: set<T>, b: set<T>)
    requires a <= b
    ensures |a| <= |b|
    decreases |a|
  {
    if a != {} {
      var x :| x in a;
      SubsetSize(a - {x}, b - {x});
    }
  }

  lemma TriedMore(files: seq<FileRecord>, base: string, k: nat)
    requires forall j :: 0 <= j < k ==> Full(files, base, j)
    requires Full(files, base, k)
    ensures forall j :: 0 <= j < k + 1 ==> Full(files, base, j)
  {
  }

  /** The index `_get_csv_filename` settles on: the least usable one at or
      after `k`, given that those before `k` are full. */
  function LeastUsable(files: seq<FileRecord>, base: string, k: nat): (r: nat)
    requires forall j :: 0 <= j < k ==> Full(files, base, j)
    ensures k <= r && !Full(files, base, r)
    ensures forall j :: 0 <= j < r ==> Full(files, base, j)
    decreases |NameSet(files)| - k
  {
    if !Full(files, base, k) then k
    else
      TriedMore(files, base, k);
      TriedBound(files, base, k + 1);
      LeastUsable(files, base, k + 1)
  }

  /** The file today's row goes to. */
  function CsvName(files: seq<FileRecord>, today: string): string
  {
    FileName(BaseName(today), LeastUsable(files, BaseName(today), 0))
  }

  // ---------------------------------------------------------------------------
  // One save, as a whole
  // ---------------------------------------------------------------------------

  /** The manager's record, counter, emitted signals and the listing of the
      data directory. */
  datatype State = State(data: Record, count: nat, events: seq<Record>, files: seq<FileRecord>)

  /** `_save_to_csv`: one row of `row` bytes to today's file, when logging is
      on and the directory exists. */
  function Logged(files: seq<FileRecord>, enabled: bool, present: bool, today: string, row: nat, now: real)
    : seq<FileRecord>
  {
    if enabled && present then Appended(files, CsvName(files, today), |Header|, row, now) else files
  }

  /** `_cleanup_pt02_files`: the listing once the deleted files are gone. */
  function Pruned(files: seq<FileRecord>, present: bool, maxFiles: int, locked: set<string>): seq<FileRecord>
  {
    if present then Without(files, Elems(PruneDeleted(files, maxFiles, locked))) else files
  }

  /** `save_sensor_data` for sample `x` at clock `now`. */
  function Save(st: State, x: Sample, now: real, today: string, row: nat,
                enabled: bool, present: bool, locked: set<string>): State
  {
    var files := Logged(st.files, enabled, present, today, row, now);
    State(Saved(x, now), NextCount(st.count), st.events + [Saved(x, now)],
          if CleanupDue(st.count) then Pruned(files, present, KeepFiles, locked) else files)
  }

  /** The file a save with logging on writes to is today's first candidate
      that is missing or under 10 MiB: every earlier candidate is there and
      full. It falls under the prune's pattern. */
  lemma CsvNameChoice(files: seq<FileRecord>, today: string)
    ensures var idx := LeastUsable(files, BaseName(today), 0);
            var name := FileName(BaseName(today), idx);
            CsvName(files, today) == name
            && Usable(files, name)
            && (forall j :: 0 <= j < idx ==> Full(files, BaseName(today), j))
            && Matches(name, Pt02Csv)
  {
    FileNamePruned(today, LeastUsable(files, BaseName(today), 0));
  }

  /** The row lands in the named file: created with the header, or grown. */
  lemma RowAppended(files: seq<FileRecord>, name: string, row: nat, now: real)
    requires UniqueNames(files)
    ensures var before := Find(files, name);
            Find(Appended(files, name, |Header|, row, now), name)
            == Some(FileRecord(name, now, if before.Some? then before.value.size + row else |Header| + row))
  {
    AppendedFind(files, name, |Header|, row, now);
  }

  /** A save records the sample as the active reading and emits it. */
  lemma SaveRecords(st: State, x: Sample, now: real, today: string, row: nat,
                    enabled: bool, present: bool, locked: set<string>)
    ensures var r := Save(st, x, now, today, row, enabled, present, locked);
            r.data.status == Active && r.data.lastUpdate == Some(now)
            && r.data.temp == Some(x.temp) && r.data.co2 == Some(x.co2) && r.data.pm25 == Some(x.pm25)
            && r.data.humidity == Some(x.humidity)
            && r.events == st.events + [r.data]
  {
  }

  /** A line that parses is stored; one that does not leaves everything as it
      was. */
  function Receive(st: State, data: string, now: real, today: string, row: nat,
                   enabled: bool, present: bool, locked: set<string>): State
  {
    match ParseResponse(data)
    case Some(x) => Save(st, x, now, today, row, enabled, present, locked)
    case None => st
  }

  /** An unrecognised or malformed line changes nothing. */
  lemma ReceiveRefused(st: State, data: string, now: real, today: string, row: nat,
                       enabled: bool, present: bool, locked: set<string>)
    requires ParseResponse(data).None?
    ensures Receive(st, data, now, today, row, enabled, present, locked) == st
  {
  }

  /** The least candidate is the one the search stops at. */
  lemma LeastUsableIs(files: seq<FileRecord>, base: string, i: nat)
    requires forall j :: 0 <= j < i ==> Full(files, base, j)
    requires !Full(files, base, i)
    ensures LeastUsable(files, base, 0) == i
  {
    var r := LeastUsable(files, base, 0);
    assert i < r ==> Full(files, base, i);
  }

  /** What a prune that has removed the first `i` files leaves to do. */
  lemma NamesSnoc(s: seq<FileRecord>, i: nat)
    requires i < |s|
    ensures Names(s[..i + 1]) == Names(s[..i]) + [s[i].name]
  {
    var a := Names(s[..i + 1]);
    var b := Names(s[..i]) + [s[i].name];
    assert |a| == |b|;
    forall j | 0 <= j < |a| ensures a[j] == b[j] {
      if j < i { assert s[..i + 1][j] == s[..i][j]; }
    }
  }

  // ---------------------------------------------------------------------------
  // The manager
  // ---------------------------------------------------------------------------

  class PT02SensorManager {
    /** `sensor_data` */
    var sensorData: Record
    /** `csv_enabled` */
    var csvEnabled: bool
    /** `save_count` */
    var saveCount: nat
    /** The `sensor_data_updated` signals emitted so far, with their copies. */
    var events: seq<Record>
    /** The `data` directory beside the program. */
    var dir: Directory

    function View(): State
      reads this, dir
    {
      State(sensorData, saveCount, events, dir.files)
    }

    /** `__init__` (outside test mode): the initial record, logging on, the
        counter at zero, and the data directory created if it was missing. */
    constructor (dir: Directory)
      requires dir.Valid()
      modifies dir
      ensures dir.Valid() && dir.present && dir.files == old(dir.files) && dir.locked == old(dir.locked)
      ensures sensorData == Initial && csvEnabled && saveCount == 0 && events == [] && this.dir == dir
    {
      if !dir.present {
        dir.MakeDirs();
      }
      sensorData := Initial;
      csvEnabled := true;
      saveCount := 0;
      events := [];
      this.dir := dir;
    }

    /** `_get_csv_filename` for the date `today`: try `BASE.csv`, then
        `BASE_001.csv`, ..., and take the first that is missing or under
        10 MiB. */
    method GetCsvFilename(today: string) returns (name: string)
      requires dir.Valid()
      ensures name == CsvName(dir.files, today)
    {
      var base := BaseName(today);
      var i := 0;
      while true
        invariant forall j :: 0 <= j < i ==> Full(dir.files, base, j)
        invariant i <= |NameSet(dir.files)|
        decreases |NameSet(dir.files)| - i
      {
        name := FileName(base, i);
        var f := Find(dir.files, name);
        if f.None? || f.value.size < TenMb {
          LeastUsableIs(dir.files, base, i);
          return;
        }
        TriedMore(dir.files, base, i);
        TriedBound(dir.files, base, i + 1);
        i := i + 1;
      }
    }

    /** `_save_to_csv`: append one row of `row` bytes (its text is not
        modelled) to today's file, unless logging is off. */
    method SaveToCsv(now: real, today: string, row: nat)
      requires dir.Valid()
      modifies dir`files
      ensures dir.Valid()
      ensures dir.files == Logged(old(dir.files), csvEnabled, dir.present, today, row, now)
    {
      if !csvEnabled {
        return;
      }
      var name := GetCsvFilename(today);
      dir.Append(name, |Header|, row, now);
    }

    /** `_cleanup_pt02_files(max_files)`: list the PT02 files, oldest first,
        and remove from the front while more than `max_files` are left. The
        first removal that fails, or a `pop` from the emptied list, ends the
        loop; what was removed stays removed. */
    method CleanupPt02Files(maxFiles: int) returns (deleted: seq<string>)
      requires dir.Valid()
      modifies dir`files
      ensures dir.Valid()
      ensures deleted == if dir.present then PruneDeleted(old(dir.files), maxFiles, dir.locked) else []
      ensures dir.files == Pruned(old(dir.files), dir.present, maxFiles, dir.locked)
    {
      deleted := [];
      if !dir.present {
        return;
      }
      WithoutNothing(dir.files);
      var sorted := SortByMtime(Glob(dir.files, Pt02Csv));
      GlobUnique(dir.files, Pt02Csv);
      SortUnique(Glob(dir.files, Pt02Csv));
      PendingStart(dir.files, sorted);
      ghost var k := PruneCount(|sorted|, maxFiles);
      ghost var stop := PruneStop(sorted, 0, k, dir.locked);
      var i := 0;
      while |sorted| - i > maxFiles
        invariant 0 <= i <= stop <= k <= |sorted|
        invariant dir.Valid()
        invariant PruneStop(sorted, i, k, dir.locked) == stop
        invariant deleted == Names(sorted[..i])
        invariant dir.files == Without(old(dir.files), Elems(deleted))
        invariant Pending(old(dir.files), sorted, i, deleted)
      {
        if i == |sorted| {
          break;
        }
        var ok := dir.TryRemove(old(dir.files), sorted, i, deleted);
        if !ok {
          break;
        }
        NamesSnoc(sorted, i);
        deleted := deleted + [sorted[i].name];
        i := i + 1;
      }
      StoppedPrune(old(dir.files), maxFiles, dir.locked, sorted, deleted);
    }

    /** `_cleanup_old_csv_files`: prune to the newest thirty. */
    method CleanupOldCsvFiles()
      requires dir.Valid()
      modifies dir`files
      ensures dir.Valid()
      ensures dir.files == Pruned(old(dir.files), dir.present, KeepFiles, dir.locked)
    {
      var _ := CleanupPt02Files(KeepFiles);
    }

    /** The counter step of `save_sensor_data`: one more save, and every
        fiftieth one prunes the PT02 files and restarts the counter. */
    method CountSave()
      requires dir.Valid()
      modifies this`saveCount, dir`files
      ensures dir.Valid()
      ensures saveCount == NextCount(old(saveCount))
      ensures dir.files == if CleanupDue(old(saveCount)) then Pruned(old(dir.files), dir.present, KeepFiles, dir.locked)
                           else old(dir.files)
    {
      saveCount := saveCount + 1;
      if saveCount >= CleanupEvery {
        saveCount := 0;
        CleanupOldCsvFiles();
      }
    }

    /** `save_sensor_data(temp, co2, pm25, humidity)` at clock `now` on the
        date `today`, the CSV row being `row` bytes long. */
    method SaveSensorData(x: Sample, now: real, today: string, row: nat)
      requires dir.Valid()
      modifies this`sensorData, this`saveCount, this`events, dir`files
      ensures dir.Valid()
      ensures View() == Save(old(View()), x, now, today, row, csvEnabled, dir.present, dir.locked)
    {
      sensorData := Saved(x, now);
      SaveToCsv(now, today, row);
      CountSave();
      events := events + [sensorData];
    }

    /** `parse_pt02_response(data)`: `ok` when the line was in one of the
        two formats and its values were stored and logged. */
    method ParsePt02Response(data: string, now: real, today: string, row: nat) returns (ok: bool)
      requires dir.Valid()
      modifies this`sensorData, this`saveCount, this`events, dir`files
      ensures dir.Valid()
      ensures ok == ParseResponse(data).Some?
      ensures View() == Receive(old(View()), data, now, today, row, csvEnabled, dir.present, dir.locked)
    {
      var r := ParseResponse(data);
      ok := r.Some?;
      if ok {
        SaveSensorData(r.value, now, today, row);
      }
    }

    /** `get_sensor_data`: a copy of the record. */
    method GetSensorData() returns (r: Record)
      ensures r == sensorData
    {
      r := sensorData;
    }

    /** `get_latest_values`: the temperature, CO2 and PM2.5 entries. */
    method GetLatestValues() returns (temp: Option<real>, co2: Option<int>, pm25: Option<int>)
      ensures temp == sensorData.temp && co2 == sensorData.co2 && pm25 == sensorData.pm25
    {
      temp, co2, pm25 := sensorData.temp, sensorData.co2, sensorData.pm25;
    }

    /** `reset_sensor_data`: back to unknown, without a `humidity` key. */
    method ResetSensorData()
      modifies this`sensorData
      ensures sensorData == Cleared
    {
      sensorData := Cleared;
    }

    /** `enable_csv_logging(enabled)` */
    method EnableCsvLogging(enabled: bool)
      modifies this`csvEnabled
      ensures csvEnabled == enabled
    {
      csvEnabled := enabled;
    }

    /** `get_csv_file_info`: today's file name, its size (0 when it does not
        exist yet) and its modification time. */
    method GetCsvFileInfo(today: string) returns (name: string, size: nat, lastModified: Option<real>)
      requires dir.Valid()
      ensures name == CsvName(dir.files, today)
      ensures match Find(dir.files, name)
              case Some(f) => size == f.size && lastModified == Some(f.mtime)
              case None => size == 0 && lastModified.None?
    {
      name := GetCsvFilename(today);
      var f := Find(dir.files, name);
      if f.Some? {
        size, lastModified := f.value.size, Some(f.value.mtime);
      } else {
        size, lastModified := 0, None;
      }
    }
  }
}
