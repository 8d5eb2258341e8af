/** The three line patterns both temperature/humidity managers match with
    `re.match` (managers/air_sensor_manager.py:32-34, managers/sensor_manager.py:32-34),
    written out as a recogniser over the text. `TAG` is `AIRCON` or `DSCT`:

      data:          \[TAG\]\s+(ID\d{2}),TEMP:\s*([\d.]+),\s*HUMI:\s*([\d.]+)
      timeout:       \[TAG\]\s+(ID\d{2}),Sensor Check TIMEOUT!
      scan complete: \[TAG\]\s*SEQUENTIAL SCAN COMPLETE:.*Total:\s*(\d+).*Success:\s*(\d+)
                     .*Error:\s*(\d+).*Time:\s*(\d+)ms

    `re.match` anchors at the start only. `\s` is Python's whitespace (`IsSpace`),
    `.` is any character but a newline; `\d` is taken as the ASCII digits. */
module SensorLines {
  import opened Common

  /** What a received line is, in the order the managers test the patterns. */
  datatype LineKind =
    | Data(id: string, temp: string, humi: string)
    | Timeout(id: string)
    | ScanComplete
    | Other

  predicate IsNumChar(c: char) { IsDigit(c) || c == '.' }

  /** Text `[\d.]+` matches entirely. */
  predicate IsNumText(s: string) { |s| > 0 && forall i :: 0 <= i < |s| ==> IsNumChar(s[i]) }

  /** The longest prefix of `[\d.]` characters. */
  function TakeNum(s: string): (r: string)
    ensures |r| <= |s| && r == s[..|r|]
    ensures forall i :: 0 <= i < |r| ==> IsNumChar(r[i])
    ensures |r| == |s| || !IsNumChar(s[|r|])
    decreases |s|
  {
    if s != [] && IsNumChar(s[0]) then [s[0]] + TakeNum(s[1..]) else []
  }

  /** What is left after the leading ASCII digits. */
  function DropDigits(s: string): (r: string)
    ensures |r| <= |s| && r == s[|s| - |r|..]
    ensures r == [] || !IsDigit(r[0])
    ensures AllDigits(s[..|s| - |r|])
    decreases |s|
  {
    if s != [] && IsDigit(s[0]) then DropDigits(s[1..]) else s
  }

  function Header(tag: string): string { "[" + tag + "]" }

  /** `ID\d{2},` at the start of `s`. */
  predicate IdComma(s: string)
  {
    |s| >= 5 && s[0] == 'I' && s[1] == 'D' && IsDigit(s[2]) && IsDigit(s[3]) && s[4] == ','
  }

  /** `\[TAG\]\s+(ID\d{2}),` at the start of `s`: the ID and the text after the comma. */
  function IdPrefix(tag: string, s: string): (r: Option<(string, string)>)
    ensures r.Some? ==> |r.value.0| == 4 && r.value.0[..2] == "ID"
  {
    var h := Header(tag);
    if !StartsWith(s, h) then None
    else
      var a := s[|h|..];
      var b := StripLeft(a);
      if |b| == |a| || !IdComma(b) then None
      else Some((b[..4], b[5..]))
  }

  /** `KEY\s*([\d.]+)` at the start of `c`: the number text and what follows it. */
  function NumField(c: string, key: string): (r: Option<(string, string)>)
    ensures r.Some? ==> IsNumText(r.value.0)
  {
    if !StartsWith(c, key) then None
    else
      var d := StripLeft(c[|key|..]);
      var t := TakeNum(d);
      if t == [] then None else Some((t, d[|t|..]))
  }

  /** `TEMP:\s*([\d.]+),\s*HUMI:\s*([\d.]+)` at the start of `c`. */
  function DataFields(c: string): (r: Option<(string, string)>)
    ensures r.Some? ==> IsNumText(r.value.0) && IsNumText(r.value.1)
  {
    match NumField(c, "TEMP:")
    case None => None
    case Some((t, e)) =>
      if e == [] || e[0] != ',' then None
      else
        match NumField(StripLeft(e[1..]), "HUMI:")
        case None => None
        case Some((h, _)) => Some((t, h))
  }

  function DataMatch(tag: string, s: string): (r: Option<(string, string, string)>)
    ensures r.Some? ==> IsNumText(r.value.1) && IsNumText(r.value.2)
  {
    match IdPrefix(tag, s)
    case None => None
    case Some((id, c)) =>
      match DataFields(c)
      case None => None
      case Some((t, h)) => Some((id, t, h))
  }

  const TimeoutText := "Sensor Check TIMEOUT!"

  function TimeoutMatch(tag: string, s: string): Option<string>
  {
    match IdPrefix(tag, s)
    case None => None
    case Some((id, c)) => if StartsWith(c, TimeoutText) then Some(id) else None
  }

  const ScanHeader := "SEQUENTIAL SCAN COMPLETE:"
  const ScanLabels: seq<string> := ["Total:", "Success:", "Error:", "Time:"]

  /** Whether `.*LABEL\s*\d+` for the labels from `k` on, the last one followed
      by `ms`, matches at the start of `r`. The `.*` may take any characters but
      a newline; the leading `.*` of the next key absorbs the rest of a number. */
  function LabelsFrom(r: string, k: nat): bool
    requires k < |ScanLabels|
    decreases |r|
  {
    var l := ScanLabels[k];
    (StartsWith(r, l)
      && var p := StripLeft(r[|l|..]);
         p != [] && IsDigit(p[0])
         && if k == |ScanLabels| - 1 then StartsWith(DropDigits(p), "ms") else LabelsFrom(p[1..], k + 1))
    || (r != [] && r[0] != '\n' && LabelsFrom(r[1..], k))
  }

  predicate ScanMatch(tag: string, s: string)
  {
    var h := Header(tag);
    StartsWith(s, h)
    && var b := StripLeft(s[|h|..]);
       StartsWith(b, ScanHeader) && LabelsFrom(b[|ScanHeader|..], 0)
  }

  /** Which branch of `parse_sensor_data` a line takes. */
  function Classify(tag: string, s: string): (r: LineKind)
    ensures r.Data? ==> DataMatch(tag, s) == Some((r.id, r.temp, r.humi))
    ensures r.Timeout? ==> DataMatch(tag, s).None? && TimeoutMatch(tag, s) == Some(r.id)
    ensures r.ScanComplete? ==> DataMatch(tag, s).None? && TimeoutMatch(tag, s).None? && ScanMatch(tag, s)
    ensures r.Other? <==> DataMatch(tag, s).None? && TimeoutMatch(tag, s).None? && !ScanMatch(tag, s)
  {
    match DataMatch(tag, s)
    case Some((id, t, h)) => Data(id, t, h)
    case None =>
      match TimeoutMatch(tag, s)
      case Some(id) => Timeout(id)
      case None => if ScanMatch(tag, s) then ScanComplete else Other
  }

  // ---------------------------------------------------------------------------
  // The lines the controller sends, and reading them back
  // ---------------------------------------------------------------------------

  /** A sensor ID as the controller prints it: `ID` and two digits. */
  predicate IsSensorId(id: string)
  {
    |id| == 4 && id[0] == 'I' && id[1] == 'D' && IsDigit(id[2]) && IsDigit(id[3])
  }

  /** `[TAG] IDnn,TEMP: t, HUMI: h` */
  function DataLine(tag: string, id: string, t: string, h: string): string
  {
    Header(tag) + " " + id + "," + ("TEMP:" + " " + t + ("," + " " + "HUMI:" + " " + h))
  }

  /** `[TAG] IDnn,Sensor Check TIMEOUT!` */
  function TimeoutLine(tag: string, id: string): string
  {
    Header(tag) + " " + id + "," + TimeoutText
  }

  /** `[TAG] SEQUENTIAL SCAN COMPLETE: Total: n, Success: n, Error: n, Time: nms` */
  function ScanLine(tag: string, total: nat, success: nat, errors: nat, ms: nat): string
  {
    Header(tag) + (" " + (ScanHeader + ScanBody(total, success, errors, ms)))
  }

  lemma StripNone(x: string)
    requires x == [] || !IsSpace(x[0])
    ensures StripLeft(x) == x
  {
  }

  lemma {:induction false} TakeNumText(t: string, rest: string)
    requires forall i :: 0 <= i < |t| ==> IsNumChar(t[i])
    requires rest == [] || !IsNumChar(rest[0])
    ensures TakeNum(t + rest) == t
    decreases |t|
  {
    if t != [] {
      assert (t + rest)[1..] == t[1..] + rest;
      TakeNumText(t[1..], rest);
    } else {
      assert t + rest == rest;
    }
  }

  lemma {:induction false} DropDigitsText(d: string, rest: string)
    requires AllDigits(d)
    requires rest == [] || !IsDigit(rest[0])
    ensures DropDigits(d + rest) == rest
    decreases |d|
  {
    if d != [] {
      assert (d + rest)[1..] == d[1..] + rest;
      DropDigitsText(d[1..], rest);
    } else {
      assert d + rest == rest;
    }
  }

  lemma IdPrefixOf(tag: string, id: string, c: string)
    requires IsSensorId(id)
    ensures IdPrefix(tag, Header(tag) + " " + id + "," + c) == Some((id, c))
  {
    var h := Header(tag);
    var s := h + " " + id + "," + c;
    assert s[..|h|] == h;
    var a := s[|h|..];
    assert a == " " + (id + "," + c);
    StripOneSpace(id + "," + c);
    var b := id + "," + c;
    assert b[..4] == id && b[5..] == c;
  }

  lemma NumFieldOf(key: string, t: string, rest: string)
    requires IsNumText(t)
    requires rest == [] || !IsNumChar(rest[0])
    ensures NumField(key + " " + t + rest, key) == Some((t, rest))
  {
    var c := key + " " + t + rest;
    assert c[..|key|] == key;
    assert c[|key|..] == " " + (t + rest);
    StripOneSpace(t + rest);
    TakeNumText(t, rest);
    NumFieldFrom(c, key, t, rest);
  }

  /** `NumField` once the key, the spaces and the number are found. */
  lemma NumFieldFrom(c: string, key: string, t: string, rest: string)
    requires StartsWith(c, key) && StripLeft(c[|key|..]) == t + rest
    requires t != [] && TakeNum(t + rest) == t
    ensures NumField(c, key) == Some((t, rest))
  {
    assert (t + rest)[|t|..] == rest;
  }

  lemma HumiTail(h: string)
    requires IsNumText(h)
    ensures var e := "," + " " + "HUMI:" + " " + h;
            e != [] && e[0] == ',' && NumField(StripLeft(e[1..]), "HUMI:") == Some((h, []))
  {
    var e := "," + " " + "HUMI:" + " " + h;
    assert e[1..] == " " + ("HUMI:" + " " + h);
    StripOneSpace("HUMI:" + " " + h);
    assert "HUMI:" + " " + h == "HUMI:" + " " + h + [];
    NumFieldOf("HUMI:", h, []);
  }

  lemma DataFieldsOf(t: string, h: string)
    requires IsNumText(t) && IsNumText(h)
    ensures DataFields("TEMP:" + " " + t + ("," + " " + "HUMI:" + " " + h)) == Some((t, h))
  {
    var e := "," + " " + "HUMI:" + " " + h;
    NumFieldOf("TEMP:", t, e);
    HumiTail(h);
    FieldsFrom("TEMP:" + " " + t + e, t, e, h);
  }

  /** The two field matches put together. */
  lemma FieldsFrom(c: string, t: string, e: string, h: string)
    requires NumField(c, "TEMP:") == Some((t, e))
    requires e != [] && e[0] == ',' && NumField(StripLeft(e[1..]), "HUMI:") == Some((h, []))
    ensures DataFields(c) == Some((t, h))
  {
  }

  /** A data line reads back as its ID and its two number texts. */
  lemma DataLineRoundTrip(tag: string, id: string, t: string, h: string)
    requires IsSensorId(id) && IsNumText(t) && IsNumText(h)
    ensures Classify(tag, DataLine(tag, id, t, h)) == Data(id, t, h)
  {
    var c := "TEMP:" + " " + t + ("," + " " + "HUMI:" + " " + h);
    IdPrefixOf(tag, id, c);
    DataFieldsOf(t, h);
  }

  lemma NotStartsWith(s: string, p: string)
    requires s != [] && p != [] && s[0] != p[0]
    ensures !StartsWith(s, p)
  {
    if |p| <= |s| {
      assert s[..|p|][0] == s[0];
    }
  }

  /** A timeout line reads back as its ID. */
  lemma TimeoutLineRoundTrip(tag: string, id: string)
    requires IsSensorId(id)
    ensures Classify(tag, TimeoutLine(tag, id)) == Timeout(id)
  {
    var s := TimeoutLine(tag, id);
    TimeoutNotData(tag, id, s);
    assert TimeoutMatch(tag, s) == Some(id);
  }

  /** A timeout line has the ID prefix but no `TEMP:` field. */
  lemma TimeoutNotData(tag: string, id: string, s: string)
    requires IsSensorId(id) && s == TimeoutLine(tag, id)
    ensures IdPrefix(tag, s) == Some((id, TimeoutText)) && DataMatch(tag, s).None?
  {
    IdPrefixOf(tag, id, TimeoutText);
    NotStartsWith(TimeoutText, "TEMP:");
    assert DataFields(TimeoutText).None?;
  }

  /** `KEY\s*\d+` followed by a match of the keys after it. */
  lemma LabelHit(r: string, k: nat)
    requires k < |ScanLabels| - 1
    requires StartsWith(r, ScanLabels[k])
    requires var p := StripLeft(r[|ScanLabels[k]|..]);
             p != [] && IsDigit(p[0]) && LabelsFrom(p[1..], k + 1)
    ensures LabelsFrom(r, k)
  {
  }

  /** The last key and number: `Time: <n>ms`. */
  lemma LastLabel(n: nat)
    ensures LabelsFrom("Time:" + " " + (NatToString(n) + "ms"), 3)
  {
    var d := NatToString(n);
    var r := "Time:" + " " + (d + "ms");
    assert r[..5] == "Time:";
    assert r[5..] == " " + (d + "ms");
    StripOneSpace(d + "ms");
    DropDigitsText(d, "ms");
  }

  /** `KEY <n>, ` in front of a match of the keys after it. */
  function LabelPart(k: nat, n: nat, rest: string): string
    requires k < |ScanLabels|
  {
    ScanLabels[k] + " " + (NatToString(n) + (", " + rest))
  }

  lemma NoNewline(d: string)
    requires AllDigits(d)
    ensures forall i :: 0 <= i < |d + ", "| ==> (d + ", ")[i] != '\n'
  {
    forall i | 0 <= i < |d + ", "| ensures (d + ", ")[i] != '\n' {
      if i < |d| { assert (d + ", ")[i] == d[i]; }
    }
  }

  /** After `KEY `: a number, then `, ` and a match of the keys after it. */
  lemma NumberThenLabels(d: string, rest: string, k: nat)
    requires k < |ScanLabels| && AllDigits(d) && d != []
    requires LabelsFrom(rest, k)
    ensures var tail := d + (", " + rest);
            tail != [] && IsDigit(tail[0]) && LabelsFrom(tail[1..], k)
  {
    NoNewline(d[1..]);
    SkipToLabel(d[1..] + ", ", rest, k);
    NumberTail(d, rest);
  }

  /** `<digits>, <rest>` starts with a digit; after it come the other digits. */
  lemma NumberTail(d: string, rest: string)
    requires AllDigits(d) && d != []
    ensures var tail := d + (", " + rest);
            tail != [] && IsDigit(tail[0]) && tail[1..] == (d[1..] + ", ") + rest
  {
    assert IsDigit(d[0]);
    ConsSplit(d, ", " + rest);
    assert d[1..] + (", " + rest) == (d[1..] + ", ") + rest;
  }

  /** The head and the tail of a concatenation with a non-empty front. */
  lemma ConsSplit(a: string, b: string)
    requires a != []
    ensures (a + b)[0] == a[0] && (a + b)[1..] == a[1..] + b
  {
  }

  lemma DigitNotSpace(c: char)
    requires IsDigit(c)
    ensures !IsSpace(c)
  {
  }

  lemma LabelStep(k: nat, n: nat, rest: string)
    requires k < |ScanLabels| - 1
    requires LabelsFrom(rest, k + 1)
    ensures LabelsFrom(LabelPart(k, n, rest), k)
  {
    var l := ScanLabels[k];
    var d := NatToString(n);
    var tail := d + (", " + rest);
    var r := l + " " + tail;
    KeySplit(l, tail);
    NumberThenLabels(d, rest, k + 1);
    DigitNotSpace(tail[0]);
    StripOneSpace(tail);
    LabelHit(r, k);
  }

  /** `KEY <tail>` splits back into the key and ` <tail>`. */
  lemma KeySplit(l: string, tail: string)
    ensures var r := l + " " + tail;
            r[..|l|] == l && r[|l|..] == " " + tail
  {
    var r := l + " " + tail;
    assert r == l + (" " + tail);
  }

  /** The `.*` before a key skips any text without a newline. */
  lemma {:induction false} SkipToLabel(junk: string, rest: string, k: nat)
    requires k < |ScanLabels|
    requires forall i :: 0 <= i < |junk| ==> junk[i] != '\n'
    requires LabelsFrom(rest, k)
    ensures LabelsFrom(junk + rest, k)
    decreases |junk|
  {
    if junk == [] {
      assert junk + rest == rest;
    } else {
      SkipToLabel(junk[1..], rest, k);
      ConsSplit(junk, rest);
      SkipOne(junk + rest, k);
    }
  }

  /** One character other than a newline before a match is skipped. */
  lemma SkipOne(r: string, k: nat)
    requires k < |ScanLabels|
    requires r != [] && r[0] != '\n' && LabelsFrom(r[1..], k)
    ensures LabelsFrom(r, k)
  {
  }

  /** What follows `SEQUENTIAL SCAN COMPLETE:` in a scan-complete line. */
  function ScanBody(total: nat, success: nat, errors: nat, ms: nat): string
  {
    " " + LabelPart(0, total, LabelPart(1, success, LabelPart(2, errors, "Time:" + " " + (NatToString(ms) + "ms"))))
  }

  lemma ThreeLabels(total: nat, success: nat, errors: nat, r3: string)
    requires LabelsFrom(r3, 3)
    ensures LabelsFrom(LabelPart(0, total, LabelPart(1, success, LabelPart(2, errors, r3))), 0)
  {
    LabelStep(2, errors, r3);
    TwoLabels(0, total, success, LabelPart(2, errors, r3));
  }

  lemma TwoLabels(k: nat, a: nat, b: nat, r: string)
    requires k + 2 < |ScanLabels| && LabelsFrom(r, k + 2)
    ensures LabelsFrom(LabelPart(k, a, LabelPart(k + 1, b, r)), k)
  {
    LabelStep(k + 1, b, r);
    LabelStep(k, a, LabelPart(k + 1, b, r));
  }

  lemma ScanBodyMatches(total: nat, success: nat, errors: nat, ms: nat)
    ensures LabelsFrom(ScanBody(total, success, errors, ms), 0)
  {
    var r3 := "Time:" + " " + (NatToString(ms) + "ms");
    LastLabel(ms);
    ThreeLabels(total, success, errors, r3);
    SkipToLabel(" ", LabelPart(0, total, LabelPart(1, success, LabelPart(2, errors, r3))), 0);
  }

  /** A scan-complete line is recognised whatever its counts. */
  lemma ScanLineRoundTrip(tag: string, total: nat, success: nat, errors: nat, ms: nat)
    ensures Classify(tag, ScanLine(tag, total, success, errors, ms)) == ScanComplete
  {
    var body := ScanBody(total, success, errors, ms);
    ScanBodyMatches(total, success, errors, ms);
    var h := Header(tag);
    var b := ScanHeader + body;
    var s := ScanLine(tag, total, success, errors, ms);
    assert s == h + (" " + b);
    assert s[..|h|] == h;
    assert s[|h|..] == " " + b;
    StripOneSpace(b);
    assert b[..|ScanHeader|] == ScanHeader;
    assert b[|ScanHeader|..] == body;
    assert ScanMatch(tag, s);
    assert IdPrefix(tag, s).None? by {
      assert !IdComma(b) by { assert b[0] == 'S'; }
    }
  }
}
