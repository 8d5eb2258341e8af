/** `CSVCleaner` (utils/csv_cleaner.py): retention rules for the CSV logs in the
    data directory, by count, by age and by total size. Each rule lists the
    files that match a `glob` pattern, picks the ones to go, and removes them
    one by one; a file whose removal fails is skipped and not reported. */
module CsvCleaner {
  import opened Common
  import opened DataDirectory

  const AllCsv := Pattern("", ".csv")
  const DsctCsv := Pattern("DSCT_", ".csv")
  const AirconCsv := Pattern("AIRCON_", ".csv")

  const SecondsPerDay: real := 86400.0
  const BytesPerMb := 1024 * 1024

  // ---------------------------------------------------------------------------
  // Which files each rule picks
  // ---------------------------------------------------------------------------

  /** `cleanup_by_count`: nothing while at most `maxFiles` files match;
      otherwise the matches, oldest first, cut with `[:-max_files]`. */
  function CountVictims(files: seq<FileRecord>, maxFiles: int, p: Pattern): seq<FileRecord>
  {
    var csv := Glob(files, p);
    if |csv| <= maxFiles then [] else Slice(SortByMtime(csv), -maxFiles)
  }

  /** `cleanup_by_age`: the matches older than the cutoff, in listing order. */
  function AgeVictims(csv: seq<FileRecord>, cutoff: real): (r: seq<FileRecord>)
    ensures forall f :: f in r <==> f in csv && f.mtime < cutoff
  {
    if csv == [] then []
    else (if csv[0].mtime < cutoff then [csv[0]] else []) + AgeVictims(csv[1..], cutoff)
  }

  /** The cutoff `datetime.now() - timedelta(days=max_days)`, in seconds. */
  function Cutoff(now: real, maxDays: int): real
  {
    now - maxDays as real * SecondsPerDay
  }

  /** Where `cleanup_by_size`'s loop over the files, oldest first, stops when
      it is at position `i` with `total` bytes still counted: at the end of the
      list or once the total fits. A removed file's size comes off the total; a
      file that cannot be removed is passed over and still counts. */
  function SizeStop(sorted: seq<FileRecord>, i: nat, total: int, limit: int, locked: set<string>): (r: nat)
    requires i <= |sorted|
    ensures i <= r <= |sorted|
    decreases |sorted| - i
  {
    if i == |sorted| || total <= limit then i
    else SizeStop(sorted, i + 1, if sorted[i].name in locked then total else total - sorted[i].size, limit, locked)
  }

  /** The names `cleanup_by_size` removes: those of the files it reached that
      could be removed. */
  function SizeVictims(files: seq<FileRecord>, maxSizeMb: int, p: Pattern, locked: set<string>): seq<string>
  {
    var sorted := SortByMtime(Glob(files, p));
    var total := TotalSize(sorted);
    var limit := maxSizeMb * BytesPerMb;
    if total <= limit then [] else Removable(sorted[..SizeStop(sorted, 0, total, limit, locked)], locked)
  }

  // ---------------------------------------------------------------------------
  // What the rules promise
  // ---------------------------------------------------------------------------

  /** At or under the limit nothing is picked. */
  lemma CountUnderLimit(files: seq<FileRecord>, maxFiles: int, p: Pattern)
    requires |Glob(files, p)| <= maxFiles
    ensures CountVictims(files, maxFiles, p) == []
  {
  }

  /** Over a non-negative limit, exactly the surplus is picked: the oldest
      ones, each no newer than any file that stays. With `max_files = 0` the
      slice `[:-0]` is empty and nothing is picked at all. */
  lemma CountPicksOldest(files: seq<FileRecord>, maxFiles: int, p: Pattern)
    requires maxFiles >= 0
    ensures var csv := Glob(files, p);
            var v := CountVictims(files, maxFiles, p);
            var sorted := SortByMtime(csv);
            (maxFiles == 0 ==> v == [])
            && (0 < maxFiles < |csv| ==>
                  |v| == |csv| - maxFiles && v == sorted[..|v|]
                  && forall i, j :: 0 <= i < |v| <= j < |sorted| ==> v[i].mtime <= sorted[j].mtime)
  {
  }

  /** A negative limit picks the `-max_files` oldest (or all, if fewer). */
  lemma CountNegative(files: seq<FileRecord>, maxFiles: int, p: Pattern)
    requires maxFiles < 0
    ensures var csv := Glob(files, p);
            CountVictims(files, maxFiles, p) == SortByMtime(csv)[..Min(-maxFiles, |csv|)]
  {
  }

  /** The size rule, when every removal succeeds, removes the shortest run
      of oldest files that brings the total within the limit: what is left
      fits, and leaving one more file would not have. */
  lemma {:induction false} SizeStopShortest(sorted: seq<FileRecord>, i: nat, total: int, limit: int)
    requires i <= |sorted| && total == TotalSize(sorted[i..])
    ensures var k := SizeStop(sorted, i, total, limit, {});
            (TotalSize(sorted[k..]) <= limit || k == |sorted|)
            && (k > i ==> TotalSize(sorted[k - 1..]) > limit)
    decreases |sorted| - i
  {
    if i < |sorted| && total > limit {
      SuffixTotal(sorted, i);
      SizeStopShortest(sorted, i + 1, total - sorted[i].size, limit);
      assert SizeStop(sorted, i, total, limit, {}) == SizeStop(sorted, i + 1, total - sorted[i].size, limit, {});
    }
  }

  /** One file further into the size loop, while the total is over the limit. */
  lemma SizeStopNext(sorted: seq<FileRecord>, i: nat, total: int, limit: int, locked: set<string>, next: int)
    requires i < |sorted| && total > limit
    requires next == if sorted[i].name in locked then total else total - sorted[i].size
    ensures SizeStop(sorted, i + 1, next, limit, locked) == SizeStop(sorted, i, total, limit, locked)
  {
  }

  /** The size of a suffix is its first file's plus the rest's. */
  lemma SuffixTotal(sorted: seq<FileRecord>, i: nat)
    requires i < |sorted|
    ensures TotalSize(sorted[i..]) == sorted[i].size + TotalSize(sorted[i + 1..])
  {
    assert sorted[i..][1..] == sorted[i + 1..];
  }

  /** What `cleanup_by_size` picks, once the listing and the total are known. */
  lemma SizeVictimsOf(files: seq<FileRecord>, maxSizeMb: int, p: Pattern, locked: set<string>,
                      sorted: seq<FileRecord>, total: int, limit: int)
    requires sorted == SortByMtime(Glob(files, p)) && total == TotalSize(sorted)
    requires limit == maxSizeMb * BytesPerMb
    ensures SizeVictims(files, maxSizeMb, p, locked)
            == if total <= limit then [] else Removable(sorted[..SizeStop(sorted, 0, total, limit, locked)], locked)
  {
  }

  /** With nothing locked, the size rule removes every file it reaches. */
  lemma SizeVictimsUnlocked(files: seq<FileRecord>, maxSizeMb: int, p: Pattern)
    ensures var sorted := SortByMtime(Glob(files, p));
            var total := TotalSize(sorted);
            var limit := maxSizeMb * BytesPerMb;
            total > limit ==> SizeVictims(files, maxSizeMb, p, {}) == Names(sorted[..SizeStop(sorted, 0, total, limit, {})])
  {
    var sorted := SortByMtime(Glob(files, p));
    var total := TotalSize(sorted);
    var limit := maxSizeMb * BytesPerMb;
    RemovableAll(sorted[..SizeStop(sorted, 0, total, limit, {})], {});
  }

  /** `auto_cleanup`'s DSCT pass never touches an AIRCON file: removing
      files that do not match a pattern leaves its matches as they were. */
  lemma {:induction false} GlobWithout(files: seq<FileRecord>, gone: set<string>, p: Pattern)
    requires forall n :: n in gone ==> !Matches(n, p)
    ensures Glob(Without(files, gone), p) == Glob(files, p)
    decreases |files|
  {
    if files != [] {
      GlobWithout(files[1..], gone, p);
      var w := Without(files[1..], gone);
      if files[0].name !in gone {
        assert Without(files, gone) == [files[0]] + w;
        assert ([files[0]] + w)[1..] == w;
      } else {
        assert Without(files, gone) == w;
        assert !Matches(files[0].name, p);
      }
    }
  }

  /** No name matches both the DSCT and the AIRCON pattern. */
  lemma PatternsDisjoint(n: string)
    requires Matches(n, DsctCsv)
    ensures !Matches(n, AirconCsv)
  {
    assert n[..5] == "DSCT_";
    assert n[0] == 'D';
  }

  /** The DSCT pass of `auto_cleanup` removes no AIRCON log, so the AIRCON
      pass picks what it would have picked on the directory as it was. */
  lemma DsctPassSparesAircon(files: seq<FileRecord>, maxFiles: int, present: bool, locked: set<string>,
                             dsct: seq<string>)
    requires UniqueNames(files)
    requires if present then dsct == Removable(CountVictims(files, maxFiles, DsctCsv), locked) else dsct == []
    ensures CountVictims(Without(files, Elems(dsct)), maxFiles, AirconCsv) == CountVictims(files, maxFiles, AirconCsv)
  {
    CountVictimsFromFiles(files, maxFiles, DsctCsv);
    forall n | n in Elems(dsct) ensures !Matches(n, AirconCsv) {
      var f :| f in CountVictims(files, maxFiles, DsctCsv) && f.name == n;
      PatternsDisjoint(n);
    }
    GlobWithout(files, Elems(dsct), AirconCsv);
  }

  /** The victims of one rule are files of the directory, with distinct names. */
  lemma CountVictimsFromFiles(files: seq<FileRecord>, maxFiles: int, p: Pattern)
    requires UniqueNames(files)
    ensures var v := CountVictims(files, maxFiles, p);
            UniqueNames(v) && (forall f :: f in v ==> f in files && Matches(f.name, p))
  {
    var csv := Glob(files, p);
    GlobUnique(files, p);
    SortUnique(csv);
    if |csv| > maxFiles {
      var sorted := SortByMtime(csv);
      var v := Slice(sorted, -maxFiles);
      PrefixUnique(sorted, |v|);
      assert forall f :: f in v ==> f in sorted;
    }
  }

  /** `round(n / d, 2)` as a count of hundredths: the multiple of 1/100
      nearest to n/d, the even one on a tie, as Python rounds the exact value
      of a float. */
  function RoundHundredths(n: nat, d: nat): (k: nat)
    requires d > 0
    ensures var e := 2 * (100 * n - k * d);
            && -(d as int) <= e <= d
            && (e == d || e == -(d as int) ==> k % 2 == 0)
  {
    var m := 100 * n;
    var q, r := m / d, m % d;
    DivParts(m, d, q, r);
    var k := if 2 * r < d then q
             else if 2 * r > d then q + 1
             else if q % 2 == 0 then q
             else q + 1;
    Nearest(m, d, q, r, k);
    k
  }

  lemma DivParts(m: nat, d: nat, q: nat, r: nat)
    requires d > 0 && q == m / d && r == m % d
    ensures m == q * d + r && r < d
  {
  }

  /** Rounding the quotient up or down by the remainder lands within half a
      step of `m / d`, on the even side of a tie. */
  lemma Nearest(m: nat, d: nat, q: nat, r: nat, k: nat)
    requires d > 0 && m == q * d + r && r < d
    requires k == if 2 * r < d then q else if 2 * r > d then q + 1 else if q % 2 == 0 then q else q + 1
    ensures var e := 2 * (m - k * d);
            && -(d as int) <= e <= d
            && (e == d || e == -(d as int) ==> k % 2 == 0)
  {
    if k == q + 1 {
      assert k * d == q * d + d;
    }
  }

  /** `get_stats`: the file counts and `total_size_mb`. */
  datatype Stats = Stats(totalFiles: nat, totalSizeMb: real, dsctFiles: nat, airconFiles: nat)

  class CSVCleaner {
    /** `data_dir` */
    var dir: Directory

    constructor (dir: Directory)
      ensures this.dir == dir
    {
      this.dir := dir;
    }

    /** Remove `victims` in order; report the ones that went. */
    method RemoveAll(victims: seq<FileRecord>) returns (deleted: seq<string>)
      requires dir.Valid() && UniqueNames(victims)
      requires forall f :: f in victims ==> f in dir.files
      modifies dir`files
      ensures dir.Valid()
      ensures deleted == Removable(victims, dir.locked)
      ensures dir.files == Without(old(dir.files), Elems(deleted))
    {
      deleted := [];
      WithoutNothing(dir.files);
      PendingStart(dir.files, victims);
      var i := 0;
      while i < |victims|
        invariant 0 <= i <= |victims|
        invariant dir.Valid()
        invariant deleted == Removable(victims[..i], dir.locked)
        invariant dir.files == Without(old(dir.files), Elems(deleted))
        invariant Pending(old(dir.files), victims, i, deleted)
      {
        PendingStep(old(dir.files), victims, i, deleted);
        var ok := dir.Remove(victims[i].name);
        RemovablePrefix(victims, i, dir.locked);
        if ok {
          deleted := deleted + [victims[i].name];
        }
        i := i + 1;
      }
      assert victims[..i] == victims;
    }

    /** `cleanup_by_count(max_files, pattern)` */
    method CleanupByCount(maxFiles: int, p: Pattern) returns (deleted: seq<string>)
      requires dir.Valid()
      modifies dir`files
      ensures dir.Valid()
      ensures !dir.present ==> deleted == [] && dir.files == old(dir.files)
      ensures dir.present ==> deleted == Removable(CountVictims(old(dir.files), maxFiles, p), dir.locked)
      ensures dir.files == Without(old(dir.files), Elems(deleted))
    {
      WithoutNothing(dir.files);
      if !dir.present {
        return [];
      }
      var csv := Glob(dir.files, p);
      if |csv| <= maxFiles {
        return [];
      }
      var sorted := SortByMtime(csv);
      var victims := Slice(sorted, -maxFiles);
      CountVictimsFromFiles(dir.files, maxFiles, p);
      deleted := RemoveAll(victims);
    }

    /** `cleanup_by_age(max_days, pattern)` at clock `now` (seconds). */
    method CleanupByAge(maxDays: int, now: real, p: Pattern) returns (deleted: seq<string>)
      requires dir.Valid()
      modifies dir`files
      ensures dir.Valid()
      ensures !dir.present ==> deleted == [] && dir.files == old(dir.files)
      ensures dir.present ==>
                deleted == Removable(AgeVictims(Glob(old(dir.files), p), Cutoff(now, maxDays)), dir.locked)
      ensures dir.files == Without(old(dir.files), Elems(deleted))
    {
      WithoutNothing(dir.files);
      if !dir.present {
        return [];
      }
      var csv := Glob(dir.files, p);
      var victims := AgeVictims(csv, Cutoff(now, maxDays));
      GlobUnique(dir.files, p);
      AgeUnique(csv, Cutoff(now, maxDays));
      deleted := RemoveAll(victims);
    }

    /** `cleanup_by_size(max_size_mb, pattern)` */
    method CleanupBySize(maxSizeMb: int, p: Pattern) returns (deleted: seq<string>)
      requires dir.Valid()
      modifies dir`files
      ensures dir.Valid()
      ensures !dir.present ==> deleted == [] && dir.files == old(dir.files)
      ensures dir.present ==> deleted == SizeVictims(old(dir.files), maxSizeMb, p, dir.locked)
      ensures dir.files == Without(old(dir.files), Elems(deleted))
    {
      WithoutNothing(dir.files);
      if !dir.present {
        return [];
      }
      var limit := maxSizeMb * BytesPerMb;
      var sorted := SortByMtime(Glob(dir.files, p));
      var total := TotalSize(sorted);
      SizeVictimsOf(dir.files, maxSizeMb, p, dir.locked, sorted, total, limit);
      if total <= limit {
        return [];
      }
      GlobUnique(dir.files, p);
      SortUnique(Glob(dir.files, p));
      PendingStart(dir.files, sorted);
      deleted := RemoveWhileOver(sorted, total, limit);
    }

    /** The loop of `cleanup_by_size`: oldest first, stop once `total` fits. */
    method RemoveWhileOver(sorted: seq<FileRecord>, total0: int, limit: int) returns (deleted: seq<string>)
      requires dir.Valid() && Pending(dir.files, sorted, 0, [])
      modifies dir`files
      ensures dir.Valid()
      ensures deleted == Removable(sorted[..SizeStop(sorted, 0, total0, limit, dir.locked)], dir.locked)
      ensures dir.files == Without(old(dir.files), Elems(deleted))
    {
      deleted := [];
      WithoutNothing(dir.files);
      var total := total0;
      var i := 0;
      ghost var stop := SizeStop(sorted, 0, total0, limit, dir.locked);
      while i < |sorted|
        invariant 0 <= i <= |sorted|
        invariant dir.Valid()
        invariant SizeStop(sorted, i, total, limit, dir.locked) == stop
        invariant deleted == Removable(sorted[..i], dir.locked)
        invariant dir.files == Without(old(dir.files), Elems(deleted))
        invariant Pending(old(dir.files), sorted, i, deleted)
      {
        if total <= limit {
          break;
        }
        deleted, total := RemoveNext(old(dir.files), sorted, i, total, limit, deleted);
        i := i + 1;
      }
    }

    /** One turn of the size loop: try to remove the `i`-th file and count it. */
    method RemoveNext(ghost files0: seq<FileRecord>, sorted: seq<FileRecord>, i: nat, total: int, limit: int,
                      deleted: seq<string>) returns (deleted': seq<string>, total': int)
      requires i < |sorted| && total > limit && dir.Valid()
      requires deleted == Removable(sorted[..i], dir.locked)
      requires dir.files == Without(files0, Elems(deleted)) && Pending(files0, sorted, i, deleted)
      modifies dir`files
      ensures dir.Valid()
      ensures deleted' == Removable(sorted[..i + 1], dir.locked)
      ensures SizeStop(sorted, i + 1, total', limit, dir.locked) == SizeStop(sorted, i, total, limit, dir.locked)
      ensures dir.files == Without(files0, Elems(deleted')) && Pending(files0, sorted, i + 1, deleted')
    {
      var ok := dir.TryRemove(files0, sorted, i, deleted);
      deleted', total' := Tally(sorted, i, total, limit, dir.locked, deleted, ok);
    }

    /** After one `os.remove` of the size loop: a removed file joins the list
        and its size comes off the total; the loop then stops where it would
        have stopped before. */
    method Tally(sorted: seq<FileRecord>, i: nat, total: int, limit: int, locked: set<string>,
                 deleted: seq<string>, ok: bool) returns (deleted': seq<string>, total': int)
      requires i < |sorted| && total > limit && ok == (sorted[i].name !in locked)
      requires deleted == Removable(sorted[..i], locked)
      ensures deleted' == if ok then deleted + [sorted[i].name] else deleted
      ensures deleted' == Removable(sorted[..i + 1], locked)
      ensures SizeStop(sorted, i + 1, total', limit, locked) == SizeStop(sorted, i, total, limit, locked)
    {
      RemovablePrefix(sorted, i, locked);
      deleted', total' := deleted, total;
      if ok {
        deleted' := deleted + [sorted[i].name];
        total' := total - sorted[i].size;
      }
      SizeStopNext(sorted, i, total, limit, locked, total');
    }

    /** `auto_cleanup(max_files)`: the DSCT and AIRCON logs capped separately;
        each list is what its own rule would pick on the directory as it was. */
    method AutoCleanup(maxFiles: int) returns (dsct: seq<string>, aircon: seq<string>)
      requires dir.Valid()
      modifies dir`files
      ensures dir.Valid()
      ensures dir.present ==> dsct == Removable(CountVictims(old(dir.files), maxFiles, DsctCsv), dir.locked)
      ensures dir.present ==> aircon == Removable(CountVictims(old(dir.files), maxFiles, AirconCsv), dir.locked)
      ensures !dir.present ==> dsct == [] && aircon == []
      ensures dir.files == Without(old(dir.files), Elems(dsct) + Elems(aircon))
    {
      ghost var before := dir.files;
      dsct := CleanupByCount(maxFiles, DsctCsv);
      DsctPassSparesAircon(before, maxFiles, dir.present, dir.locked, dsct);
      aircon := CleanupByCount(maxFiles, AirconCsv);
      WithoutUnion(before, Elems(dsct), Elems(aircon));
    }

    /** `get_stats` */
    method GetStats() returns (s: Stats)
      ensures !dir.present ==> s == Stats(0, 0.0, 0, 0)
      ensures dir.present ==>
                s.dsctFiles == |Glob(dir.files, DsctCsv)| && s.airconFiles == |Glob(dir.files, AirconCsv)|
                && s.totalFiles == s.dsctFiles + s.airconFiles
                && s.totalSizeMb == RoundHundredths(TotalSize(Glob(dir.files, DsctCsv)) + TotalSize(Glob(dir.files, AirconCsv)),
                                                    BytesPerMb) as real / 100.0
    {
      if !dir.present {
        return Stats(0, 0.0, 0, 0);
      }
      var d := Glob(dir.files, DsctCsv);
      var a := Glob(dir.files, AirconCsv);
      TotalSizeAppend(d, a);
      s := Stats(|d + a|, RoundHundredths(TotalSize(d + a), BytesPerMb) as real / 100.0, |d|, |a|);
    }
  }

  lemma RemovablePrefix(victims: seq<FileRecord>, i: nat, locked: set<string>)
    requires i < |victims|
    ensures Removable(victims[..i + 1], locked)
            == Removable(victims[..i], locked) + (if victims[i].name in locked then [] else [victims[i].name])
  {
    assert victims[..i + 1] == victims[..i] + [victims[i]];
    RemovableSnoc(victims[..i], victims[i], locked);
  }

  lemma {:induction false} TotalSizeAppend(a: seq<FileRecord>, b: seq<FileRecord>)
    ensures TotalSize(a + b) == TotalSize(a) + TotalSize(b)
    decreases |a|
  {
    if a != [] {
      assert (a + b)[1..] == a[1..] + b;
      assert (a + b)[0] == a[0];
      TotalSizeAppend(a[1..], b);
    } else {
      assert a + b == b;
    }
  }

  lemma {:induction false} AgeUnique(csv: seq<FileRecord>, cutoff: real)
    requires UniqueNames(csv)
    ensures UniqueNames(AgeVictims(csv, cutoff))
    decreases |csv|
  {
    if csv != [] {
      UniqueTail(csv);
      AgeUnique(csv[1..], cutoff);
      if csv[0].mtime < cutoff {
        UniqueCons(csv[0], AgeVictims(csv[1..], cutoff));
      }
    }
  }
}
