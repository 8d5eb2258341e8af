/** The `data` directory the CSV files live in, as the retention code sees it:
    whether it exists, and a list of (name, modification time, size) records in
    the order the operating system lists them. `os.remove` takes a file away,
    and appending a CSV row creates or grows one; `locked` names the files
    whose removal the operating system refuses. */
module DataDirectory {
  import opened Common

  /** One file: its base name, `os.path.getmtime` in seconds and `os.path.getsize`. */
  datatype FileRecord = FileRecord(name: string, mtime: real, size: nat)

  /** A `glob` pattern of the shape `PREFIX*SUFFIX`. */
  datatype Pattern = Pattern(prefix: string, suffix: string)

  /** Whether `glob` lists `name` for the pattern: the name starts with the
      prefix and ends with the suffix, long enough for both, and a leading
      `*` does not match a name that starts with a dot. */
  predicate Matches(name: string, p: Pattern)
  {
    |p.prefix| + |p.suffix| <= |name| && StartsWith(name, p.prefix) && EndsWith(name, p.suffix)
    && (p.prefix == [] ==> name != [] && name[0] != '.')
  }

  /** `glob.glob(os.path.join(data_dir, pattern))`, in listing order. */
  function Glob(files: seq<FileRecord>, p: Pattern): (r: seq<FileRecord>)
    ensures |r| <= |files|
    ensures forall f :: f in r <==> f in files && Matches(f.name, p)
  {
    if files == [] then []
    else (if Matches(files[0].name, p) then [files[0]] else []) + Glob(files[1..], p)
  }

  function Names(files: seq<FileRecord>): (r: seq<string>)
    ensures |r| == |files|
    ensures forall i :: 0 <= i < |files| ==> r[i] == files[i].name
  {
    if files == [] then [] else [files[0].name] + Names(files[1..])
  }

  function NameSet(files: seq<FileRecord>): set<string>
  {
    set f | f in files :: f.name
  }

  /** The names in a list of names, as a set. */
  function Elems(names: seq<string>): set<string>
  {
    set n | n in names
  }

  /** The first record with this name, as `os.path.exists` / `getsize` see it. */
  function Find(files: seq<FileRecord>, name: string): (r: Option<FileRecord>)
    ensures r.Some? <==> name in NameSet(files)
    ensures r.Some? ==> r.value in files && r.value.name == name
  {
    if files == [] then None
    else if files[0].name == name then Some(files[0])
    else Find(files[1..], name)
  }

  /** The listing once the named files are gone. */
  function Without(files: seq<FileRecord>, gone: set<string>): (r: seq<FileRecord>)
    ensures forall f :: f in r <==> f in files && f.name !in gone
  {
    if files == [] then []
    else (if files[0].name in gone then [] else [files[0]]) + Without(files[1..], gone)
  }

  lemma {:induction false} WithoutNothing(files: seq<FileRecord>)
    ensures Without(files, Elems([])) == files
    decreases |files|
  {
    if files != [] {
      WithoutNothing(files[1..]);
      assert files == [files[0]] + files[1..];
    }
  }

  function TotalSize(files: seq<FileRecord>): nat
  {
    if files == [] then 0 else files[0].size + TotalSize(files[1..])
  }

  // ---------------------------------------------------------------------------
  // Sorting by modification time (`list.sort(key=getmtime)`, a stable sort)
  // ---------------------------------------------------------------------------

  predicate SortedByMtime(files: seq<FileRecord>)
  {
    forall i, j :: 0 <= i < j < |files| ==> files[i].mtime <= files[j].mtime
  }

  /** No record in `s` is older than `m`. */
  predicate NotOlder(m: real, s: seq<FileRecord>)
  {
    forall g :: g in s ==> m <= g.mtime
  }

  lemma SortedHead(s: seq<FileRecord>)
    requires SortedByMtime(s) && s != []
    ensures NotOlder(s[0].mtime, s[1..])
  {
    forall g | g in s[1..] ensures s[0].mtime <= g.mtime {
      var k :| 0 <= k < |s[1..]| && s[1..][k] == g;
      assert s[k + 1] == g;
    }
  }

  lemma SortedCons(m: FileRecord, t: seq<FileRecord>)
    requires SortedByMtime(t) && NotOlder(m.mtime, t)
    ensures SortedByMtime([m] + t)
  {
    var r := [m] + t;
    forall i, j | 0 <= i < j < |r| ensures r[i].mtime <= r[j].mtime {
      if i == 0 {
        assert r[j] == t[j - 1] && r[j] in t;
      } else {
        assert r[i] == t[i - 1] && r[j] == t[j - 1];
      }
    }
  }

  lemma InsertFront(f: FileRecord, s: seq<FileRecord>)
    requires SortedByMtime(s) && (s == [] || f.mtime <= s[0].mtime)
    ensures SortedByMtime([f] + s)
  {
    if s != [] {
      SortedHead(s);
      assert s == [s[0]] + s[1..];
    }
    SortedCons(f, s);
  }

  /** Put `f` in front of the first record that is not older than it. */
  function Insert(f: FileRecord, s: seq<FileRecord>): (r: seq<FileRecord>)
    requires SortedByMtime(s)
    ensures |r| == |s| + 1
    ensures forall g :: g in r <==> g == f || g in s
    ensures multiset(r) == multiset(s) + multiset{f}
    ensures SortedByMtime(r)
  {
    if s == [] || f.mtime <= s[0].mtime then
      InsertFront(f, s);
      [f] + s
    else
      SortedHead(s);
      var t := Insert(f, s[1..]);
      assert s == [s[0]] + s[1..];
      SortedCons(s[0], t);
      [s[0]] + t
  }

  /** The listing sorted oldest first; a permutation of it. */
  function SortByMtime(files: seq<FileRecord>): (r: seq<FileRecord>)
    ensures SortedByMtime(r)
    ensures multiset(r) == multiset(files)
    ensures forall g :: g in r <==> g in files
    ensures |r| == |files|
  {
    if files == [] then []
    else
      assert files == [files[0]] + files[1..];
      Insert(files[0], SortByMtime(files[1..]))
  }

  /** Python's `s[:stop]`: a negative `stop` counts from the end, and both
      ends are cut to the list. */
  function Slice<T>(s: seq<T>, stop: int): (r: seq<T>)
    ensures |r| == if stop >= 0 then Min(stop, |s|) else Max(0, |s| + stop)
    ensures r == s[..|r|]
  {
    if stop >= 0 then s[..Min(stop, |s|)] else s[..Max(0, |s| + stop)]
  }

  function Min(a: int, b: int): int { if a <= b then a else b }
  function Max(a: int, b: int): int { if a >= b then a else b }

  /** The names of `victims` that `os.remove` accepts, in order. */
  function Removable(victims: seq<FileRecord>, locked: set<string>): (r: seq<string>)
    ensures |r| <= |victims|
    ensures forall n :: n in r <==> exists f :: f in victims && f.name == n && n !in locked
  {
    if victims == [] then []
    else
      var rest := Removable(victims[1..], locked);
      assert forall f :: f in victims[1..] ==> f in victims;
      assert forall f :: f in victims ==> f == victims[0] || f in victims[1..];
      if victims[0].name in locked then rest else [victims[0].name] + rest
  }

  lemma RemovableAll(victims: seq<FileRecord>, locked: set<string>)
    requires forall f :: f in victims ==> f.name !in locked
    ensures Removable(victims, locked) == Names(victims)
    decreases |victims|
  {
    if victims != [] {
      RemovableAll(victims[1..], locked);
    }
  }

  /** No two records share a name, as in any real directory listing. */
  predicate UniqueNames(s: seq<FileRecord>)
  {
    forall i, j :: 0 <= i < j < |s| ==> s[i].name != s[j].name
  }

  lemma UniqueCons(m: FileRecord, t: seq<FileRecord>)
    requires UniqueNames(t) && m.name !in NameSet(t)
    ensures UniqueNames([m] + t)
  {
    var r := [m] + t;
    forall i, j | 0 <= i < j < |r| ensures r[i].name != r[j].name {
      assert r[j] == t[j - 1] && r[j] in t;
      if i > 0 { assert r[i] == t[i - 1]; }
    }
  }

  lemma UniqueTail(s: seq<FileRecord>)
    requires UniqueNames(s) && s != []
    ensures UniqueNames(s[1..]) && s[0].name !in NameSet(s[1..])
  {
  }

  lemma {:induction false} GlobUnique(files: seq<FileRecord>, p: Pattern)
    requires UniqueNames(files)
    ensures UniqueNames(Glob(files, p))
    decreases |files|
  {
    if files != [] {
      UniqueTail(files);
      GlobUnique(files[1..], p);
      if Matches(files[0].name, p) {
        assert NameSet(Glob(files[1..], p)) <= NameSet(files[1..]);
        UniqueCons(files[0], Glob(files[1..], p));
      } else {
        assert Glob(files, p) == Glob(files[1..], p);
      }
    }
  }

  lemma {:induction false} WithoutUnique(files: seq<FileRecord>, gone: set<string>)
    requires UniqueNames(files)
    ensures UniqueNames(Without(files, gone))
    decreases |files|
  {
    if files != [] {
      UniqueTail(files);
      WithoutUnique(files[1..], gone);
      if files[0].name !in gone {
        assert NameSet(Without(files[1..], gone)) <= NameSet(files[1..]);
        UniqueCons(files[0], Without(files[1..], gone));
      } else {
        assert Without(files, gone) == Without(files[1..], gone);
      }
    }
  }

  lemma {:induction false} SortUnique(files: seq<FileRecord>)
    requires UniqueNames(files)
    ensures UniqueNames(SortByMtime(files))
    decreases |files|
  {
    if files != [] {
      UniqueTail(files);
      SortUnique(files[1..]);
      InsertUnique(files[0], SortByMtime(files[1..]));
    }
  }

  lemma {:induction false} InsertUnique(f: FileRecord, s: seq<FileRecord>)
    requires SortedByMtime(s) && UniqueNames(s) && f.name !in NameSet(s)
    ensures UniqueNames(Insert(f, s))
    decreases |s|
  {
    if s == [] || f.mtime <= s[0].mtime {
      UniqueCons(f, s);
    } else {
      UniqueTail(s);
      SortedHead(s);
      var t := Insert(f, s[1..]);
      InsertUnique(f, s[1..]);
      assert s == [s[0]] + s[1..];
      assert s[0].name != f.name by { assert s[0] in s; }
      UniqueCons(s[0], t);
    }
  }

  lemma PrefixUnique(s: seq<FileRecord>, k: nat)
    requires UniqueNames(s) && k <= |s|
    ensures UniqueNames(s[..k])
  {
    assert forall i :: 0 <= i < k ==> s[..k][i] == s[i];
  }

  /** Removing one set of names after another is removing their union. */
  lemma {:induction false} WithoutUnion(files: seq<FileRecord>, a: set<string>, b: set<string>)
    ensures Without(Without(files, a), b) == Without(files, a + b)
    decreases |files|
  {
    if files != [] {
      WithoutUnion(files[1..], a, b);
      var h := files[0];
      var w := Without(files[1..], a);
      if h.name in a {
        assert Without(files, a) == w;
      } else {
        assert Without(files, a) == [h] + w;
        assert ([h] + w)[1..] == w;
      }
    }
  }

  /** Removing one more name is removing the union. */
  lemma {:induction false} WithoutTwice(files: seq<FileRecord>, gone: set<string>, n: string)
    ensures Without(Without(files, gone), {n}) == Without(files, gone + {n})
    decreases |files|
  {
    if files != [] {
      WithoutTwice(files[1..], gone, n);
      var h := files[0];
      var w := Without(files[1..], gone);
      if h.name in gone {
        assert Without(files, gone) == w;
      } else {
        assert Without(files, gone) == [h] + w;
        assert ([h] + w)[1..] == w;
      }
    }
  }

  lemma {:induction false} RemovableSnoc(victims: seq<FileRecord>, f: FileRecord, locked: set<string>)
    ensures Removable(victims + [f], locked)
            == Removable(victims, locked) + (if f.name in locked then [] else [f.name])
    decreases |victims|
  {
    if victims == [] {
      assert victims + [f] == [f];
    } else {
      assert (victims + [f])[1..] == victims[1..] + [f];
      RemovableSnoc(victims[1..], f, locked);
    }
  }

  /** The files from position `i` on, still to be tried, are distinct files of
      the original listing that have not been removed yet. */
  predicate Pending(files0: seq<FileRecord>, s: seq<FileRecord>, i: nat, deleted: seq<string>)
  {
    i <= |s|
    && (forall a, b :: i <= a < b < |s| ==> s[a].name != s[b].name)
    && (forall k :: i <= k < |s| ==> s[k] in files0 && s[k].name !in Elems(deleted))
  }

  /** Before the first removal every file of a unique listing is pending. */
  lemma PendingStart(files0: seq<FileRecord>, s: seq<FileRecord>)
    requires UniqueNames(s) && forall f :: f in s ==> f in files0
    ensures Pending(files0, s, 0, [])
  {
    assert Elems([]) == {};
    forall k | 0 <= k < |s| ensures s[k] in files0 {
      assert s[k] in s;
    }
  }

  /** Trying the next file: it is still listed, removing it is removing one more
      name, and the files after it stay pending either way. */
  lemma PendingStep(files0: seq<FileRecord>, s: seq<FileRecord>, i: nat, deleted: seq<string>)
    requires i < |s| && Pending(files0, s, i, deleted)
    ensures s[i].name in NameSet(Without(files0, Elems(deleted)))
    ensures Pending(files0, s, i + 1, deleted)
    ensures Pending(files0, s, i + 1, deleted + [s[i].name])
    ensures Without(Without(files0, Elems(deleted)), {s[i].name})
            == Without(files0, Elems(deleted + [s[i].name]))
  {
    var n := s[i].name;
    assert s[i] in Without(files0, Elems(deleted));
    assert Elems(deleted + [n]) == Elems(deleted) + {n};
    WithoutTwice(files0, Elems(deleted), n);
  }

  /** The listing after `n` more bytes are appended to the file `name` at
      clock `now`: its size grows and its modification time becomes `now`. */
  function Touched(files: seq<FileRecord>, name: string, n: nat, now: real): (r: seq<FileRecord>)
    ensures |r| == |files|
    ensures forall i :: 0 <= i < |files| ==>
              r[i] == if files[i].name == name then FileRecord(name, now, files[i].size + n) else files[i]
  {
    if files == [] then []
    else
      [if files[0].name == name then FileRecord(name, now, files[0].size + n) else files[0]]
      + Touched(files[1..], name, n, now)
  }

  /** `open(name, 'a')` and one write at clock `now`: a new file starts with
      `header` bytes before the row, an existing one grows by the row. */
  function Appended(files: seq<FileRecord>, name: string, header: nat, row: nat, now: real): seq<FileRecord>
  {
    match Find(files, name)
    case Some(f) => Touched(files, name, row, now)
    case None => files + [FileRecord(name, now, header + row)]
  }

  /** After the write the file is there with the new size and time, every
      other file reads as before, and names stay unique. */
  lemma AppendedFind(files: seq<FileRecord>, name: string, header: nat, row: nat, now: real)
    requires UniqueNames(files)
    ensures var r := Appended(files, name, header, row, now);
            var old_ := Find(files, name);
            UniqueNames(r)
            && Find(r, name) == Some(FileRecord(name, now, if old_.Some? then old_.value.size + row else header + row))
            && forall n :: n != name ==> Find(r, n) == Find(files, n)
  {
    var r := Appended(files, name, header, row, now);
    match Find(files, name)
    case Some(f) =>
      TouchedUnique(files, name, row, now);
      TouchedFindSame(files, name, row, now);
      forall n | n != name ensures Find(r, n) == Find(files, n) {
        TouchedFindOther(files, name, row, now, n);
      }
    case None =>
      SnocFind(files, FileRecord(name, now, header + row));
  }

  lemma TouchedUnique(files: seq<FileRecord>, name: string, n: nat, now: real)
    requires UniqueNames(files)
    ensures UniqueNames(Touched(files, name, n, now))
  {
    var r := Touched(files, name, n, now);
    assert forall i :: 0 <= i < |files| ==> r[i].name == files[i].name;
  }

  lemma {:induction false} TouchedFindSame(files: seq<FileRecord>, name: string, n: nat, now: real)
    ensures var r := Find(Touched(files, name, n, now), name);
            var f := Find(files, name);
            r.Some? == f.Some? && (f.Some? ==> r.value == FileRecord(name, now, f.value.size + n))
    decreases |files|
  {
    if files != [] {
      TouchedCons(files, name, n, now);
      var r := Touched(files, name, n, now);
      if files[0].name == name {
        assert Find(r, name) == Some(r[0]);
      } else {
        TouchedFindSame(files[1..], name, n, now);
        assert Find(r, name) == Find(r[1..], name);
        assert Find(files, name) == Find(files[1..], name);
      }
    }
  }

  lemma TouchedCons(files: seq<FileRecord>, name: string, n: nat, now: real)
    requires files != []
    ensures var r := Touched(files, name, n, now);
            r != [] && r[1..] == Touched(files[1..], name, n, now)
            && r[0] == if files[0].name == name then FileRecord(name, now, files[0].size + n) else files[0]
  {
  }

  lemma {:induction false} TouchedFindOther(files: seq<FileRecord>, name: string, n: nat, now: real, m: string)
    requires m != name
    ensures Find(Touched(files, name, n, now), m) == Find(files, m)
    decreases |files|
  {
    if files != [] {
      TouchedFindOther(files[1..], name, n, now, m);
      TouchedCons(files, name, n, now);
    }
  }

  lemma SnocFind(files: seq<FileRecord>, f: FileRecord)
    requires UniqueNames(files) && Find(files, f.name).None?
    ensures UniqueNames(files + [f])
    ensures Find(files + [f], f.name) == Some(f)
    ensures forall m :: m != f.name ==> Find(files + [f], m) == Find(files, m)
  {
    SnocUnique(files, f);
    forall m ensures Find(files + [f], m) == if m == f.name then Some(f) else Find(files, m) {
      SnocFindOne(files, f, m);
    }
  }

  lemma SnocUnique(files: seq<FileRecord>, f: FileRecord)
    requires UniqueNames(files) && f.name !in NameSet(files)
    ensures UniqueNames(files + [f])
  {
    var r := files + [f];
    forall i, j | 0 <= i < j < |r| ensures r[i].name != r[j].name {
      assert r[i] == files[i] && files[i] in files;
      if j < |files| {
        assert r[j] == files[j];
      }
    }
  }

  /** Looking a name up after appending `f`, which was not listed. */
  lemma {:induction false} SnocFindOne(files: seq<FileRecord>, f: FileRecord, m: string)
    requires Find(files, f.name).None?
    ensures Find(files + [f], m) == if m == f.name then Some(f) else Find(files, m)
    decreases |files|
  {
    if files == [] {
      assert [] + [f] == [f];
    } else {
      SnocFindOne(files[1..], f, m);
      assert (files + [f])[1..] == files[1..] + [f];
    }
  }

  /** The data directory. */
  class Directory {
    /** `os.path.exists(data_dir)` */
    var present: bool
    /** The files in it, in listing order. */
    var files: seq<FileRecord>
    /** Files `os.remove` refuses (open elsewhere, no permission). */
    var locked: set<string>

    /** Names are unique, and a missing directory lists nothing. */
    predicate Valid()
      reads this
    {
      UniqueNames(files) && (present || files == [])
    }

    constructor (present: bool, files: seq<FileRecord>, locked: set<string>)
      requires UniqueNames(files) && (present || files == [])
      ensures Valid()
      ensures this.present == present && this.files == files && this.locked == locked
    {
      this.present := present;
      this.files := files;
      this.locked := locked;
    }

    /** `os.remove(name)`: `ok` when the file was there and is now gone. */
    method Remove(name: string) returns (ok: bool)
      requires Valid()
      modifies this`files
      ensures Valid()
      ensures ok <==> name in NameSet(old(files)) && name !in locked
      ensures files == if ok then Without(old(files), {name}) else old(files)
    {
      ok := Find(files, name).Some? && name !in locked;
      if ok {
        WithoutUnique(files, {name});
        files := Without(files, {name});
      }
    }

    /** `os.makedirs(data_dir)` when the directory is missing. */
    method MakeDirs()
      requires Valid()
      modifies this`present
      ensures Valid() && present
    {
      present := true;
    }

    /** Appending one CSV row of `row` bytes to `name` at clock `now`, with
        `header` more bytes first when the file is new. Without the directory
        `open` raises, the caller catches it, and nothing changes. */
    method Append(name: string, header: nat, row: nat, now: real)
      requires Valid()
      modifies this`files
      ensures Valid()
      ensures files == if present then Appended(old(files), name, header, row, now) else old(files)
    {
      if present {
        AppendedFind(files, name, header, row, now);
        files := Appended(files, name, header, row, now);
      }
    }

    /** `os.remove` on the `i`-th of a list of pending files: it succeeds
        exactly for a file that is not locked, and the files after it stay
        pending. */
    method TryRemove(ghost files0: seq<FileRecord>, s: seq<FileRecord>, i: nat, ghost deleted: seq<string>)
      returns (ok: bool)
      requires i < |s| && Valid()
      requires files == Without(files0, Elems(deleted)) && Pending(files0, s, i, deleted)
      modifies this`files
      ensures Valid()
      ensures ok == (s[i].name !in locked)
      ensures var d := if ok then deleted + [s[i].name] else deleted;
              files == Without(files0, Elems(d)) && Pending(files0, s, i + 1, d)
    {
      PendingStep(files0, s, i, deleted);
      ok := Remove(s[i].name);
    }
  }
}
