/**
 * `FileManager`: the recursive scan of the WAV directory, the classification of every file
 * found, the library order, and the paths shown relative to the directory.
 */
module Files {
  import opened Wrappers
  import opened Strings
  import opened Paths
  import opened WavData
  import Settings

  // ---------------------------------------------------------------------------------------
  // The directory tree as `read_dir` sees it
  // ---------------------------------------------------------------------------------------

  /** What `read_dir` yields for a directory: an error, or its entries in iteration order. */
  datatype Listing = Unreadable | Readable(entries: seq<Entry>)

  /** One entry of a listing: an entry the iterator fails on, a file, or a sub-directory. */
  datatype Entry = BrokenEntry | FileEntry(name: string) | DirEntry(name: string, listing: Listing)

  /**
   * The extension test of `scan_directory`: a file is kept when its extension equals "wav"
   * ignoring ASCII case. A name without an extension is skipped.
   */
  predicate IsWavFileName(name: string) {
    match Extension(name)
    case None => false
    case Some(ext) => EqIgnoreAsciiCase(ext, "wav")
  }

  /** The paths a scan collected, and whether it ran to the end without an I/O error. */
  datatype ScanResult = ScanResult(found: seq<string>, complete: bool)

  /**
   * What `scan_directory` pushes for the entries `es` of directory `dir`, in order, and
   * whether it got through them: it stops at the first entry that fails, keeping whatever
   * it pushed before.
   */
  function ScanEntries(dir: string, es: seq<Entry>): (r: ScanResult)
    decreases es
  {
    if es == [] then ScanResult([], true)
    else
      var init := ScanEntries(dir, es[..|es| - 1]);
      if !init.complete then init
      else
        var step := ScanEntry(dir, es[|es| - 1]);
        ScanResult(init.found + step.found, step.complete)
  }

  /**
   * What one entry of directory `dir` contributes: an entry error or an unreadable
   * sub-directory fails, a file is kept only when it is a WAV file, and a readable
   * sub-directory is scanned in turn.
   */
  function ScanEntry(dir: string, e: Entry): (r: ScanResult)
    decreases e
  {
    match e
    case BrokenEntry => ScanResult([], false)
    case FileEntry(name) => ScanResult(if IsWavFileName(name) then [Join(dir, name)] else [], true)
    case DirEntry(name, listing) =>
      match listing
      case Unreadable => ScanResult([], false)
      case Readable(children) => ScanEntries(Join(dir, name), children)
  }

  /** `scan_directory` on a directory: reading the directory itself can fail too. */
  function ScanListing(dir: string, listing: Listing): ScanResult {
    match listing
    case Unreadable => ScanResult([], false)
    case Readable(es) => ScanEntries(dir, es)
  }

  /** Once a prefix of the entries has failed, the rest of the entries are never looked at. */
  lemma {:induction false} ScanIncompleteSticky(dir: string, es: seq<Entry>, n: nat)
    requires n <= |es| && !ScanEntries(dir, es[..n]).complete
    ensures ScanEntries(dir, es) == ScanEntries(dir, es[..n])
    decreases |es| - n
  {
    if n < |es| {
      assert es[..n + 1][..n] == es[..n];
      ScanIncompleteSticky(dir, es, n + 1);
    } else {
      assert es[..n] == es;
    }
  }

  /** Where the loop over a directory's entries stops, the scan of all of them is decided. */
  lemma ScanLoopExit(dir: string, es: seq<Entry>, i: nat)
    requires i <= |es| && (i == |es| || !ScanEntries(dir, es[..i]).complete)
    ensures ScanEntries(dir, es) == ScanEntries(dir, es[..i])
  {
    if i == |es| {
      assert es[..i] == es;
    } else {
      ScanIncompleteSticky(dir, es, i);
    }
  }

  /** One more entry, after a prefix the scan got through. */
  lemma ScanSnoc(dir: string, es: seq<Entry>, i: nat)
    requires i < |es| && ScanEntries(dir, es[..i]).complete
    ensures ScanEntries(dir, es[..i + 1]) ==
              ScanResult(ScanEntries(dir, es[..i]).found + ScanEntry(dir, es[i]).found, ScanEntry(dir, es[i]).complete)
  {
    assert es[..i + 1][..i] == es[..i];
  }

  /** Every entry name in the tree is a single path component, as `read_dir` guarantees. */
  predicate WellNamed(es: seq<Entry>)
    decreases es
  {
    es == [] ||
    (WellNamed(es[..|es| - 1]) &&
     match es[|es| - 1]
     case BrokenEntry => true
     case FileEntry(name) => IsComponent(name)
     case DirEntry(name, listing) =>
       IsComponent(name) && (listing.Unreadable? || WellNamed(listing.entries)))
  }

  /** Every collected path names a file whose extension is "wav" in some letter case. */
  lemma {:induction false} ScanFindsOnlyWav(dir: string, es: seq<Entry>)
    requires WellNamed(es)
    ensures forall p :: p in ScanEntries(dir, es).found ==>
              FileName(p).Some? && IsWavFileName(FileName(p).value)
    decreases es
  {
    if es != [] {
      var init := es[..|es| - 1];
      ScanFindsOnlyWav(dir, init);
      if ScanEntries(dir, init).complete {
        match es[|es| - 1]
        case BrokenEntry =>
        case FileEntry(name) => FileNameOfJoin(dir, name);
        case DirEntry(name, listing) =>
          if listing.Readable? {
            ScanFindsOnlyWav(Join(dir, name), listing.entries);
          }
      }
    }
  }

  /**
   * A file whose name has a "wav" extension is collected when the scan gets past it, and
   * one whose name does not is never collected from this directory's own entries.
   */
  lemma {:induction false} ScanCollectsWavFile(dir: string, es: seq<Entry>, i: nat)
    requires i < |es| && es[i].FileEntry? && IsWavFileName(es[i].name)
    requires ScanEntries(dir, es[..i + 1]).complete
    ensures Join(dir, es[i].name) in ScanEntries(dir, es).found
    decreases |es| - i
  {
    var n := i + 1;
    assert es[..n][..i] == es[..i];
    ScanFoundGrows(dir, es, n);
  }

  /** Scanning more entries only appends: what a prefix collected stays collected. */
  lemma {:induction false} ScanFoundGrows(dir: string, es: seq<Entry>, n: nat)
    requires n <= |es|
    ensures forall p :: p in ScanEntries(dir, es[..n]).found ==> p in ScanEntries(dir, es).found
    decreases |es| - n
  {
    if n < |es| {
      assert es[..n + 1][..n] == es[..n];
      ScanFoundGrows(dir, es, n + 1);
    } else {
      assert es[..n] == es;
    }
  }

  /** A file whose name has no "wav" extension is skipped and adds nothing. */
  lemma SkipsOtherFiles(dir: string, es: seq<Entry>, name: string)
    requires !IsWavFileName(name)
    ensures ScanEntries(dir, es + [FileEntry(name)]) == ScanEntries(dir, es)
  {
    assert (es + [FileEntry(name)])[..|es|] == es;
  }

  /** A readable sub-directory is recursed into: its files follow what came before. */
  lemma RecursesIntoDirectories(dir: string, es: seq<Entry>, name: string, children: seq<Entry>)
    requires ScanEntries(dir, es).complete
    ensures ScanEntries(dir, es + [DirEntry(name, Readable(children))]).found
            == ScanEntries(dir, es).found + ScanEntries(Join(dir, name), children).found
  {
    assert (es + [DirEntry(name, Readable(children))])[..|es|] == es;
  }

  // ---------------------------------------------------------------------------------------
  // Records
  // ---------------------------------------------------------------------------------------

  /** The record `scan_directory` pushes: the path, rate not yet known, no checksum. */
  function NewRecord(path: string): (w: WavFileData) {
    WavFileData(path, path, Unknown, 0)
  }

  /** The records pushed for `paths`, in order. */
  function NewRecords(paths: seq<string>): (r: seq<WavFileData>)
    ensures |r| == |paths|
  {
    if paths == [] then [] else NewRecords(paths[..|paths| - 1]) + [NewRecord(paths[|paths| - 1])]
  }

  lemma {:induction false} NewRecordsAt(paths: seq<string>, i: nat)
    requires i < |paths|
    ensures NewRecords(paths)[i] == NewRecord(paths[i])
  {
    if i < |paths| - 1 {
      NewRecordsAt(paths[..|paths| - 1], i);
    }
  }

  lemma {:induction false} NewRecordsConcat(a: seq<string>, b: seq<string>)
    ensures NewRecords(a + b) == NewRecords(a) + NewRecords(b)
  {
    if b != [] {
      assert (a + b)[..|a + b| - 1] == a + b[..|b| - 1];
      NewRecordsConcat(a, b[..|b| - 1]);
    } else {
      assert a + b == a;
    }
  }

  lemma AppendAssoc<T>(a: seq<T>, b: seq<T>, c: seq<T>)
    ensures a + b + c == a + (b + c)
  {
  }

  lemma NewRecordsSnoc(a: seq<string>, x: string)
    ensures NewRecords(a + [x]) == NewRecords(a) + [NewRecord(x)]
  {
    assert (a + [x])[..|a|] == a;
  }

  /** The path with the scanned directory stripped off, or the path itself when it is elsewhere. */
  function RelativePath(path: string, dir: string): string {
    match StripPrefix(path, dir)
    case Some(rel) => rel
    case None => path
  }

  /** A path joined onto the directory shows as the joined part. */
  lemma RelativePathOfJoin(dir: string, rel: string)
    requires !IsAbsolute(rel)
    ensures RelativePath(Join(dir, rel), dir) == rel
  {
    StripJoin(dir, rel);
  }

  /**
   * The classification of one collected file (`read` gives a file's content, `None` when it
   * cannot be opened): its relative path, its detected rate and its checksum.
   */
  function Classify(path: string, dir: string, read: string -> Option<Bytes>, hash: Bytes -> u64): (w: WavFileData)
    ensures w.path == path && w.relativePath == RelativePath(path, dir)
    ensures w.sampleRate == DetectSampleRate(read(path))
    ensures w.sampleRate == Damaged ==> w.checksum == 0
    ensures w.sampleRate != Damaged ==> w.checksum == hash(read(path).value)
  {
    var content := read(path);
    WavFileData(path, RelativePath(path, dir), DetectSampleRate(content), Checksum(content, hash))
  }

  function ClassifyAll(paths: seq<string>, dir: string, read: string -> Option<Bytes>, hash: Bytes -> u64): (r: seq<WavFileData>)
    ensures |r| == |paths|
  {
    seq(|paths|, i requires 0 <= i < |paths| => Classify(paths[i], dir, read, hash))
  }

  // ---------------------------------------------------------------------------------------
  // Library order
  // ---------------------------------------------------------------------------------------

  datatype Ordering = Less | Equal | Greater

  /** Character-by-character order on paths, standing in for `Path::cmp`. */
  function ComparePaths(a: string, b: string): Ordering {
    if a == [] && b == [] then Equal
    else if a == [] then Less
    else if b == [] then Greater
    else if a[0] < b[0] then Less
    else if a[0] > b[0] then Greater
    else ComparePaths(a[1..], b[1..])
  }

  lemma {:induction false} ComparePathsFlip(a: string, b: string)
    ensures ComparePaths(a, b) == Less <==> ComparePaths(b, a) == Greater
    ensures ComparePaths(a, b) == Equal <==> a == b
  {
    if a != [] && b != [] && a[0] == b[0] {
      ComparePathsFlip(a[1..], b[1..]);
      if a[1..] == b[1..] {
        assert a == [a[0]] + a[1..] && b == [b[0]] + b[1..];
      }
    }
  }

  lemma {:induction false} ComparePathsTrans(a: string, b: string, c: string)
    requires ComparePaths(a, b) != Greater && ComparePaths(b, c) != Greater
    ensures ComparePaths(a, c) != Greater
  {
    if a != [] && b != [] && c != [] && a[0] == b[0] == c[0] {
      ComparePathsTrans(a[1..], b[1..], c[1..]);
    }
  }

  predicate IsHeSuVi(w: WavFileData) {
    Contains(w.path, "HeSuVi/")
  }

  /** The comparator of `rescan_configured_directory`: "HeSuVi/" paths first, then by path. */
  function CompareWaves(a: WavFileData, b: WavFileData): Ordering {
    if IsHeSuVi(a) && !IsHeSuVi(b) then Less
    else if !IsHeSuVi(a) && IsHeSuVi(b) then Greater
    else ComparePaths(a.path, b.path)
  }

  predicate WaveLe(a: WavFileData, b: WavFileData) {
    CompareWaves(a, b) != Greater
  }

  /** The comparator is a total preorder, as `sort_by` requires. */
  lemma WaveLeTotal(a: WavFileData, b: WavFileData)
    ensures WaveLe(a, b) || WaveLe(b, a)
  {
    ComparePathsFlip(a.path, b.path);
  }

  lemma WaveLeTrans(a: WavFileData, b: WavFileData, c: WavFileData)
    requires WaveLe(a, b) && WaveLe(b, c)
    ensures WaveLe(a, c)
  {
    if IsHeSuVi(a) == IsHeSuVi(b) == IsHeSuVi(c) {
      ComparePathsTrans(a.path, b.path, c.path);
    }
  }

  predicate Sorted(s: seq<WavFileData>) {
    forall i, j :: 0 <= i < j < |s| ==> WaveLe(s[i], s[j])
  }

  /** Places `x` after every element of the ordered `s` that is not greater than it. */
  function Insert(s: seq<WavFileData>, x: WavFileData): (r: seq<WavFileData>)
    ensures multiset(r) == multiset(s) + multiset{x}
  {
    if s == [] then [x]
    else if WaveLe(s[|s| - 1], x) then s + [x]
    else
      assert s == s[..|s| - 1] + [s[|s| - 1]];
      Insert(s[..|s| - 1], x) + [s[|s| - 1]]
  }

  /** The library order: a stable sort of the records by the comparator. */
  function SortWaves(s: seq<WavFileData>): (r: seq<WavFileData>)
    ensures multiset(r) == multiset(s)
  {
    if s == [] then []
    else
      assert s == s[..|s| - 1] + [s[|s| - 1]];
      Insert(SortWaves(s[..|s| - 1]), s[|s| - 1])
  }

  lemma {:induction false} InsertSorted(s: seq<WavFileData>, x: WavFileData)
    requires Sorted(s)
    ensures Sorted(Insert(s, x))
  {
    if s != [] {
      var last := s[|s| - 1];
      if WaveLe(last, x) {
        forall i | 0 <= i < |s| ensures WaveLe(s[i], x) {
          if i < |s| - 1 { WaveLeTrans(s[i], last, x); }
        }
        SortedSnoc(s, x);
      } else {
        WaveLeTotal(last, x);
        var init := s[..|s| - 1];
        InsertSorted(init, x);
        var t := Insert(init, x);
        InsertBelow(init, x, last);
        SortedSnoc(t, last);
        assert Insert(s, x) == t + [last];
      }
    }
  }

  /** Appending an element no smaller than every element keeps a sequence ordered. */
  lemma SortedSnoc(s: seq<WavFileData>, x: WavFileData)
    requires Sorted(s) && forall i :: 0 <= i < |s| ==> WaveLe(s[i], x)
    ensures Sorted(s + [x])
  {
  }

  /** Inserting below a bound into elements below the bound stays below it. */
  lemma InsertBelow(s: seq<WavFileData>, x: WavFileData, bound: WavFileData)
    requires forall i :: 0 <= i < |s| ==> WaveLe(s[i], bound)
    requires WaveLe(x, bound)
    ensures forall k :: 0 <= k < |Insert(s, x)| ==> WaveLe(Insert(s, x)[k], bound)
  {
    var t := Insert(s, x);
    forall k | 0 <= k < |t| ensures WaveLe(t[k], bound) {
      assert t[k] in multiset(t);
      if t[k] != x {
        assert t[k] in multiset(s);
        var m :| 0 <= m < |s| && s[m] == t[k];
      }
    }
  }

  lemma {:induction false} SortWavesSorted(s: seq<WavFileData>)
    ensures Sorted(SortWaves(s))
  {
    if s != [] {
      SortWavesSorted(s[..|s| - 1]);
      InsertSorted(SortWaves(s[..|s| - 1]), s[|s| - 1]);
    }
  }

  /**
   * After the sort every "HeSuVi/" record precedes every other record, each group is in
   * path order, and the records are the same ones as before.
   */
  lemma SortWavesOrder(s: seq<WavFileData>)
    ensures multiset(SortWaves(s)) == multiset(s)
    ensures forall i, j :: 0 <= i < j < |SortWaves(s)| && IsHeSuVi(SortWaves(s)[j]) ==> IsHeSuVi(SortWaves(s)[i])
    ensures forall i, j :: 0 <= i < j < |SortWaves(s)| && IsHeSuVi(SortWaves(s)[i]) == IsHeSuVi(SortWaves(s)[j])
              ==> ComparePaths(SortWaves(s)[i].path, SortWaves(s)[j].path) != Greater
  {
    SortWavesSorted(s);
  }

  // ---------------------------------------------------------------------------------------
  // The file manager
  // ---------------------------------------------------------------------------------------

  class FileManager {
    const settings: Settings.AppSettings
    var waveData: seq<WavFileData>
    /** The directory scanned last. */
    var currentWavefileDir: Option<string>

    /** The fields `FileManager::new` starts from, before its first rescan. */
    constructor (settings: Settings.AppSettings)
      ensures this.settings == settings && waveData == [] && currentWavefileDir == None
    {
      this.settings := settings;
      waveData := [];
      currentWavefileDir := None;
    }

    /**
     * `scan_directory`: walks `listing`, the tree under `path`, pushing a new record for
     * each WAV file and recursing into sub-directories; false on the first I/O error.
     */
    method ScanDirectory(path: string, listing: Listing) returns (complete: bool)
      modifies this`waveData
      ensures waveData == old(waveData) + NewRecords(ScanListing(path, listing).found)
      ensures complete == ScanListing(path, listing).complete
      decreases listing
    {
      if listing.Unreadable? {
        assert NewRecords([]) == [];
        complete := false;
      } else {
        complete := ScanEntriesInto(path, listing.entries);
      }
    }

    /** The loop of `scan_directory` over the entries of one directory. */
    method ScanEntriesInto(path: string, es: seq<Entry>) returns (complete: bool)
      modifies this`waveData
      ensures waveData == old(waveData) + NewRecords(ScanEntries(path, es).found)
      ensures complete == ScanEntries(path, es).complete
      decreases es
    {
      var i := 0;
      ghost var pushed: seq<string> := [];
      assert ScanEntries(path, es[..0]) == ScanResult(pushed, true) by { assert es[..0] == []; }
      assert waveData == old(waveData) + NewRecords(pushed);
      complete := true;
      while i < |es| && complete
        invariant 0 <= i <= |es|
        invariant ScanEntries(path, es[..i]) == ScanResult(pushed, complete)
        invariant waveData == old(waveData) + NewRecords(pushed)
      {
        ghost var step := ScanEntry(path, es[i]);
        ScanSnoc(path, es, i);
        ghost var mid := waveData;
        complete := ScanEntryInto(path, es[i]);
        NewRecordsConcat(pushed, step.found);
        AppendAssoc(old(waveData), NewRecords(pushed), NewRecords(step.found));
        pushed := pushed + step.found;
        i := i + 1;
      }
      ScanLoopExit(path, es, i);
    }

    /** One entry of the loop in `scan_directory`. */
    method ScanEntryInto(path: string, e: Entry) returns (complete: bool)
      modifies this`waveData
      ensures waveData == old(waveData) + NewRecords(ScanEntry(path, e).found)
      ensures complete == ScanEntry(path, e).complete
      decreases e
    {
      assert NewRecords([]) == [];
      if e.BrokenEntry? {
        complete := false;
      } else if e.FileEntry? {
        if IsWavFileName(e.name) {
          ghost var p := Join(path, e.name);
          assert ScanEntry(path, e).found == [p];
          assert NewRecords([p]) == [NewRecord(p)] by { NewRecordsSnoc([], p); assert [] + [p] == [p]; }
          waveData := waveData + [NewRecord(Join(path, e.name))];
        }
        complete := true;
      } else {
        complete := ScanDirectory(Join(path, e.name), e.listing);
      }
    }

    /**
     * `rescan_configured_directory`: forgets the old records, remembers the configured
     * directory (`fs` gives the tree under a directory), scans it, classifies every
     * record and sorts them into library order. A failed scan keeps the unclassified
     * records it had pushed.
     */
    method RescanConfiguredDirectory(fs: string -> Listing, read: string -> Option<Bytes>, hash: Bytes -> u64)
      returns (r: Outcome<string>)
      modifies this
      ensures currentWavefileDir == old(settings.GetWavDirectory())
      ensures currentWavefileDir.None? ==> r.Pass? && waveData == []
      ensures currentWavefileDir.Some? ==>
                var dir := currentWavefileDir.value;
                var scan := ScanListing(dir, fs(dir));
                && (r.Pass? <==> scan.complete)
                && (scan.complete ==> waveData == SortWaves(ClassifyAll(scan.found, dir, read, hash)))
                && (!scan.complete ==> waveData == NewRecords(scan.found))
    {
      waveData := [];
      currentWavefileDir := settings.GetWavDirectory();
      if currentWavefileDir.None? {
        return Pass;
      }
      var dir := currentWavefileDir.value;
      var complete := ScanDirectory(dir, fs(dir));
      if !complete {
        return Fail("Failed to scan the WAV directory");
      }
      ghost var found := ScanListing(dir, fs(dir)).found;
      forall k | 0 <= k < |found| ensures waveData[k] == NewRecord(found[k]) {
        NewRecordsAt(found, k);
      }
      var i := 0;
      while i < |waveData|
        invariant 0 <= i <= |waveData| == |found|
        invariant forall k :: 0 <= k < i ==> waveData[k] == Classify(found[k], dir, read, hash)
        invariant forall k :: i <= k < |waveData| ==> waveData[k] == NewRecord(found[k])
        invariant currentWavefileDir == Some(dir)
      {
        waveData := waveData[i := Classify(waveData[i].path, dir, read, hash)];
        i := i + 1;
      }
      assert waveData == ClassifyAll(found, dir, read, hash);
      waveData := SortWaves(waveData);
      return Pass;
    }

    /**
     * `list_relative_paths`: one path per record, in order, with the configured directory
     * stripped off; nothing when no directory is configured.
     */
    function ListRelativePaths(): (r: seq<string>)
      reads this, settings
      ensures settings.GetWavDirectory().None? ==> r == []
      ensures settings.GetWavDirectory().Some? ==> |r| == |waveData|
    {
      match settings.GetWavDirectory()
      case None => []
      case Some(dir) => seq(|waveData|, i reads this requires 0 <= i < |waveData| => RelativePath(waveData[i].path, dir))
    }

    /** A record whose path was joined onto the configured directory shows as the joined part. */
    lemma ListRelativePathsOfJoined(i: nat, rel: string)
      requires settings.GetWavDirectory().Some? && i < |waveData|
      requires waveData[i].path == Join(settings.GetWavDirectory().value, rel) && !IsAbsolute(rel)
      ensures ListRelativePaths()[i] == rel
    {
      RelativePathOfJoin(settings.GetWavDirectory().value, rel);
    }

    /** A record outside the configured directory shows under its full path. */
    lemma ListRelativePathsOutside(i: nat)
      requires settings.GetWavDirectory().Some? && i < |waveData|
      requires StripPrefix(waveData[i].path, settings.GetWavDirectory().value).None?
      ensures ListRelativePaths()[i] == waveData[i].path
    {
    }
  }
}
