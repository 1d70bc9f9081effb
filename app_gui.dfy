/**
 * The non-rendering core of `AppGUI`: the description truncation, the file-list filter and
 * its cache, the selection that follows the installed configuration, the rescan that keeps a
 * failing directory out of the settings file, and the button handlers for the configuration
 * and the device name.
 */
module Gui {
  import opened Wrappers
  import opened Strings
  import opened WavData
  import Seqs
  import Settings
  import WavIndex
  import Files
  import Config
  import Paths

  // ---------------------------------------------------------------------------------------
  // Description truncation
  // ---------------------------------------------------------------------------------------

  /** Longest description, in bytes, shown in full. */
  const MaxDescriptionLen: nat := 240
  const Ellipsis: string := "..."

  lemma ByteLenSingle(c: char)
    ensures ByteLen([c]) == Utf8Width(c)
  {
    assert [c][..0] == [];
  }

  lemma EllipsisByteLen()
    ensures ByteLen(Ellipsis) == 3
  {
    AsciiByteLen(Ellipsis);
  }

  /** Every further character adds at least one byte. */
  lemma ByteLenPrefixGrows(s: string, i: nat, j: nat)
    requires i <= j <= |s|
    ensures ByteLen(s[..i]) + (j - i) <= ByteLen(s[..j])
  {
    assert s[..j] == s[..i] + s[i..j];
    ByteLenConcat(s[..i], s[i..j]);
  }

  /** One more leading character adds its own width. */
  lemma ConsPrefixByteLen(s: string, k: nat)
    requires k < |s|
    ensures ByteLen(s[..k + 1]) == Utf8Width(s[0]) + ByteLen(s[1..][..k])
  {
    ByteLenSingle(s[0]);
    assert s[..k + 1] == [s[0]] + s[1..][..k];
    ByteLenConcat([s[0]], s[1..][..k]);
  }

  /** The number of leading characters of `s` whose encoding fits in `limit` bytes. */
  function FittingPrefix(s: string, limit: nat): (k: nat)
    ensures k <= |s| && ByteLen(s[..k]) <= limit
    ensures k < |s| ==> ByteLen(s[..k + 1]) > limit
    decreases |s|
  {
    if s == [] then 0
    else if Utf8Width(s[0]) > limit then
      ConsPrefixByteLen(s, 0);
      0
    else
      var k := FittingPrefix(s[1..], limit - Utf8Width(s[0]));
      ConsPrefixByteLen(s, k);
      if k < |s[1..]| then ConsPrefixByteLen(s, k + 1); k + 1 else k + 1
  }

  /** At a character boundary, the fitting prefix is exactly the characters before it. */
  lemma FittingPrefixAtBoundary(s: string, k: nat, n: nat)
    requires k <= |s| && ByteLen(s[..k]) == n
    ensures FittingPrefix(s, n) == k
  {
    var f := FittingPrefix(s, n);
    if f < k {
      ByteLenPrefixGrows(s, f + 1, k);
    } else if f > k {
      ByteLenPrefixGrows(s, k, f);
    }
  }

  /**
   * `truncate_description` as written: the byte slice `[..237]` of a longer description,
   * trimmed at the end, plus `...`; `None` stands for the panic when byte 237 falls inside a
   * character.
   */
  ghost function TruncateAsWritten(d: string): Option<string> {
    if ByteLen(d) <= MaxDescriptionLen then Some(d)
    else if IsCharBoundary(d, MaxDescriptionLen - 3) then
      var k :| 0 <= k <= |d| && ByteLen(d[..k]) == MaxDescriptionLen - 3;
      Some(TrimEnd(d[..k]) + Ellipsis)
    else None
  }

  /** 236 ASCII letters, then `é` (two bytes), then three more letters: 241 bytes. */
  function PanicExample(): string {
    seq(236, _ => 'a') + ['é'] + "aaa"
  }

  /** The as-written slice panics on a description whose byte 237 is inside `é`. */
  lemma TruncateAsWrittenPanics()
    ensures ByteLen(PanicExample()) > MaxDescriptionLen
    ensures TruncateAsWritten(PanicExample()) == None
  {
    var d := PanicExample();
    var letters := seq(236, _ => 'a');
    assert d[..236] == letters;
    AsciiByteLen(letters);
    assert d[..237] == letters + ['é'];
    ByteLenConcat(letters, ['é']);
    ByteLenSingle('é');
    ByteLenPrefixGrows(d, 237, |d|);
    assert d[..|d|] == d;
    assert !IsCharBoundary(d, 237) by {
      forall k | 0 <= k <= |d|
        ensures ByteLen(d[..k]) != 237
      {
        if k <= 236 {
          assert d[..k] == letters[..k];
          AsciiByteLen(letters[..k]);
        } else {
          ByteLenPrefixGrows(d, 237, k);
        }
      }
    }
  }

  /**
   * The corrected truncation: cut at the last character boundary at or before byte 237, so
   * the result, with its `...`, never exceeds 240 bytes.
   */
  function TruncateDescription(d: string): (r: string)
    ensures ByteLen(d) <= MaxDescriptionLen ==> r == d
    ensures ByteLen(d) > MaxDescriptionLen ==>
      && ByteLen(r) <= MaxDescriptionLen
      && EndsWith(r, Ellipsis)
      && StartsWith(d, r[..|r| - |Ellipsis|])
  {
    if ByteLen(d) <= MaxDescriptionLen then d
    else
      var k := FittingPrefix(d, MaxDescriptionLen - 3);
      var stem := TrimEnd(d[..k]);
      assert stem == d[..|stem|];
      ByteLenPrefixGrows(d, |stem|, k);
      ByteLenConcat(stem, Ellipsis);
      EllipsisByteLen();
      var r := stem + Ellipsis;
      assert r[|r| - 3..] == Ellipsis && r[..|r| - 3] == stem;
      r
  }

  /** Wherever the code as written does not panic, the correction gives the same text. */
  lemma TruncateAgreesWhenNoPanic(d: string)
    requires TruncateAsWritten(d).Some?
    ensures TruncateAsWritten(d) == Some(TruncateDescription(d))
  {
    if ByteLen(d) > MaxDescriptionLen {
      var k :| 0 <= k <= |d| && ByteLen(d[..k]) == MaxDescriptionLen - 3;
      FittingPrefixAtBoundary(d, k, MaxDescriptionLen - 3);
      forall k' | 0 <= k' <= |d| && ByteLen(d[..k']) == MaxDescriptionLen - 3
        ensures k' == k
      {
        FittingPrefixAtBoundary(d, k', MaxDescriptionLen - 3);
      }
    }
  }

  // ---------------------------------------------------------------------------------------
  // The file-list filter
  // ---------------------------------------------------------------------------------------

  /**
   * The predicate `get_filtered_items` filters with: the rate filter (`Unknown` is "All",
   * `Damaged` shows nothing, any other rate only that rate) and a case-insensitive substring
   * search of the relative path.
   */
  function ShowsWave(filter: WaveSampleRate, search: string, w: WavFileData): bool {
    var rateOk := match filter
      case Unknown => true
      case Damaged => false
      case _ => w.sampleRate == filter;
    var searchOk := search == [] || Contains(ToLowerAscii(w.relativePath), ToLowerAscii(search));
    rateOk && searchOk
  }

  function Shows(filter: WaveSampleRate, search: string): WavFileData -> bool {
    w => ShowsWave(filter, search, w)
  }

  /** "All" with an empty search shows every file, damaged ones included. */
  lemma ShowsAllByDefault(w: WavFileData)
    ensures ShowsWave(Unknown, [], w)
  {
  }

  /** A concrete rate filter shows only files of that rate, so never a damaged one. */
  lemma RateFilterMatches(filter: WaveSampleRate, search: string, w: WavFileData)
    requires filter != Unknown
    requires ShowsWave(filter, search, w)
    ensures w.sampleRate == filter && w.sampleRate != Damaged
  {
  }

  lemma LowerAsciiIdempotent(s: string)
    ensures ToLowerAscii(ToLowerAscii(s)) == ToLowerAscii(s)
  {
  }

  /** The search is case-insensitive: lower-casing the search text changes nothing. */
  lemma SearchIgnoresCase(filter: WaveSampleRate, search: string, w: WavFileData)
    ensures ShowsWave(filter, ToLowerAscii(search), w) == ShowsWave(filter, search, w)
  {
    LowerAsciiIdempotent(search);
  }

  /** A search for an exact piece of the relative path finds the file. */
  lemma SearchFindsSubstring(filter: WaveSampleRate, w: WavFileData, i: nat, j: nat)
    requires i <= j <= |w.relativePath|
    requires filter == Unknown || w.sampleRate == filter
    requires filter != Damaged
    ensures ShowsWave(filter, w.relativePath[i..j], w)
  {
    var lower := ToLowerAscii(w.relativePath);
    assert ToLowerAscii(w.relativePath[i..j]) == lower[i..j];
    assert OccursAt(lower, lower[i..j], i);
    ContainsAt(lower, lower[i..j], i);
  }

  // ---------------------------------------------------------------------------------------
  // Selection
  // ---------------------------------------------------------------------------------------

  /**
   * What `apply_auto_selection` selects: the installed configuration's checksum when it is
   * not the damaged sentinel and a library file has it, otherwise nothing.
   */
  function AutoSelected(installed: Option<u64>, items: seq<WavFileData>): (r: Option<u64>)
    ensures r.Some? ==> r == installed && r.value != 0
    ensures r.Some? ==> WavIndex.Lookup(items, r.value).Some? && WavIndex.Lookup(items, r.value).value.checksum == r.value
    ensures r.None? && installed.Some? && installed.value != 0 ==>
      forall i :: 0 <= i < |items| ==> items[i].checksum != installed.value
  {
    if installed.Some? && installed.value != 0 && WavIndex.Lookup(items, installed.value).Some?
    then installed
    else None
  }

  /** `check_config_exists`: the installed checksum, with errors read as "no configuration". */
  function InstalledChecksum(r: Result<Option<u64>, string>): (c: Option<u64>)
    ensures c.Some? <==> r.Ok? && r.value.Some?
    ensures c.Some? ==> c == r.value
  {
    match r
    case Ok(found) => found
    case Err(_) => None
  }

  /** A file whose checksum the configuration reports is selected after a rescan. */
  lemma ConfiguredFileIsSelected(items: seq<WavFileData>, i: nat)
    requires i < |items| && items[i].checksum != 0
    ensures AutoSelected(Some(items[i].checksum), items) == Some(items[i].checksum)
  {
  }

  // ---------------------------------------------------------------------------------------
  // The device-name buttons
  // ---------------------------------------------------------------------------------------

  /** The Apply button: enabled for a non-empty trimmed name that differs from the current one. */
  function ApplyEnabled(text: string, current: string): bool {
    var t := Trim(text);
    t != [] && t != current
  }

  /** The Default button: disabled only when both the field and the setting hold the default. */
  function DefaultEnabled(text: string, current: string): bool {
    !(Trim(text) == Settings.DefaultVirtualDeviceName && current == Settings.DefaultVirtualDeviceName)
  }

  /** A field of nothing but whitespace never enables Apply. */
  lemma ApplyNeedsText(text: string, current: string)
    requires AllWhitespace(text)
    ensures !ApplyEnabled(text, current)
  {
  }

  /** After applying a field, Apply is disabled until the field changes. */
  lemma ApplyDisabledAfterApply(text: string)
    ensures !ApplyEnabled(text, Trim(text))
  {
  }

  /** After Default, Apply is disabled. */
  lemma ApplyDisabledAfterDefault(text: string, current: string)
    requires text == Settings.DefaultVirtualDeviceName && current == Settings.DefaultVirtualDeviceName
    ensures !ApplyEnabled(text, current)
  {
    DefaultNameTrimmed();
  }

  /** After Default, Default itself is disabled. */
  lemma DefaultDisabledAfterDefault(text: string, current: string)
    requires text == Settings.DefaultVirtualDeviceName && current == Settings.DefaultVirtualDeviceName
    ensures !DefaultEnabled(text, current)
  {
    DefaultNameTrimmed();
  }

  /** The default device name has no surrounding whitespace. */
  lemma DefaultNameTrimmed()
    ensures Trim(Settings.DefaultVirtualDeviceName) == Settings.DefaultVirtualDeviceName
  {
    var name := Settings.DefaultVirtualDeviceName;
    assert name[0] == 'V' && name[|name| - 1] == 'k';
    TrimOfTrimmed(name);
  }

  // ---------------------------------------------------------------------------------------
  // The window state
  // ---------------------------------------------------------------------------------------

  /** What the directory field names, as `Path::exists` and `Path::is_dir` see it. */
  datatype PathKind = Missing | NotDirectory | Directory

  class AppGui {
    const settings: Settings.AppSettings
    /** The settings file `write_settings` saves to. */
    const store: Settings.SettingsStore
    const fileManager: Files.FileManager
    const configManager: Config.ConfigManager
    var allWavIndex: WavIndex.WavFileIndex
    /** The cached filtered list; `null` when it must be rebuilt. */
    var filteredWavIndex: WavIndex.WavFileIndex?
    var selectedChecksum: Option<u64>
    var sampleRateFilter: WaveSampleRate
    /** The installed configuration's checksum: `None` without one, `Some(0)` when its file is damaged. */
    var configInstalled: Option<u64>
    var searchText: string
    var directoryText: string
    var deviceNameText: string
    var scrollToRow: Option<nat>
    var modalOpen: bool
    var modalHeader: string
    var modalMessage: string

    /**
     * The library index is well formed, the managers share these settings, and a cached
     * filtered list is always the library under the current filter and search.
     */
    ghost predicate Valid()
      reads this`allWavIndex, this`filteredWavIndex, this`sampleRateFilter, this`searchText
      reads allWavIndex, filteredWavIndex
    {
      && fileManager.settings == settings
      && configManager.settings == settings
      && allWavIndex.Valid()
      && (filteredWavIndex != null ==>
            && filteredWavIndex != allWavIndex
            && filteredWavIndex.Valid()
            && filteredWavIndex.items == Seqs.Filter(allWavIndex.items, Shows(sampleRateFilter, searchText)))
    }

    /**
     * The fields `AppGUI::new` sets before its start-up rescan; `NewAppGui` runs the two
     * together.
     */
    constructor (settings: Settings.AppSettings, store: Settings.SettingsStore, fileManager: Files.FileManager,
                 configManager: Config.ConfigManager, read: string -> Option<Bytes>, hash: Bytes -> u64)
      requires fileManager.settings == settings && configManager.settings == settings
      ensures this.settings == settings && this.store == store
      ensures this.fileManager == fileManager && this.configManager == configManager
      ensures Valid() && filteredWavIndex == null && fresh(allWavIndex) && allWavIndex.items == []
      ensures configInstalled == InstalledChecksum(configManager.ConfigExists(read, hash))
      ensures sampleRateFilter == F48000 && searchText == []
      ensures deviceNameText == settings.virtualDeviceName
      ensures settings.GetWavDirectory().None? ==> directoryText == []
      ensures settings.GetWavDirectory().Some? ==> directoryText == settings.GetWavDirectory().value
      ensures selectedChecksum == None && scrollToRow == None
      ensures !modalOpen && modalHeader == [] && modalMessage == []
    {
      var installed := configManager.ConfigExists(read, hash);
      var field := match settings.GetWavDirectory() case None => [] case Some(d) => d;
      this.settings := settings;
      this.store := store;
      this.fileManager := fileManager;
      this.configManager := configManager;
      configInstalled := InstalledChecksum(installed);
      sampleRateFilter := F48000;
      directoryText := field;
      deviceNameText := settings.virtualDeviceName;
      allWavIndex := new WavIndex.WavFileIndex();
      filteredWavIndex := null;
      selectedChecksum := None;
      searchText := [];
      scrollToRow := None;
      modalOpen := false;
      modalHeader := [];
      modalMessage := [];
    }

    /**
     * The state after the start-up rescan of `dir`, from a library `items0`, a selection
     * `selected0` and a settings file `document0`: an empty library when no directory is
     * configured, what the scan found and the installed configuration's file selected when it
     * completes, the old library and selection when it does not. A writable settings file is
     * rewritten only for a persisted directory, and keeps it only when the scan completes.
     */
    ghost predicate StartedUp(dir: Option<string>, active0: Option<string>, document0: Option<Settings.Persisted>,
                              items0: seq<WavFileData>, selected0: Option<u64>,
                              fs: string -> Files.Listing, read: string -> Option<Bytes>, hash: Bytes -> u64)
      reads this`allWavIndex, this`selectedChecksum, this`configInstalled, settings, store, allWavIndex
    {
      && (dir.None? ==> allWavIndex.items == [] && selectedChecksum == selected0 && store.document == document0)
      && (dir.Some? && Files.ScanListing(dir.value, fs(dir.value)).complete ==>
            && allWavIndex.items == Files.SortWaves(Files.ClassifyAll(Files.ScanListing(dir.value, fs(dir.value)).found, dir.value, read, hash))
            && selectedChecksum == AutoSelected(configInstalled, allWavIndex.items))
      && (dir.Some? && !Files.ScanListing(dir.value, fs(dir.value)).complete ==>
            allWavIndex.items == items0 && selectedChecksum == selected0)
      && (active0.Some? ==> store.document == document0)
      && (active0.None? && dir.Some? && store.writable ==>
            store.document == Some(Settings.Persisted(if Files.ScanListing(dir.value, fs(dir.value)).complete then dir else None,
                                                      settings.virtualDeviceName, settings.themePreference)))
    }

    /**
     * The start-up rescan, whose outcome `AppGUI::new` ignores: only the state it leaves,
     * `StartedUp`, is kept.
     */
    method StartupRescan(fs: string -> Files.Listing, read: string -> Option<Bytes>, hash: Bytes -> u64)
      requires Valid()
      modifies this`filteredWavIndex, this`allWavIndex, this`selectedChecksum, this`scrollToRow
      modifies this`modalOpen, this`modalHeader, this`modalMessage, settings, store, fileManager, allWavIndex
      ensures Valid() && filteredWavIndex == null
      ensures settings.wavDirectory == old(settings.wavDirectory)
      ensures settings.activeWavDirectory == old(settings.activeWavDirectory)
      ensures settings.virtualDeviceName == old(settings.virtualDeviceName)
      ensures settings.themePreference == old(settings.themePreference) && settings.devMode == old(settings.devMode)
      ensures store.writable == old(store.writable)
      ensures scrollToRow == old(scrollToRow)
      ensures store.writable ==> modalOpen == old(modalOpen) && modalHeader == old(modalHeader) && modalMessage == old(modalMessage)
      ensures StartedUp(old(settings.GetWavDirectory()), old(settings.activeWavDirectory), old(store.document),
                        old(allWavIndex.items), old(selectedChecksum), fs, read, hash)
    {
      var _ := SafeRescan(fs, read, hash);
    }

    /** `find_wav_by_checksum`: the library's lookup by checksum. */
    function FindWavByChecksum(checksum: u64): (r: Option<WavFileData>)
      reads this, allWavIndex
      requires allWavIndex.Valid()
      ensures r == WavIndex.Lookup(allWavIndex.items, checksum)
    {
      allWavIndex.GetByChecksum(checksum)
    }

    method ShowModal(header: string, message: string)
      modifies this`modalOpen, this`modalHeader, this`modalMessage
      ensures modalOpen && modalHeader == header && modalMessage == message
    {
      modalOpen := true;
      modalHeader := header;
      modalMessage := message;
    }

    /** `write_settings`: saves, and opens the error dialog when the save fails. */
    method WriteSettings()
      modifies this`modalOpen, this`modalHeader, this`modalMessage, store
      ensures store.writable == old(store.writable)
      ensures store.writable ==> store.document == Some(settings.ToPersisted())
      ensures store.writable ==> modalOpen == old(modalOpen) && modalHeader == old(modalHeader) && modalMessage == old(modalMessage)
      ensures !store.writable ==> store.document == old(store.document) && modalOpen && modalHeader == "Settings Error"
      ensures !store.writable ==> modalMessage == "Failed to save settings: Failed to write settings"
    {
      var saved := settings.Save(store);
      if saved.Fail? {
        ShowModal("Settings Error", "Failed to save settings: " + saved.error);
      }
    }

    /**
     * `apply_auto_selection`: selects the installed configuration's file, and asks the table
     * to scroll to it when the selection changed and the cached list holds it.
     */
    method ApplyAutoSelection()
      requires Valid()
      modifies this`selectedChecksum, this`scrollToRow
      ensures selectedChecksum == AutoSelected(configInstalled, allWavIndex.items)
      ensures var s := selectedChecksum;
        if s != old(selectedChecksum) && s.Some? && filteredWavIndex != null
           && WavIndex.LastPosition(filteredWavIndex.items, s.value).Some?
        then scrollToRow == WavIndex.LastPosition(filteredWavIndex.items, s.value)
        else scrollToRow == old(scrollToRow)
    {
      var oldChecksum := selectedChecksum;
      if configInstalled.Some? && configInstalled.value != 0 {
        if FindWavByChecksum(configInstalled.value).Some? {
          selectedChecksum := configInstalled;
        } else {
          selectedChecksum := None;
        }
      } else {
        selectedChecksum := None;
      }
      if selectedChecksum != oldChecksum && selectedChecksum.Some? && filteredWavIndex != null {
        var row := filteredWavIndex.IndexOfChecksum(selectedChecksum.value);
        if row.Some? {
          scrollToRow := row;
        }
      }
    }

    /** Asks the table to scroll to the selected file's row in `list`, if it has one. */
    method ScrollToSelected(list: WavIndex.WavFileIndex)
      requires list.Valid()
      modifies this`scrollToRow
      ensures if selectedChecksum.Some? && selectedChecksum.value != 0
                 && WavIndex.LastPosition(list.items, selectedChecksum.value).Some?
              then scrollToRow == WavIndex.LastPosition(list.items, selectedChecksum.value)
              else scrollToRow == old(scrollToRow)
    {
      if selectedChecksum.Some? {
        var row := list.IndexOfChecksum(selectedChecksum.value);
        if row.Some? {
          scrollToRow := row;
        }
      }
    }

    /**
     * `get_filtered_items`: the cached list, or a fresh one built with the filter predicate,
     * after which the table scrolls to the selected file if the list holds it.
     */
    method GetFilteredItems() returns (r: WavIndex.WavFileIndex)
      requires Valid()
      modifies this`filteredWavIndex, this`scrollToRow
      ensures Valid() && r == filteredWavIndex
      ensures r.items == Seqs.Filter(allWavIndex.items, Shows(sampleRateFilter, searchText))
      ensures old(filteredWavIndex) != null ==> r == old(filteredWavIndex) && scrollToRow == old(scrollToRow)
      ensures old(filteredWavIndex) == null ==> fresh(r)
      ensures old(filteredWavIndex) == null ==>
        if selectedChecksum.Some? && selectedChecksum.value != 0
           && WavIndex.LastPosition(r.items, selectedChecksum.value).Some?
        then scrollToRow == WavIndex.LastPosition(r.items, selectedChecksum.value)
        else scrollToRow == old(scrollToRow)
    {
      if filteredWavIndex != null {
        return filteredWavIndex;
      }
      r := allWavIndex.FilteredClone(Shows(sampleRateFilter, searchText));
      filteredWavIndex := r;
      ScrollToSelected(r);
    }

    /** A new rate filter drops the cached list. */
    method SetSampleRateFilter(filter: WaveSampleRate)
      requires Valid()
      modifies this`sampleRateFilter, this`filteredWavIndex
      ensures Valid() && sampleRateFilter == filter
      ensures filter != old(sampleRateFilter) ==> filteredWavIndex == null
      ensures filter == old(sampleRateFilter) ==> filteredWavIndex == old(filteredWavIndex)
    {
      if filter != sampleRateFilter {
        filteredWavIndex := null;
      }
      sampleRateFilter := filter;
    }

    /** A new search text (the Clear button sets it empty) drops the cached list. */
    method SetSearchText(text: string)
      requires Valid()
      modifies this`searchText, this`filteredWavIndex
      ensures Valid() && searchText == text
      ensures text != old(searchText) ==> filteredWavIndex == null
      ensures text == old(searchText) ==> filteredWavIndex == old(filteredWavIndex)
    {
      if text != searchText {
        filteredWavIndex := null;
      }
      searchText := text;
    }

    /** Rescans the configured directory and, when the scan completes, indexes what it found. */
    method LoadLibrary(fs: string -> Files.Listing, read: string -> Option<Bytes>, hash: Bytes -> u64)
      returns (r: Outcome<string>)
      requires fileManager.settings == settings && settings.GetWavDirectory().Some?
      modifies fileManager, this`allWavIndex
      ensures var dir := settings.GetWavDirectory().value; var scan := Files.ScanListing(dir, fs(dir));
        && (r.Pass? <==> scan.complete)
        && (r.Pass? ==>
              && fresh(allWavIndex) && allWavIndex.Valid()
              && allWavIndex.items == Files.SortWaves(Files.ClassifyAll(scan.found, dir, read, hash)))
        && (r.Fail? ==> allWavIndex == old(allWavIndex))
    {
      r := fileManager.RescanConfiguredDirectory(fs, read, hash);
      if r.Pass? {
        allWavIndex := new WavIndex.WavFileIndex.FromVec(fileManager.waveData);
      }
    }

    /** Persists the settings with no directory, keeping the directory in memory. */
    method PersistWithoutDirectory()
      requires settings.activeWavDirectory.None?
      modifies settings, store, this`modalOpen, this`modalHeader, this`modalMessage
      ensures settings.wavDirectory == old(settings.wavDirectory) && settings.activeWavDirectory == None
      ensures settings.virtualDeviceName == old(settings.virtualDeviceName)
      ensures settings.themePreference == old(settings.themePreference) && settings.devMode == old(settings.devMode)
      ensures store.writable == old(store.writable)
      ensures store.writable ==> store.document == Some(Settings.Persisted(None, settings.virtualDeviceName, settings.themePreference))
      ensures !store.writable ==> store.document == old(store.document)
      ensures store.writable ==> modalOpen == old(modalOpen) && modalHeader == old(modalHeader) && modalMessage == old(modalMessage)
    {
      var original := settings.wavDirectory;
      settings.SetWavDirectory(None);
      WriteSettings();
      settings.SetWavDirectory(original);
    }

    /**
     * The end of `safe_rescan`: a selection the new library no longer holds is dropped, then
     * the selection follows the installed configuration.
     */
    method Reselect()
      requires Valid() && filteredWavIndex == null
      modifies this`selectedChecksum, this`scrollToRow
      ensures selectedChecksum == AutoSelected(configInstalled, allWavIndex.items)
      ensures scrollToRow == old(scrollToRow)
    {
      if selectedChecksum.Some? && FindWavByChecksum(selectedChecksum.value).None? {
        selectedChecksum := None;
      }
      ApplyAutoSelection();
    }

    /**
     * The configured-directory case of `safe_rescan`. When `dir` is the persisted directory,
     * the settings file holds no directory while the scan runs and gets it back only after
     * the scan succeeds.
     */
    method RescanConfigured(dir: string, fs: string -> Files.Listing, read: string -> Option<Bytes>, hash: Bytes -> u64)
      returns (r: Outcome<string>)
      requires Valid() && filteredWavIndex == null && settings.GetWavDirectory() == Some(dir)
      modifies this`allWavIndex, this`selectedChecksum, this`scrollToRow
      modifies this`modalOpen, this`modalHeader, this`modalMessage, settings, store, fileManager
      ensures Valid() && filteredWavIndex == null
      ensures settings.wavDirectory == old(settings.wavDirectory)
      ensures settings.activeWavDirectory == old(settings.activeWavDirectory)
      ensures settings.virtualDeviceName == old(settings.virtualDeviceName)
      ensures settings.themePreference == old(settings.themePreference) && settings.devMode == old(settings.devMode)
      ensures store.writable == old(store.writable)
      ensures scrollToRow == old(scrollToRow)
      ensures store.writable ==> modalOpen == old(modalOpen) && modalHeader == old(modalHeader) && modalMessage == old(modalMessage)
      ensures var scan := Files.ScanListing(dir, fs(dir));
        && (r.Pass? <==> scan.complete)
        && (r.Pass? ==>
              && allWavIndex.items == Files.SortWaves(Files.ClassifyAll(scan.found, dir, read, hash))
              && selectedChecksum == AutoSelected(configInstalled, allWavIndex.items))
      ensures r.Fail? ==> allWavIndex == old(allWavIndex) && allWavIndex.items == old(allWavIndex.items)
                          && selectedChecksum == old(selectedChecksum)
      ensures old(settings.activeWavDirectory).Some? ==> store.document == old(store.document)
      ensures old(settings.activeWavDirectory).None? && store.writable ==>
        store.document == Some(Settings.Persisted(if r.Pass? then settings.wavDirectory else None,
                                                  settings.virtualDeviceName, settings.themePreference))
    {
      var persisted := settings.IsWavDirectorySet();
      if persisted {
        PersistWithoutDirectory();
      }
      r := LoadLibrary(fs, read, hash);
      if r.Fail? {
        return;
      }
      CommitRescan(persisted);
    }

    /**
     * The end of a successful `safe_rescan`: a persisted directory is saved again, then the
     * selection is checked against the new library.
     */
    method CommitRescan(persisted: bool)
      requires Valid() && filteredWavIndex == null
      modifies this`selectedChecksum, this`scrollToRow, this`modalOpen, this`modalHeader, this`modalMessage, store
      ensures selectedChecksum == AutoSelected(configInstalled, allWavIndex.items)
      ensures scrollToRow == old(scrollToRow)
      ensures store.writable == old(store.writable)
      ensures persisted && store.writable ==> store.document == Some(settings.ToPersisted())
      ensures !persisted || !store.writable ==> store.document == old(store.document)
      ensures !persisted || store.writable ==>
        modalOpen == old(modalOpen) && modalHeader == old(modalHeader) && modalMessage == old(modalMessage)
      ensures persisted && !store.writable ==> modalOpen && modalHeader == "Settings Error"
    {
      if persisted {
        WriteSettings();
      }
      Reselect();
    }

    /** `safe_rescan`: rescans the configured directory, or empties the library when there is none. */
    method SafeRescan(fs: string -> Files.Listing, read: string -> Option<Bytes>, hash: Bytes -> u64)
      returns (r: Outcome<string>)
      requires Valid()
      modifies this`filteredWavIndex, this`allWavIndex, this`selectedChecksum, this`scrollToRow
      modifies this`modalOpen, this`modalHeader, this`modalMessage, settings, store, fileManager, allWavIndex
      ensures Valid() && filteredWavIndex == null
      ensures settings.wavDirectory == old(settings.wavDirectory)
      ensures settings.activeWavDirectory == old(settings.activeWavDirectory)
      ensures settings.virtualDeviceName == old(settings.virtualDeviceName)
      ensures settings.themePreference == old(settings.themePreference) && settings.devMode == old(settings.devMode)
      ensures store.writable == old(store.writable)
      ensures scrollToRow == old(scrollToRow)
      ensures store.writable ==> modalOpen == old(modalOpen) && modalHeader == old(modalHeader) && modalMessage == old(modalMessage)
      ensures var dir := old(settings.GetWavDirectory());
        && (dir.None? ==> r.Pass? && allWavIndex.items == [] && store.document == old(store.document)
                          && selectedChecksum == old(selectedChecksum))
        && (dir.Some? ==> (r.Pass? <==> Files.ScanListing(dir.value, fs(dir.value)).complete))
        && (dir.Some? && r.Pass? ==>
              && allWavIndex.items == Files.SortWaves(Files.ClassifyAll(Files.ScanListing(dir.value, fs(dir.value)).found, dir.value, read, hash))
              && selectedChecksum == AutoSelected(configInstalled, allWavIndex.items))
      ensures r.Fail? ==> allWavIndex == old(allWavIndex) && allWavIndex.items == old(allWavIndex.items)
                          && selectedChecksum == old(selectedChecksum)
      ensures old(settings.activeWavDirectory).Some? ==> store.document == old(store.document)
      ensures old(settings.activeWavDirectory).None? && old(settings.wavDirectory).Some? && store.writable ==>
        store.document == Some(Settings.Persisted(if r.Pass? then settings.wavDirectory else None,
                                                  settings.virtualDeviceName, settings.themePreference))
    {
      filteredWavIndex := null;
      var originalPath := settings.GetWavDirectory();
      if originalPath.None? {
        allWavIndex.Clear();
        return Pass;
      }
      r := RescanConfigured(originalPath.value, fs, read, hash);
    }

    /**
     * The state after rescanning `dir` from the directory field: it is the configured and
     * persisted directory, the cache is dropped, and either the library is what the scan
     * found, the selection follows the installed configuration and a writable settings file
     * holds the directory, or the error dialog is open and the settings file holds no directory.
     */
    ghost predicate Rescanned(dir: string, fs: string -> Files.Listing, read: string -> Option<Bytes>, hash: Bytes -> u64)
      reads this, settings, store, allWavIndex
    {
      var scan := Files.ScanListing(dir, fs(dir));
      && settings.wavDirectory == Some(dir) && settings.activeWavDirectory == None
      && filteredWavIndex == null
      && (scan.complete ==> allWavIndex.items == Files.SortWaves(Files.ClassifyAll(scan.found, dir, read, hash)))
      && (scan.complete ==> selectedChecksum == AutoSelected(configInstalled, allWavIndex.items))
      && (!scan.complete ==> modalOpen && modalHeader == "Rescan Error")
      && (store.writable ==>
            store.document == Some(Settings.Persisted(if scan.complete then Some(dir) else None,
                                                      settings.virtualDeviceName, settings.themePreference)))
    }

    /** The directory case of `on_rescan_click`: persist it as the directory, then rescan safely. */
    method RescanDirectory(dir: string, fs: string -> Files.Listing, read: string -> Option<Bytes>, hash: Bytes -> u64)
      requires Valid()
      modifies this`filteredWavIndex, this`allWavIndex, this`selectedChecksum, this`scrollToRow
      modifies this`modalOpen, this`modalHeader, this`modalMessage, settings, store, fileManager, allWavIndex
      ensures Valid() && Rescanned(dir, fs, read, hash)
      ensures settings.virtualDeviceName == old(settings.virtualDeviceName)
      ensures settings.themePreference == old(settings.themePreference) && settings.devMode == old(settings.devMode)
      ensures store.writable == old(store.writable)
      ensures scrollToRow == old(scrollToRow)
      ensures Files.ScanListing(dir, fs(dir)).complete && store.writable ==> modalOpen == old(modalOpen) && modalHeader == old(modalHeader) && modalMessage == old(modalMessage)
    {
      filteredWavIndex := null;
      settings.SetWavDirectory(Some(dir));
      var r := SafeRescan(fs, read, hash);
      if r.Fail? {
        ShowModal("Rescan Error", "Failed to rescan directory: " + r.error);
      }
    }

    /**
     * `on_rescan_click` once the field is trimmed to `dir`: rescans it, after checking that it
     * exists and is a directory, making it the persisted directory.
     */
    method RescanPath(dir: string, probe: string -> PathKind, fs: string -> Files.Listing,
                      read: string -> Option<Bytes>, hash: Bytes -> u64)
      requires Valid()
      modifies this`filteredWavIndex, this`allWavIndex, this`selectedChecksum, this`scrollToRow
      modifies this`modalOpen, this`modalHeader, this`modalMessage, settings, store, fileManager, allWavIndex
      ensures Valid()
      ensures settings.virtualDeviceName == old(settings.virtualDeviceName)
      ensures settings.themePreference == old(settings.themePreference) && settings.devMode == old(settings.devMode)
      ensures store.writable == old(store.writable)
      ensures scrollToRow == old(scrollToRow)
      ensures dir != [] && probe(dir) == Directory && Files.ScanListing(dir, fs(dir)).complete && store.writable ==>
        modalOpen == old(modalOpen) && modalHeader == old(modalHeader) && modalMessage == old(modalMessage)
      ensures dir == [] || probe(dir) != Directory ==>
        && unchanged(settings) && unchanged(store) && unchanged(fileManager)
        && allWavIndex == old(allWavIndex) && allWavIndex.items == old(allWavIndex.items)
        && selectedChecksum == old(selectedChecksum) && filteredWavIndex == old(filteredWavIndex)
        && scrollToRow == old(scrollToRow)
      ensures dir == [] ==>
        modalOpen == old(modalOpen) && modalHeader == old(modalHeader) && modalMessage == old(modalMessage)
      ensures dir != [] && probe(dir) == Missing ==>
        modalOpen && modalHeader == "Directory Not Found" && modalMessage == "The specified directory does not exist."
      ensures dir != [] && probe(dir) == NotDirectory ==>
        modalOpen && modalHeader == "Not a Directory" && modalMessage == "The specified path is not a directory."
      ensures dir != [] && probe(dir) == Directory ==> Rescanned(dir, fs, read, hash)
    {
      if dir == [] {
        return;
      }
      var kind := probe(dir);
      if kind == Missing {
        ShowModal("Directory Not Found", "The specified directory does not exist.");
      } else if kind == NotDirectory {
        ShowModal("Not a Directory", "The specified path is not a directory.");
      } else {
        RescanDirectory(dir, fs, read, hash);
      }
    }

    /** `on_rescan_click`: the directory field, trimmed, is what gets checked and rescanned. */
    method OnRescanClick(probe: string -> PathKind, fs: string -> Files.Listing, read: string -> Option<Bytes>,
                         hash: Bytes -> u64)
      requires Valid()
      modifies this`filteredWavIndex, this`allWavIndex, this`selectedChecksum, this`scrollToRow
      modifies this`modalOpen, this`modalHeader, this`modalMessage, settings, store, fileManager, allWavIndex
      ensures Valid()
      ensures settings.virtualDeviceName == old(settings.virtualDeviceName)
      ensures settings.themePreference == old(settings.themePreference) && settings.devMode == old(settings.devMode)
      ensures store.writable == old(store.writable)
      ensures scrollToRow == old(scrollToRow)
      ensures var dir := Trim(old(directoryText));
        && (dir != [] && probe(dir) == Directory && Files.ScanListing(dir, fs(dir)).complete && store.writable ==>
              modalOpen == old(modalOpen) && modalHeader == old(modalHeader) && modalMessage == old(modalMessage))
        && (dir == [] || probe(dir) != Directory ==>
              && unchanged(settings) && unchanged(store) && unchanged(fileManager)
              && allWavIndex == old(allWavIndex) && allWavIndex.items == old(allWavIndex.items)
              && selectedChecksum == old(selectedChecksum) && filteredWavIndex == old(filteredWavIndex)
              && scrollToRow == old(scrollToRow))
        && (dir == [] ==>
              modalOpen == old(modalOpen) && modalHeader == old(modalHeader) && modalMessage == old(modalMessage))
        && (dir != [] && probe(dir) == Missing ==>
              modalOpen && modalHeader == "Directory Not Found" && modalMessage == "The specified directory does not exist.")
        && (dir != [] && probe(dir) == NotDirectory ==>
              modalOpen && modalHeader == "Not a Directory" && modalMessage == "The specified path is not a directory.")
        && (dir != [] && probe(dir) == Directory ==> Rescanned(dir, fs, read, hash))
    {
      RescanPath(Trim(directoryText), probe, fs, read, hash);
    }

    /**
     * `on_write_config_click`: writes a configuration for the selected file, then reads the
     * installed checksum back. The returned outcome is what the handler logs.
     */
    method OnWriteConfigClick(template: string, read: string -> Option<Bytes>, hash: Bytes -> u64,
                              faults: Config.Faults, status: Config.ExitStatus)
      returns (r: Outcome<string>)
      requires Valid()
      modifies this`configInstalled, configManager
      ensures var wave := if old(selectedChecksum).Some? then WavIndex.Lookup(allWavIndex.items, selectedChecksum.value) else None;
        && (wave.None? ==>
              && r.Fail? && configInstalled == old(configInstalled)
              && configManager.configFile == old(configManager.configFile) && configManager.staged == old(configManager.staged))
        && (wave.Some? ==>
              var content := Config.CopiedContent(configManager.configPath, old(configManager.staged), wave.value.path,
                                                  read, faults);
              var failed := Config.FailedStep(configManager.configPath, wave.value.path, content, faults,
                                              Config.ApplyConfig(settings.devMode, status));
              && (r.Pass? <==> failed.None?)
              && (failed.None? ==> configInstalled == InstalledChecksum(configManager.ConfigExists(read, hash)))
              && (failed.Some? ==> configInstalled == old(configInstalled))
              && (failed == Some(Config.NoParent) ==>
                    configManager.configFile == old(configManager.configFile) && configManager.staged == old(configManager.staged))
              && (failed == Some(Config.CreateStaging) || failed == Some(Config.NoFileName) || failed == Some(Config.Copy) ==>
                    && configManager.configFile == old(configManager.configFile)
                    && configManager.staged == Config.Wiped(old(configManager.staged), faults))
              && (Config.PastCopy(failed) ==>
                    configManager.staged
                      == Config.Wiped(old(configManager.staged), faults)[Paths.FileName(wave.value.path).value := content.value])
              && (failed == Some(Config.CreateConfigDir) ==> configManager.configFile == old(configManager.configFile))
              && (failed == Some(Config.WriteFile) || failed == Some(Config.Restart) ==> configManager.configFile == Config.Absent)
              && (failed.None? ==>
                    configManager.configFile
                      == Config.Readable(Config.Render(template, Paths.Join(configManager.StagingDir().value,
                                                                           Paths.FileName(wave.value.path).value),
                                                       settings.virtualDeviceName))))
    {
      if selectedChecksum.None? {
        return Fail("No file selected");
      }
      var wave := FindWavByChecksum(selectedChecksum.value);
      if wave.None? {
        return Fail("Selected file not found");
      }
      r := configManager.WriteConfig(wave.value.path, template, read, faults, status);
      if r.Pass? {
        configInstalled := InstalledChecksum(configManager.ConfigExists(read, hash));
      }
    }

    /** `on_delete_config_click`: deletes the configuration; only success clears the installed checksum. */
    method OnDeleteConfigClick(faults: Config.Faults, status: Config.ExitStatus) returns (r: Outcome<string>)
      requires Valid()
      modifies this`configInstalled, configManager
      ensures configManager.staged == old(configManager.staged)
      ensures var removeFailed := old(configManager.configFile) != Config.Absent && faults.removeFails;
        && (r.Pass? <==> !removeFailed && Config.ApplyConfig(settings.devMode, status).Pass?)
        && (!removeFailed ==> configManager.configFile == Config.Absent)
        && (removeFailed ==> configManager.configFile == old(configManager.configFile))
      ensures r.Pass? ==> configInstalled == None
      ensures r.Fail? ==> configInstalled == old(configInstalled)
    {
      r := configManager.DeleteConfig(faults, status);
      if r.Pass? {
        configInstalled := None;
      }
    }

    /** `on_apply_device_name_click`: stores the trimmed name and saves the settings. */
    method OnApplyDeviceNameClick(trimmedText: string)
      requires trimmedText != []
      modifies settings, store, this`modalOpen, this`modalHeader, this`modalMessage
      ensures settings.virtualDeviceName == trimmedText
      ensures settings.wavDirectory == old(settings.wavDirectory) && settings.activeWavDirectory == old(settings.activeWavDirectory)
      ensures settings.themePreference == old(settings.themePreference) && settings.devMode == old(settings.devMode)
      ensures store.writable == old(store.writable)
      ensures store.writable ==> store.document == Some(settings.ToPersisted())
      ensures !store.writable ==> store.document == old(store.document) && modalOpen && modalHeader == "Settings Error"
      ensures store.writable ==> modalOpen == old(modalOpen) && modalHeader == old(modalHeader) && modalMessage == old(modalMessage)
      ensures trimmedText == Trim(deviceNameText) ==> !ApplyEnabled(deviceNameText, settings.virtualDeviceName)
    {
      settings.virtualDeviceName := trimmedText;
      WriteSettings();
    }

    /** `on_default_device_name_click`: puts the default name in the field and applies it. */
    method OnDefaultDeviceNameClick()
      modifies settings, store, this`deviceNameText, this`modalOpen, this`modalHeader, this`modalMessage
      ensures deviceNameText == Settings.DefaultVirtualDeviceName
      ensures settings.virtualDeviceName == Settings.DefaultVirtualDeviceName
      ensures settings.wavDirectory == old(settings.wavDirectory) && settings.activeWavDirectory == old(settings.activeWavDirectory)
      ensures settings.themePreference == old(settings.themePreference) && settings.devMode == old(settings.devMode)
      ensures store.writable == old(store.writable)
      ensures store.writable ==> store.document == Some(settings.ToPersisted())
      ensures !store.writable ==> store.document == old(store.document) && modalOpen && modalHeader == "Settings Error"
      ensures store.writable ==> modalOpen == old(modalOpen) && modalHeader == old(modalHeader) && modalMessage == old(modalMessage)
      ensures !ApplyEnabled(deviceNameText, settings.virtualDeviceName)
      ensures !DefaultEnabled(deviceNameText, settings.virtualDeviceName)
    {
      deviceNameText := Settings.DefaultVirtualDeviceName;
      OnApplyDeviceNameClick(Settings.DefaultVirtualDeviceName);
      ApplyDisabledAfterDefault(deviceNameText, settings.virtualDeviceName);
      DefaultDisabledAfterDefault(deviceNameText, settings.virtualDeviceName);
    }
  }

  /**
   * `AppGUI::new`: the initial fields, then the start-up rescan, whose failure is only
   * logged.
   */
  method NewAppGui(settings: Settings.AppSettings, store: Settings.SettingsStore, fileManager: Files.FileManager,
                   configManager: Config.ConfigManager, fs: string -> Files.Listing, read: string -> Option<Bytes>,
                   hash: Bytes -> u64)
    returns (g: AppGui)
    requires fileManager.settings == settings && configManager.settings == settings
    modifies settings, store, fileManager
    ensures fresh(g) && g.settings == settings && g.store == store
    ensures g.fileManager == fileManager && g.configManager == configManager
    ensures g.Valid() && g.filteredWavIndex == null
    ensures g.configInstalled == InstalledChecksum(old(configManager.ConfigExists(read, hash)))
    ensures g.sampleRateFilter == F48000 && g.searchText == []
    ensures g.deviceNameText == old(settings.virtualDeviceName)
    ensures old(settings.GetWavDirectory()).None? ==> g.directoryText == []
    ensures old(settings.GetWavDirectory()).Some? ==> g.directoryText == old(settings.GetWavDirectory()).value
    ensures settings.wavDirectory == old(settings.wavDirectory)
    ensures settings.activeWavDirectory == old(settings.activeWavDirectory)
    ensures settings.virtualDeviceName == old(settings.virtualDeviceName)
    ensures settings.themePreference == old(settings.themePreference) && settings.devMode == old(settings.devMode)
    ensures store.writable == old(store.writable)
    ensures g.scrollToRow == None
    ensures store.writable ==> !g.modalOpen && g.modalHeader == [] && g.modalMessage == []
    ensures g.StartedUp(old(settings.GetWavDirectory()), old(settings.activeWavDirectory), old(store.document), [], None,
                        fs, read, hash)
  {
    g := new AppGui(settings, store, fileManager, configManager, read, hash);
    g.StartupRescan(fs, read, hash);
  }
}
