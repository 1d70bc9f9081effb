/**
 * `AppSettings`: the persisted WAV directory and device name, plus the runtime-only active
 * directory and development-mode flag, and the settings file they are saved to.
 */
module Settings {
  import opened Wrappers

  const DefaultVirtualDeviceName: string := "Virtual Surround Sink"

  datatype ThemePreference = Light | Dark | System

  /**
   * The fields the settings file stores. The active directory and the development-mode flag
   * are skipped when serialising, so they never reach the file.
   */
  datatype Persisted = Persisted(wavDirectory: Option<string>, virtualDeviceName: string, themePreference: ThemePreference)

  /**
   * The settings file: its parsed document (`None` when it is missing or does not parse),
   * whether writes to it succeed, and the ghost history of every document written.
   */
  class SettingsStore {
    var document: Option<Persisted>
    var writable: bool
    ghost var written: seq<Persisted>

    constructor (document: Option<Persisted>, writable: bool)
      ensures this.document == document && this.writable == writable && written == []
    {
      this.document := document;
      this.writable := writable;
      written := [];
    }
  }

  class AppSettings {
    var wavDirectory: Option<string>
    var virtualDeviceName: string
    var themePreference: ThemePreference
    var activeWavDirectory: Option<string>
    var devMode: bool

    /** `AppSettings::default`. */
    constructor Default()
      ensures wavDirectory == None && activeWavDirectory == None
      ensures virtualDeviceName == DefaultVirtualDeviceName
      ensures themePreference == System && !devMode
    {
      wavDirectory := None;
      virtualDeviceName := DefaultVirtualDeviceName;
      themePreference := System;
      activeWavDirectory := None;
      devMode := false;
    }

    /** `get_wav_directory`: the active directory overrides the persisted one. */
    function GetWavDirectory(): (r: Option<string>)
      reads this
      ensures activeWavDirectory.Some? ==> r == activeWavDirectory
      ensures activeWavDirectory.None? ==> r == wavDirectory
    {
      match activeWavDirectory
      case Some(d) => Some(d)
      case None => wavDirectory
    }

    /** True when the persisted directory, not a temporary one, is in use. */
    function IsWavDirectorySet(): (r: bool)
      reads this
      ensures r <==> activeWavDirectory.None?
    {
      activeWavDirectory.None?
    }

    /** `set_wav_directory`: sets the persisted directory and drops any temporary one. */
    method SetWavDirectory(path: Option<string>)
      modifies this
      ensures wavDirectory == path && activeWavDirectory == None
      ensures GetWavDirectory() == path
      ensures virtualDeviceName == old(virtualDeviceName) && themePreference == old(themePreference)
      ensures devMode == old(devMode)
    {
      wavDirectory := path;
      activeWavDirectory := None;
    }

    /** `set_temp_wav_directory`: only the active directory changes. */
    method SetTempWavDirectory(path: string)
      modifies this
      ensures activeWavDirectory == Some(path) && GetWavDirectory() == Some(path)
      ensures wavDirectory == old(wavDirectory)
      ensures virtualDeviceName == old(virtualDeviceName) && themePreference == old(themePreference)
      ensures devMode == old(devMode)
    {
      activeWavDirectory := Some(path);
    }

    /** The document `save_to_str` produces: the serialised fields only. */
    function ToPersisted(): (p: Persisted)
      reads this
      ensures p.wavDirectory == wavDirectory && p.virtualDeviceName == virtualDeviceName
      ensures p.themePreference == themePreference
    {
      Persisted(wavDirectory, virtualDeviceName, themePreference)
    }

    /** `save`: writes the serialised fields to the settings file, or reports the write error. */
    method Save(store: SettingsStore) returns (r: Outcome<string>)
      modifies store
      ensures store.writable == old(store.writable)
      ensures r.Pass? <==> store.writable
      ensures r.Pass? ==> store.document == Some(ToPersisted()) && store.written == old(store.written) + [ToPersisted()]
      ensures r.Fail? ==> store.document == old(store.document) && store.written == old(store.written)
      ensures r.Fail? ==> r.error == "Failed to write settings"
    {
      if store.writable {
        store.document := Some(ToPersisted());
        store.written := store.written + [ToPersisted()];
        r := Pass;
      } else {
        r := Fail("Failed to write settings");
      }
    }

    /**
     * `load`: fresh settings from the settings file. The skipped fields take their defaults,
     * except `dev_mode`, which is the caller's whatever the file says.
     */
    method Load(store: SettingsStore) returns (r: Result<AppSettings, string>)
      ensures r.Err? <==> store.document.None?
      ensures r.Ok? ==> fresh(r.value)
      ensures r.Ok? ==> r.value.ToPersisted() == store.document.value
      ensures r.Ok? ==> r.value.devMode == devMode && r.value.activeWavDirectory == None
    {
      if store.document.None? {
        r := Err("Failed to read settings file");
      } else {
        var doc := store.document.value;
        var s := new AppSettings.Default();
        s.wavDirectory := doc.wavDirectory;
        s.virtualDeviceName := doc.virtualDeviceName;
        s.themePreference := doc.themePreference;
        s.devMode := devMode;
        r := Ok(s);
      }
    }
  }

  /** Saving then loading gives back the directory, device name and theme, and keeps the caller's mode. */
  method SaveLoadRoundTrip(settings: AppSettings, store: SettingsStore) returns (loaded: AppSettings?)
    requires store.writable
    modifies store
    ensures loaded != null
    ensures loaded.wavDirectory == settings.wavDirectory
    ensures loaded.virtualDeviceName == settings.virtualDeviceName
    ensures loaded.themePreference == settings.themePreference
    ensures loaded.devMode == settings.devMode
  {
    var saved := settings.Save(store);
    var r := settings.Load(store);
    loaded := r.value;
  }
}
