# IrateGoose core, modelled in Dafny

IrateGoose is a desktop tool that installs a PipeWire virtual 7.1 surround sink. The sink convolves audio with a head-related impulse response (HRIR) stored as a WAV file. The user picks a WAV file from a library directory, and the tool does three things:
- writes a PipeWire configuration that names the file;
- copies the file into an `hrir` staging directory;
- restarts the audio services.

This project models the non-rendering core of the tool and proves properties of the model:

- **`WavData`** (`wav_data.dfy`): the library record, `WavFileData`, which holds the absolute path, the path relative to the library directory, the sample-rate class and the checksum. It also models the 28-byte RIFF/WAVE header sniff and the little-endian sample-rate field, with byte round trips.
- **`WavIndex`** (`wav_file_index.dfy`): `WavFileIndex`, a class holding the records in order and a map from non-zero checksum to position. Its class invariant is that every key is non-zero and maps to a position holding a record with that checksum, and that this position is the last one with that key.
- **`Files`** (`file_manager.dfy`): the `FileManager` pieces:
  - the recursive directory scan over a modelled directory tree, including the case-insensitive `.wav` filter;
  - classification of every record;
  - the library order: HeSuVi files first, then by path;
  - the relative-path listing.
- **`PwCli`** (`pwcli.dfy`): the line parser for `pw-cli list-objects` output and the audio-sink filter.
- **`Config`** (`config_manager.dfy`): the `ConfigManager`:
  - the configuration path for production and development mode;
  - the `systemctl` exit-status mapping;
  - a hand-written matcher equal to the regular expression `filename\s*=\s*"([^"]+)`;
  - template rendering;
  - the installed-state classification (no configuration, a damaged file with checksum 0, or the file's hash);
  - the step-by-step write with rollback, and the delete.
- **`Settings`** (`settings.dfy`): `AppSettings`. A runtime "active" WAV directory takes precedence over the persisted one. A settings store stands in for the TOML file.
- **`Descriptions`** (`descriptions.dfy`): the HRTF description database, built from records already split into columns. It covers the enum and `u32` field parsers, the record-length error, and the rule that the first record for a key wins.
- **`Gui`** (`app_gui.dfy`): the state machine of `AppGUI`:
  - description truncation;
  - the file-list filter and its lazily rebuilt cache;
  - auto-selection of the installed file;
  - `safe_rescan`, which persists a directory only after it was scanned successfully;
  - the configuration and device-name button handlers.

The supporting modules are `Wrappers` (Option, Result, Outcome), `Strings` (trim, ASCII case, search, replace, lines, UTF-8 byte length), `Seqs` (filter) and `Paths` (join, prefix stripping, parent, file name, extension).

External effects are parameters:
- the file system is a directory-tree function `fs`, a file-content function `read` and fault flags;
- the xxh3 hash is a function parameter `hash`;
- the `systemctl` result is an `ExitStatus` value;
- the settings file is a `SettingsStore` object.

The three source files disagree with each other in places. The model fixes one reading:
- **One record type.** `src/file_manager.rs` defines `WaveFileData { path, sample_rate }`. `src/wav_file_index.rs` and `src/app_gui.rs` use `WavFileData` with a checksum and a relative path. The model uses a single `WavFileData(path, relativePath, sampleRate, checksum)`.
- **Where checksums come from.** The scan computes the checksum when it classifies a file. It uses the same rule as `config_exists`: the hash of the file when it has a valid header, otherwise 0.
- **Missing helpers.** `index_of_checksum` is the checksum lookup. `is_wav_directory_set` holds when no active directory is set, matching how `safe_rescan` uses it.
- **`set_wav_directory` takes an `Option`**, as `src/app_gui.rs` calls it. `src/settings.rs:127` takes a bare path.
- **What `rescan_configured_directory` returns.** `src/file_manager.rs` returns nothing from it, while `src/app_gui.rs` uses its result as the new library index. The model's `FileManager` method updates its records, and `Gui.AppGui.LoadLibrary` builds the index from them.

## Model

| member | source | states |
|---|---|---|
| WavData.LeU32 | src/file_manager.rs:127 | four bytes read little-endian give a value below 2^32 |
| WavData.LeBytes | src/file_manager.rs:127 | a 32-bit value encodes to exactly four bytes |
| WavData.LeU32OfLeBytes | src/file_manager.rs:127 | decoding the little-endian bytes of a 32-bit value gives the value back |
| WavData.LeBytesOfLeU32 | src/file_manager.rs:127 | encoding the decoded value of four bytes gives those bytes back |
| WavData.SampleRateField | src/file_manager.rs:126-127 | the sample-rate field of a 28-byte header is a 32-bit value |
| WavData.HasWavHeader | src/file_manager.rs:113-123 | the header check: at least 28 bytes, "RIFF" at 0..4 and "WAVE" at 8..12; WavData.DetectSampleRate states that it decides Damaged, and WavData.DetectMakeHeader that every built header passes it |
| WavData.RateClass | src/file_manager.rs:129-134 | the rate classes of the header field; WavData.DetectMakeHeader states that 44100, 48000 and 96000 map to their classes and every other value to Unknown |
| WavData.DetectSampleRate | src/file_manager.rs:105-136 | the result is Damaged exactly when the file is unreadable, shorter than 28 bytes, or lacks "RIFF" at 0..4 or "WAVE" at 8..12 |
| WavData.MakeHeader | src/file_manager.rs:113-127 | a header built from its fields is 28 bytes long |
| WavData.DetectMakeHeader | src/file_manager.rs:120-135 | a well-formed header with any trailing bytes classifies by its rate field: 44100, 48000 and 96000 to their classes, anything else to Unknown |
| WavData.DetectIgnoresTrailingBytes | src/file_manager.rs:113-127 | bytes past the first 28 never change the classification |
| WavData.Checksum | src/config_manager.rs:168-179 | the checksum is 0 for a damaged or unreadable file and the hash of its content otherwise |
| WavIndex.LastPosition | src/wav_file_index.rs:28-35 | the result is the last position holding the checksum, or None when no record has it |
| WavIndex.Lookup | src/wav_file_index.rs:75-82 | the lookup specification: nothing for checksum 0, otherwise the last record with the checksum; WavIndex.WavFileIndex.GetByChecksum returns it, and WavIndex.LookupAppendSame, WavIndex.LookupAppendOther and WavIndex.LaterDuplicateWins state how appending changes it |
| WavIndex.IndexAppend | src/wav_file_index.rs:54-60 | appending a record and indexing its non-zero checksum at the new position preserves the index invariant |
| WavIndex.IndexAgreesWithLastPosition | src/wav_file_index.rs:7-8 | under the invariant, an indexed non-zero checksum maps to its last position, and an unindexed one occurs nowhere |
| WavIndex.LookupAppendSame | src/wav_file_index.rs:50-53 | after appending a record with a non-zero checksum, looking that checksum up finds the new record |
| WavIndex.LookupAppendOther | src/wav_file_index.rs:50-53 | appending a record does not change the lookup of any other checksum |
| WavIndex.LaterDuplicateWins | src/wav_file_index.rs:28 | among records sharing a non-zero checksum, the lookup position is the latest one |
| WavIndex.WavFileIndex.constructor | src/wav_file_index.rs:17-22 | a new index is valid and empty |
| WavIndex.WavFileIndex.FromVec | src/wav_file_index.rs:29-40 | the index keeps the given records in order and satisfies the invariant, so the last duplicate wins |
| WavIndex.WavFileIndex.Clear | src/wav_file_index.rs:43-46 | the index is left valid, with no records and no keys |
| WavIndex.WavFileIndex.Add | src/wav_file_index.rs:54-60 | the record is appended, earlier records are unchanged, the map gains this record's position for a non-zero checksum only, and the invariant holds |
| WavIndex.WavFileIndex.Len | src/wav_file_index.rs:63-65 | the length is the number of records |
| WavIndex.WavFileIndex.GetByIndex | src/wav_file_index.rs:68-70 | None exactly when the index is past the end, otherwise the record at that position |
| WavIndex.WavFileIndex.GetByChecksum | src/wav_file_index.rs:75-82 | checksum 0 always gives None; otherwise the result is the last record with that checksum |
| WavIndex.WavFileIndex.IndexOfChecksum | src/app_gui.rs:243 | the row of a checksum is its last position, and checksum 0 has none |
| WavIndex.WavFileIndex.FilteredClone | src/wav_file_index.rs:93-105 | a new valid index holding exactly the records that satisfy the predicate, in their original order |
| Seqs.Filter | src/wav_file_index.rs:97-101 | the filtered sequence holds only elements satisfying the predicate, all taken from the input, and every satisfying input element is in it |
| Seqs.FilterConcat | src/wav_file_index.rs:89-92 | filtering keeps order: filtering a concatenation concatenates the filtered parts |
| Seqs.FilterMultiset | src/wav_file_index.rs:89-92 | every satisfying element keeps its multiplicity, and every other element is dropped |
| Seqs.FilterIdempotent | src/wav_file_index.rs:93-105 | filtering twice with the same predicate gives the same records as filtering once |
| Seqs.FilterAll | src/wav_file_index.rs:93-105 | a predicate every record satisfies keeps the sequence unchanged |
| Files.ScanIncompleteSticky | src/file_manager.rs:139-143 | once an I/O error stops the scan, the later entries add nothing |
| Files.ScanEntries | src/file_manager.rs:139-163 | what the scan of a directory's entries collects and whether it completes; Files.ScanIncompleteSticky, Files.ScanSnoc, Files.ScanFindsOnlyWav, Files.ScanCollectsWavFile, Files.SkipsOtherFiles and Files.RecursesIntoDirectories state its properties, and Files.FileManager.ScanEntriesInto computes it |
| Files.ScanListing | src/file_manager.rs:139-143 | the scan of a directory, which fails when the directory itself cannot be read; Files.FileManager.ScanDirectory computes it, and Gui.AppGui.LoadLibrary and Gui.AppGui.SafeRescan succeed exactly when it completes |
| Files.ScanLoopExit | src/file_manager.rs:139-163 | the scan of a directory is its scan up to the point where the loop stops |
| Files.ScanSnoc | src/file_manager.rs:139-163 | while no error has occurred, one more entry adds exactly that entry's scan |
| Files.ScanFindsOnlyWav | src/file_manager.rs:145-156 | every collected path has a file name whose extension is "wav" ignoring ASCII case |
| Files.ScanCollectsWavFile | src/file_manager.rs:154-161 | a `.wav` file reached before any error is collected |
| Files.ScanFoundGrows | src/file_manager.rs:158-161 | what a prefix of the entries collects is kept by the whole scan |
| Files.SkipsOtherFiles | src/file_manager.rs:146-156 | a file without a `.wav` extension, including one with no extension, adds nothing |
| Files.RecursesIntoDirectories | src/file_manager.rs:142-143 | a sub-directory contributes the files of its own scan, after what came before |
| Files.NewRecords | src/file_manager.rs:158-161 | one new record per collected path |
| Files.NewRecordsAt | src/file_manager.rs:158-161 | each new record carries its own path and starts with the Unknown sample rate |
| Files.NewRecordsConcat | src/file_manager.rs:158-161 | the records of consecutive pushes concatenate |
| Files.NewRecordsSnoc | src/file_manager.rs:158-161 | pushing one path appends one new record |
| Files.RelativePathOfJoin | src/file_manager.rs:93-96 | a path joined under the directory has the directory stripped back off |
| Files.RelativePath | src/file_manager.rs:93-96 | the path with the directory stripped, or the whole path outside it; Files.RelativePathOfJoin, Files.FileManager.ListRelativePathsOfJoined and Files.FileManager.ListRelativePathsOutside state both cases |
| Files.Classify | src/file_manager.rs:61-63 | a classified record keeps its path, gets its relative path and its detected sample rate, and gets checksum 0 when damaged or the hash of its content otherwise |
| Files.ClassifyAll | src/file_manager.rs:61-63 | classifying keeps one record per path |
| Files.ComparePathsFlip | src/file_manager.rs:73 | the path order is antisymmetric, and two paths compare equal exactly when they are the same |
| Files.ComparePathsTrans | src/file_manager.rs:73 | the path order is transitive |
| Files.CompareWaves | src/file_manager.rs:66-74 | the library comparator, "HeSuVi/" paths first and then by path; Files.WaveLeTotal and Files.WaveLeTrans state that it is a total preorder, and Files.SortWavesOrder that sorting by it yields the library order |
| Files.WaveLeTotal | src/file_manager.rs:66-75 | the comparator is total |
| Files.WaveLeTrans | src/file_manager.rs:66-75 | the comparator is transitive |
| Files.Insert | src/file_manager.rs:66-75 | inserting adds exactly one copy of the record |
| Files.SortWaves | src/file_manager.rs:66-75 | sorting is a permutation of the records |
| Files.InsertSorted | src/file_manager.rs:66-75 | inserting into a sorted list keeps it sorted |
| Files.SortedSnoc | src/file_manager.rs:66-75 | appending a record that no earlier one exceeds keeps the list sorted |
| Files.InsertBelow | src/file_manager.rs:66-75 | inserting keeps every record at or below a common bound |
| Files.SortWavesSorted | src/file_manager.rs:66-75 | the sorted records are in comparator order |
| Files.SortWavesOrder | src/file_manager.rs:65-75 | sorting permutes the records, puts every "HeSuVi/" path before every other path, and orders each group by path |
| Files.FileManager.constructor | src/file_manager.rs:40-44 | a new manager shares the settings and holds no records and no scanned directory |
| Files.FileManager.ScanDirectory | src/file_manager.rs:138-165 | the records gain one new record per `.wav` file the recursive scan collects, in scan order; the result reports whether the scan completed |
| Files.FileManager.ScanEntriesInto | src/file_manager.rs:139-163 | the loop over a directory's entries appends exactly the records of that directory's scan |
| Files.FileManager.ScanEntryInto | src/file_manager.rs:140-162 | one entry appends exactly the records of its own scan |
| Files.FileManager.RescanConfiguredDirectory | src/file_manager.rs:50-79 | the scanned directory becomes the configured one. With none, the records are empty and the result is success. Otherwise success means the scan completed, and the records are then the classified files in library order; a failed scan keeps the records pushed before the error |
| Files.FileManager.ListRelativePaths | src/file_manager.rs:82-99 | no paths when no directory is configured, otherwise one per record |
| Files.FileManager.ListRelativePathsOfJoined | src/file_manager.rs:93-96 | a record under the configured directory is listed with the directory stripped |
| Files.FileManager.ListRelativePathsOutside | src/file_manager.rs:96 | a record outside the configured directory is listed under its full path |
| PwCli.HeaderProps | src/config_manager.rs:302-318 | a header line sets at most the keys "id" and "type" |
| PwCli.Unquote | src/config_manager.rs:328-331 | a value of at least two characters wrapped in double quotes loses exactly those quotes; any other value is kept |
| PwCli.FoldSnoc | src/config_manager.rs:289-338 | the parser state after one more line is one step from the state before it |
| PwCli.FoldCount | src/config_manager.rs:296-345 | an object is open exactly when some header has been seen, and the finished objects number the headers |
| PwCli.ParseCount | src/config_manager.rs:296-345 | the parser returns one object per trimmed line that starts with "id " and contains "type " |
| PwCli.ParseWithoutHeaders | src/config_manager.rs:296-320 | output in which no trimmed line is a header parses to no objects |
| PwCli.NoHeadersCount | src/config_manager.rs:296 | lines with no header count no objects |
| PwCli.FoldAppend | src/config_manager.rs:289-338 | parsing two runs of lines one after the other is parsing the second from the state the first left |
| PwCli.LeadingLinesIgnored | src/config_manager.rs:320 | lines before the first header, property lines included, change nothing: the result is that of the lines after them |
| PwCli.IsHeader | src/config_manager.rs:296 | the header test: starts with "id " and contains "type "; PwCli.HeaderLineStarts, PwCli.HeaderLineMentionsType and PwCli.HeaderFields show "id X, type Y" passes it, and PwCli.ParseCount counts objects by it |
| PwCli.Step | src/config_manager.rs:289-338 | what one line does to the parser; PwCli.FoldSnoc, PwCli.FoldCount, PwCli.FoldAppend and PwCli.LeadingLinesIgnored state its effect over many lines, and PwCli.ParsePwCliOutput runs it in a loop |
| PwCli.Parse | src/config_manager.rs:285-346 | the parser specification; PwCli.ParseCount gives one object per header, PwCli.ParseWithoutHeaders none without headers, and PwCli.ParsePwCliOutput returns it |
| PwCli.HeaderFields | src/config_manager.rs:306-318 | the line "id X, type Y" is a header and sets id to X and type to Y |
| PwCli.HeaderLineShape | src/config_manager.rs:296-306 | "id X, type Y" starts with "id ", contains "type ", and splits at its first comma |
| PwCli.HeaderLineSplit | src/config_manager.rs:306 | "id X, type Y" splits at its first comma into the id part and the type part |
| PwCli.HeaderLineStarts | src/config_manager.rs:296 | "id X, type Y" starts with "id " |
| PwCli.HeaderLineMentionsType | src/config_manager.rs:296 | "id X, type Y" contains "type " |
| PwCli.HeaderPartsTrimmed | src/config_manager.rs:308-316 | the trimmed id and type parts lose exactly their "id " and "type " prefixes |
| PwCli.PrefixedTrimmed | src/config_manager.rs:308-316 | a trimmed value behind a non-blank prefix stays trimmed, and stripping the prefix recovers it |
| PwCli.HeaderPropsSplit | src/config_manager.rs:306-318 | a header's id and type are its comma-separated parts, trimmed, with the prefixes stripped and trimmed again |
| PwCli.PropertyQuoted | src/config_manager.rs:324-332 | `key = "value"` sets the key to the unquoted value |
| PwCli.PropertyBare | src/config_manager.rs:324-332 | `key = value` without quotes sets the key to the value as written |
| PwCli.PropertyOf | src/config_manager.rs:324-332 | `key = value` sets the key to the value with surrounding quotes removed |
| PwCli.PropertyLineSplit | src/config_manager.rs:324-332 | a property line splits at its first '=' into a trimmed key and a trimmed, unquoted value |
| PwCli.PropertyNeedsEquals | src/config_manager.rs:333-336 | a line without '=' sets no property |
| PwCli.ParsePwCliOutput | src/config_manager.rs:285-346 | the parsing loop returns what the line-by-line parser specification returns, one object per header line |
| PwCli.FilterAudioSinks | src/config_manager.rs:354-368 | exactly the devices whose media.class is "Audio/Sink" and whose node.name is not the tool's own virtual sink are kept |
| PwCli.IsAudioSink | src/config_manager.rs:358-365 | an object of class "Audio/Sink" that is not the virtual device's input; PwCli.FilterAudioSinks keeps exactly these, and PwCli.FilterSkipsVirtualDevice shows the virtual device fails it |
| PwCli.FilterAudioSinksOrder | src/config_manager.rs:359-367 | the filter preserves order: filtering a concatenation concatenates the filtered parts |
| PwCli.FilterAudioSinksExample | src/config_manager.rs:427-442 | of a sink, a stream and a device without a class, only the sink is kept |
| PwCli.FilterSkipsVirtualDevice | src/config_manager.rs:358-365 | the tool's own virtual sink is dropped even though it is an audio sink |
| Config.RelativeSuffixes | src/config_manager.rs:37-44 | the production suffix and "hrir" are relative, so joining keeps them under the parent; the development path is absolute |
| Config.ConfigPathFor | src/config_manager.rs:36-44 | development mode uses `/tmp/surround.conf`; otherwise the path is the PipeWire drop-in file under the configuration directory |
| Config.StagingDirOf | src/config_manager.rs:86-90 | the staging directory exists exactly when the configuration path has a parent, and is that parent's "hrir" |
| Config.DevStagingDir | src/config_manager.rs:38-44 | in development mode the staging directory is `/tmp/hrir` |
| Config.DevParent | src/config_manager.rs:38 | the development configuration lives in `/tmp` |
| Config.ApplyConfig | src/config_manager.rs:222-248 | success exactly in development mode, on exit status 0 or on exit status 5; a spawn failure and a signal each give their own error, any other exit status an error naming its code in decimal |
| Config.SignedDecimal | src/config_manager.rs:244 | an exit code's text is non-empty and starts with a minus sign exactly when the code is negative |
| Config.SignedDecimalReadsBack | src/config_manager.rs:244 | the digits after the optional minus sign read back as the exit code's magnitude |
| Config.SkipWhitespace | src/config_manager.rs:208 | `\s*` skips exactly the maximal run of whitespace |
| Config.QuoteFreeEnd | src/config_manager.rs:208 | `[^"]*` stops at the first double quote or the end |
| Config.MatchAt | src/config_manager.rs:208 | a match at a position starts with "filename" and captures a non-empty, quote-free text |
| Config.FirstMatchFrom | src/config_manager.rs:210-211 | the result is the leftmost match position, and when there is none, no position matches |
| Config.ExtractFilename | src/config_manager.rs:203-218 | success gives a non-empty, quote-free file name; failure gives "No filename found in config" |
| Config.ExtractFilenameLeftmost | src/config_manager.rs:210-215 | extraction succeeds exactly when some position matches, and it captures the leftmost match |
| Config.NoMatchBefore | src/config_manager.rs:210 | no match can start at a position where the word `filename` does not occur |
| Config.MatchOfLine | src/config_manager.rs:208 | the line `filename = "<path>"` matches and captures the path |
| Config.ExtractNamedFile | src/config_manager.rs:203-218 | a configuration with no `filename` before its `filename = "<path>"` line, for a non-empty quote-free path, yields that path |
| Config.ReplaceSkips | src/config_manager.rs:103-109 | text that cannot start the placeholder passes through a replacement unchanged |
| Config.ReplaceFront | src/config_manager.rs:103-109 | a placeholder at the front is replaced, and replacing continues after it |
| Config.ReplaceSplit | src/config_manager.rs:103-109 | when the second part starts with a character the placeholder lacks, the two parts are replaced independently |
| Config.NoOccurrenceBeforeLine | src/config_manager.rs:210 | in text free of `filename`, no occurrence of the word can start before a following line that begins with `f`: the word's only `f` is its first letter |
| Config.KeepsFilenameLine | src/config_manager.rs:105-109 | the device-name and node-name replacements keep a `filename` line whose path lacks their placeholder and replace the text on either side on its own |
| Config.RenderSplits | src/config_manager.rs:103-109 | rendering a template with a `filename = "{IRFILETEMPLATE}"` line renders the text before and after the line on its own and writes the path into the line |
| Config.RenderIrFile | src/config_manager.rs:103-104 | the first replacement puts the staged file path into the `filename` line and replaces the text before and after the line on its own, for any template |
| Config.RenderNamesFile | src/config_manager.rs:103-109 | a configuration rendered from any template with a `filename = "{IRFILETEMPLATE}"` line names the staged file, provided the rendered text before that line contains no `filename` and the path is non-empty, has no quote and contains neither later placeholder |
| Config.Render | src/config_manager.rs:103-109 | the three placeholder replacements in order; Config.RenderIrFile and Config.RenderNamesFile state that the result names the staged file |
| Config.ConfigExistsIn | src/config_manager.rs:155-182 | Ok(None) exactly when there is no configuration; Err exactly when it is unreadable or names no file; otherwise Ok(Some(c)), with c = 0 for an unreadable or damaged file and c = the hash of its content otherwise |
| Config.ConfigChecksumMatchesLibrary | src/config_manager.rs:168-181 | the checksum a configuration reports equals the checksum the library scan gives the named file |
| Config.ReadStaged | src/config_manager.rs:186-199 | a file just copied into the staging directory reads back as its content, whatever else is staged |
| Config.FailedStep | src/config_manager.rs:84-134 | the steps after the copy are reached exactly when the path has a parent, the staging directory is created, the source has a file name and the copy reads content; no step fails exactly when, beyond that, the configuration directory is created, the write succeeds and the restart succeeds |
| Config.ConfigManager.constructor | src/config_manager.rs:36-44 | the manager's configuration path is the one for its directory and mode |
| Config.ConfigManager.WriteConfig | src/config_manager.rs:84-134 | success exactly when no step fails. A missing parent changes nothing. The staging directory is then emptied, unless its removal faults. A failure up to the copy leaves the old configuration and the staging directory as the removal left it. From then on the copied file is staged, read through what the removal left. A failure to create the configuration directory keeps the old configuration. A failed write or restart removes the configuration. Success leaves the rendered configuration naming the staged copy |
| Config.ConfigManager.CopyWavToStaging | src/config_manager.rs:186-199 | success exactly when the source has a file name and the copy reads content; then the target is the staging directory joined with that name and the file is staged under it; a failure stages nothing |
| Config.ConfigManager.InstallConfig | src/config_manager.rs:110-133 | success exactly when creating the directory, the write and the restart all succeed; a failure to create the directory keeps the configuration, a later failure removes it, and success leaves the given text |
| Config.ConfigManager.DeleteConfig | src/config_manager.rs:137-149 | the configuration is removed unless the removal faults, and success also needs the restart to succeed; the staging directory is untouched |
| Config.NewConfigManager | src/config_manager.rs:29-46 | fails exactly when the configuration directory is unknown; otherwise the manager's path follows the mode |
| Config.WrittenConfigSelectsSource | src/config_manager.rs:84-134 | after a successful write from any template with a `filename = "{IRFILETEMPLATE}"` line (under Config.RenderNamesFile's conditions on the path and on the rendered text before the line), the configuration read back reports the checksum of the staged copy; when the copy read the source from the disk, that is the checksum the library gives the source file |
| Settings.SettingsStore.constructor | src/settings.rs:79-92 | the store starts with the given document and writability |
| Settings.AppSettings.Default | src/settings.rs:36-46 | no directories, the device name "Virtual Surround Sink", the System theme, development mode off |
| Settings.AppSettings.GetWavDirectory | src/settings.rs:120-124 | the active directory when set, else the persisted one |
| Settings.AppSettings.IsWavDirectorySet | src/app_gui.rs:674 | holds exactly when no active directory overrides the persisted one |
| Settings.AppSettings.SetWavDirectory | src/settings.rs:127-130 | the persisted directory becomes the argument, the active one is cleared, so the argument is what the getter returns; nothing else changes |
| Settings.AppSettings.SetTempWavDirectory | src/settings.rs:132-134 | only the active directory changes, and it is what the getter returns |
| Settings.AppSettings.ToPersisted | src/settings.rs:17-33 | the persisted form holds the directory, the device name and the theme, but not the active directory or the mode |
| Settings.AppSettings.Save | src/settings.rs:114-117 | succeeds exactly when the store is writable, and then stores the persisted form; otherwise the store is unchanged |
| Settings.AppSettings.Load | src/settings.rs:106-111 | fails exactly when there is nothing stored; otherwise it returns the stored values with the caller's mode and no active directory |
| Settings.SaveLoadRoundTrip | src/settings.rs:141-182 | saving to a writable store and loading back preserves the directory, the device name, the theme and the mode |
| Descriptions.ConfigurationFromStr | src/descriptions.rs:19-26 | the trimmed text must be exactly "Headphones" or "Speakers"; anything else is None |
| Descriptions.ConfigurationPadded | src/descriptions.rs:182-184 | surrounding whitespace does not change how a configuration name parses |
| Descriptions.ConfigurationCaseSensitive | src/descriptions.rs:178-180 | the lower-case spelling and the empty string give None |
| Descriptions.ParseU32 | src/descriptions.rs:99 | parsing succeeds exactly for an optional '+' followed by one or more digits whose value fits in 32 bits, and gives that value |
| Descriptions.ToDecimal | src/descriptions.rs:99 | the decimal spelling of a number is a non-empty string of digits |
| Descriptions.DecimalValueOfToDecimal | src/descriptions.rs:99 | the decimal spelling of a number reads back as the number |
| Descriptions.ParsePrinted | src/descriptions.rs:99-100 | every 32-bit value parses back from its decimal spelling, with or without '+' |
| Descriptions.ParseOverflow | src/descriptions.rs:101-106 | a value above the 32-bit range fails to parse |
| Descriptions.ParsePoints | src/descriptions.rs:95-109 | an empty trimmed field is None; otherwise the result is the parse of the trimmed field |
| Descriptions.ParseRecord | src/descriptions.rs:111-118 | columns 1, 3, 4 and 5 are copied verbatim, and the configuration and points are parsed |
| Descriptions.ConfigurationPreTrim | src/descriptions.rs:85-86 | trimming before parsing the configuration changes nothing |
| Descriptions.AddRecord | src/descriptions.rs:65-121 | a record without 7 columns is an error carrying its length; otherwise the keys gain the record's key, existing entries are kept, and a new key maps to the parsed record |
| Descriptions.WellFormedInit | src/descriptions.rs:69 | records are well formed exactly when their prefix is and the last has 7 columns |
| Descriptions.Ingest | src/descriptions.rs:63-123 | the load specification, record by record; Descriptions.IngestFails, Descriptions.IngestFirstError, Descriptions.IngestKeys, Descriptions.IngestFirstValue and Descriptions.FirstDuplicateWins state its errors, keys and entries, and Descriptions.New computes it |
| Descriptions.IngestFails | src/descriptions.rs:65-74 | the load fails exactly when some record does not have 7 columns |
| Descriptions.IngestFirstError | src/descriptions.rs:69-73 | a failed load reports the length of the first bad record |
| Descriptions.IngestStep | src/descriptions.rs:65-121 | a successful load adds the last record to the load of the records before it |
| Descriptions.IngestKeys | src/descriptions.rs:63-123 | on well-formed records the load succeeds, and its keys are exactly the records' keys |
| Descriptions.IngestKeySet | src/descriptions.rs:76-120 | on well-formed records the loaded keys are the set of record keys |
| Descriptions.KeySetMembers | src/descriptions.rs:76 | a key is in the key set exactly when some record carries it |
| Descriptions.IngestFirstValue | src/descriptions.rs:78-82 | each key holds the entry parsed from the first record carrying it |
| Descriptions.IngestFirstValueEarlier | src/descriptions.rs:78-82 | a later record cannot displace the entry of an earlier key |
| Descriptions.FirstDuplicateWins | src/descriptions.rs:78-82 | a duplicate record leaves its key's entry as the first record made it |
| Descriptions.New | src/descriptions.rs:63-123 | the loading loop returns exactly what the record-by-record specification gives: the entries on success, the first error otherwise |
| Descriptions.IngestErrSticky | src/descriptions.rs:69-73 | once a prefix fails to load, the whole load fails with the same error |
| Descriptions.GetRc | src/descriptions.rs:127-129 | Some exactly when the key was loaded, and then its entry |
| Descriptions.GetRcAfterLoad | src/descriptions.rs:120-129 | after a successful load, a key is found exactly when some record carries it, and it holds the first record carrying it |
| Gui.ByteLenSingle | src/app_gui.rs:217 | a single character's byte length is its UTF-8 width |
| Gui.EllipsisByteLen | src/app_gui.rs:222 | "..." is three bytes |
| Gui.ByteLenPrefixGrows | src/app_gui.rs:217-221 | a longer prefix has at least one more byte per extra character |
| Gui.ConsPrefixByteLen | src/app_gui.rs:217-221 | the bytes of a prefix are its first character's width plus the bytes of the rest |
| Gui.FittingPrefix | src/app_gui.rs:220 | the longest character prefix within the byte limit: it fits, and one more character would not |
| Gui.FittingPrefixAtBoundary | src/app_gui.rs:220 | when a character boundary lies exactly at the limit, the fitting prefix ends there |
| Gui.TruncateAsWrittenPanics | src/app_gui.rs:215-223 | a 241-byte description whose byte 237 falls inside a character makes the byte slice as written panic |
| Gui.TruncateAsWritten | src/app_gui.rs:215-222 | the truncation as written, None where its byte slice panics; Gui.TruncateAsWrittenPanics exhibits a panic, and Gui.TruncateAgreesWhenNoPanic shows it agrees with Gui.TruncateDescription everywhere else |
| Gui.TruncateDescription | src/app_gui.rs:215-223 | a description of at most 240 bytes is unchanged; a longer one becomes a prefix of itself followed by "...", in at most 240 bytes |
| Gui.TruncateAgreesWhenNoPanic | src/app_gui.rs:215-223 | wherever the code as written does not panic, the corrected truncation gives the same text |
| Gui.ShowsAllByDefault | src/app_gui.rs:255-268 | the "All" filter with an empty search shows every file, damaged ones included |
| Gui.ShowsWave | src/app_gui.rs:255-268 | the row filter; Gui.ShowsAllByDefault, Gui.RateFilterMatches, Gui.SearchIgnoresCase and Gui.SearchFindsSubstring state what it shows, and Gui.AppGui.GetFilteredItems filters the library by it |
| Gui.RateFilterMatches | src/app_gui.rs:255-259 | a concrete rate filter shows only files of that rate, never a damaged one |
| Gui.LowerAsciiIdempotent | src/app_gui.rs:263-264 | lower-casing twice equals lower-casing once |
| Gui.SearchIgnoresCase | src/app_gui.rs:260-266 | lower-casing the search text does not change what is shown |
| Gui.SearchFindsSubstring | src/app_gui.rs:260-266 | searching for any piece of a file's relative path shows that file, under a rate filter it passes |
| Gui.AutoSelected | src/app_gui.rs:225-238 | the selection is the installed checksum when it is non-zero and some library file has it; otherwise nothing is selected, and when the checksum was non-zero no file has it |
| Gui.InstalledChecksum | src/app_gui.rs:130-139 | a checksum exactly when the configuration check succeeded and found one; errors read as no configuration |
| Gui.ConfiguredFileIsSelected | src/app_gui.rs:228-230 | a library file whose non-zero checksum the configuration reports is selected |
| Gui.ApplyNeedsText | src/app_gui.rs:524-525 | a field of only whitespace never enables Apply |
| Gui.ApplyEnabled | src/app_gui.rs:524-525 | the Apply button's condition; Gui.ApplyNeedsText, Gui.ApplyDisabledAfterApply and Gui.ApplyDisabledAfterDefault state when it is off |
| Gui.DefaultEnabled | src/app_gui.rs:533-534 | the Default button's condition; Gui.DefaultDisabledAfterDefault and Gui.AppGui.OnDefaultDeviceNameClick state that it is off after Default |
| Gui.ApplyDisabledAfterApply | src/app_gui.rs:524-525 | once a field's trimmed text has been applied, Apply stays disabled for it |
| Gui.ApplyDisabledAfterDefault | src/app_gui.rs:524-525 | once the default name is in both the field and the settings, Apply is disabled |
| Gui.DefaultDisabledAfterDefault | src/app_gui.rs:533-534 | once the default name is in both the field and the settings, Default is disabled |
| Gui.DefaultNameTrimmed | src/settings.rs:9 | the default device name has no surrounding whitespace |
| Gui.AppGui.constructor | src/app_gui.rs:75-121 | the fields `AppGUI::new` sets before its rescan: the filter at 48000 with an empty search and no cached list, an empty library, nothing selected, no scroll target, no dialog, the installed checksum from the configuration check, the name field holding the configured name and the directory field the configured directory (empty without one) |
| Gui.NewAppGui | src/app_gui.rs:75-126 | `AppGUI::new` as a whole: the constructor's fields, then the start-up rescan. Afterwards the settings directories, the device name, the theme, the development mode and the store's writability are unchanged, there is no scroll target, and with a writable settings file no dialog is open (a failed rescan is only logged). From an empty library and no selection: no directory gives an empty library; a completed scan gives what it found with the installed file selected; a failed one leaves the library empty and nothing selected. A writable settings file is rewritten only for a persisted directory, and keeps the directory only when the scan completed |
| Gui.AppGui.StartupRescan | src/app_gui.rs:122-124 | whatever the outcome, the state stays valid with no cached list; the settings directories, device name, theme and development mode, the store's writability and the scroll target are unchanged; with a writable store the dialog is untouched; and the library, the selection and the settings file are as `safe_rescan` leaves them: empty without a directory, the scan's result with the installed file selected when it completes, unchanged when it fails |
| Gui.AppGui.ShowModal | src/app_gui.rs:196-200 | the dialog is open with the given header and message |
| Gui.AppGui.FindWavByChecksum | src/app_gui.rs:203-205 | the result is the library's lookup specification: nothing for 0, otherwise the last record with the checksum |
| Gui.AppGui.WriteSettings | src/app_gui.rs:728-733 | a writable store receives the persisted settings and the dialog is untouched; otherwise the store is unchanged and the "Settings Error" dialog is open with "Failed to save settings: " and the save error |
| Gui.AppGui.ApplyAutoSelection | src/app_gui.rs:225-248 | the selection follows the installed checksum; when it changed to a file the cached list holds, the table scrolls to that file's row, and otherwise the scroll request is kept |
| Gui.AppGui.ScrollToSelected | src/app_gui.rs:272-276 | the table scrolls to the row of the selected file when the list holds it, and otherwise keeps its scroll request |
| Gui.AppGui.GetFilteredItems | src/app_gui.rs:251-278 | the result is always the library under the current filter and search; a cached list is returned as it is, and otherwise a new list is built, cached, and its selected row scrolled to |
| Gui.AppGui.SetSampleRateFilter | src/app_gui.rs:395-418 | a changed rate filter drops the cached list, and an unchanged one keeps it |
| Gui.AppGui.SetSearchText | src/app_gui.rs:420-433 | a changed search text drops the cached list, and an unchanged one keeps it |
| Gui.AppGui.LoadLibrary | src/app_gui.rs:675-685 | success exactly when the scan completes, and then the library is the classified files in library order; a failed scan leaves the library as it was |
| Gui.AppGui.PersistWithoutDirectory | src/app_gui.rs:677-682 | the settings file is told there is no directory while memory keeps it; with a writable store the dialog is untouched |
| Gui.AppGui.Reselect | src/app_gui.rs:691-698 | after a rescan, the selection is what auto-selection gives for the new library |
| Gui.AppGui.RescanConfigured | src/app_gui.rs:673-698 | a persisted directory is saved as absent before the scan and saved again only after the scan succeeds; success replaces the library and re-selects; failure keeps the library and the selection; the scroll target is kept, and with a writable store the dialog is untouched |
| Gui.AppGui.CommitRescan | src/app_gui.rs:686-698 | after a successful scan, a persisted directory is saved again and the selection becomes what auto-selection gives for the new library; the scroll target is kept; the dialog is untouched unless a persisted directory meets an unwritable store, which opens "Settings Error" |
| Gui.AppGui.SafeRescan | src/app_gui.rs:663-701 | with no directory the library is emptied and the result is success; otherwise success means the scan completed, the library is its result and the selection follows the installed file; a failed scan leaves "no directory" in the settings file and the library and selection unchanged; a temporary directory is never persisted; the scroll target is kept on every path, and with a writable store the dialog is untouched |
| Gui.AppGui.RescanDirectory | src/app_gui.rs:636-656 | the directory becomes the configured one and is rescanned; the device name, theme, development mode and scroll target are kept. On success the library is what the scan found, the selection follows the installed file, a writable settings file holds the directory with the kept name and theme, and with a writable store no dialog opens. On failure the "Rescan Error" dialog is open and a writable settings file holds no directory |
| Gui.AppGui.RescanPath | src/app_gui.rs:619-656 | an empty path changes nothing; a missing path or a file opens its dialog with its message and leaves the settings, the settings file, the library, the selection, the cached list and the scroll target unchanged; a directory is rescanned as the persisted directory, with the outcome of Gui.AppGui.RescanDirectory; in every case the device name, theme, development mode and scroll target are kept |
| Gui.AppGui.OnRescanClick | src/app_gui.rs:613-658 | the trimmed field is checked and rescanned, with the outcome of Gui.AppGui.RescanPath: empty changes nothing; missing or not a directory opens the matching dialog and leaves settings, library, selection, cached list and scroll target untouched; a directory is rescanned: the library, the selection and the settings file gain it on success with no dialog for a writable store, and the error dialog opens on failure; the scroll target is always kept |
| Gui.AppGui.OnWriteConfigClick | src/app_gui.rs:141-179 | with no selected library file nothing changes; otherwise the configuration file and the staging directory end as Config.ConfigManager.WriteConfig leaves them for the selected file (the rendered configuration naming the staged copy on success), a failed write keeps the installed checksum, and a successful one sets it to what the configuration check reads back |
| Gui.AppGui.OnDeleteConfigClick | src/app_gui.rs:181-191 | only a successful delete clears the installed checksum; the configuration is gone unless its removal faulted, and a faulted removal keeps it; the staging directory is untouched |
| Gui.AppGui.OnApplyDeviceNameClick | src/app_gui.rs:704-718 | the device name becomes the text, the other settings are kept, and the settings are saved: a writable store receives them with the dialog untouched, an unwritable one is unchanged and "Settings Error" opens; afterwards Apply is disabled for the same field |
| Gui.AppGui.OnDefaultDeviceNameClick | src/app_gui.rs:721-725 | the field and the setting both hold the default name, the other settings are kept, and a writable settings file receives the settings with the dialog untouched, while an unwritable one is unchanged and the "Settings Error" dialog opens; afterwards both Apply and Default are disabled |

## Left out

- File-system, process and network access are parameters. The directory tree, the file contents, the fault flags of the directory, write and delete steps, the `systemctl` exit status and the path probe of the rescan button are all inputs. The copy into the staging directory (`fs::copy`) has no fault flag of its own: it fails exactly when its source cannot be read.
- The xxh3 hash is a function parameter, so nothing depends on its values.
- `pw-cli` execution (`list_audio_devices`) is left out; only the parser of its output is modelled.
- The rayon parallel classification is modelled as a sequential loop over the records. Each record is classified on its own, so the result is the same.
- The sort comparator uses character order on path strings. `Path::cmp` compares path components, and the two orders differ only for paths that separate differently.
- The search lower-cases ASCII letters only. The source uses Unicode `to_lowercase`.
- TOML serialisation of the settings is left out. The settings store holds the persisted fields directly.
- The settings file location (`default_settings_path`) is folded into the store.
- CSV parsing and zstd decompression of the description database are left out. The model starts from records already split into columns.
- The configuration migration rename in `ConfigManager::new` (src/config_manager.rs:47-75) is left out. It is a one-time file move.
- The template file's contents are not part of this model. Only the three placeholder replacements are modelled.
- In `write_config`, the removal of a partially written configuration after a failed write or restart is assumed to succeed. The source ignores its error.
- In `write_config`, a failed removal of the staging directory (`remove_dir_all`, whose error the source ignores) is modelled as removing nothing. A removal that stops part-way is not modelled.
- Copying a file onto itself (a source already in the staging directory under the same name) is modelled as a successful copy of what the removal left.
- Path components are not normalised: repeated separators and `.` components count as written, so two spellings of one path are different paths.
- `FileManager::new`'s initial rescan is left out. The constructor gives the fields it starts from, and `RescanConfiguredDirectory` models the rescan.
- The metadata field of a library record and `selected_metadata` are left out. The descriptions database is modelled on its own.
- Rendering, tables, tabs, the theme, the icon, the log view and the file dialog are UI only. Row clicks only set the selection.
- Config.ConfigManager.ConfigExists: carries no ensures of its own. It reads the manager's state through `Config.ConfigExistsIn`, which holds the classification contract.
- Three behaviours a reader might expect differ in the source; the model follows the source:
  - After a failed `safe_rescan` of a persisted directory, the settings file holds no directory, not the previous one.
  - A `write_config` that fails after wiping the staging directory but before writing leaves the old configuration, which may now name a file that is gone.
  - `safe_rescan` with no directory keeps the current selection.

## Findings

| source | as written | input that shows it | evidently intended | confidence | as-written member | corrected member |
|---|---|---|---|---|---|---|
| src/app_gui.rs:215-223 | slices the description at byte 237 | 236 × 'a', then 'é', then "aaa" (241 bytes; byte 237 is inside 'é'), which panics | cut at the last character boundary at or before byte 237, giving at most 240 bytes | not executed | Gui.TruncateAsWrittenPanics | Gui.TruncateDescription |
