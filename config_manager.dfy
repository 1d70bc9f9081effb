/**
 * `ConfigManager`: the PipeWire configuration file that defines the virtual surround sink,
 * the `hrir` staging directory beside it that holds the copied impulse-response WAV, and the
 * service restart that makes PipeWire pick either up.
 */
module Config {
  import opened Wrappers
  import opened Strings
  import opened Paths
  import opened WavData
  import PwCli
  import Settings
  import Files
  import Descriptions

  // ---------------------------------------------------------------------------------------
  // Where the configuration lives
  // ---------------------------------------------------------------------------------------

  /** The file name the production configuration has under the user's configuration directory. */
  const ProductionConfigSuffix: string := "pipewire/" + "pipewire.conf.d/" + "sink-virtual-surround-7.1-irategoose.conf"

  /** In development mode the configuration goes to a scratch file instead. */
  const DevConfigPath: string := "/tmp/surround.conf"

  /**
   * The configuration path `ConfigManager::new` computes: the suffix for the mode joined onto
   * the configuration directory. The development path is absolute, so it replaces the base.
   */
  lemma RelativeSuffixes()
    ensures !IsAbsolute(ProductionConfigSuffix) && !IsAbsolute("hrir") && IsAbsolute(DevConfigPath)
  {
    assert ProductionConfigSuffix[..1][0] == 'p';
    assert "hrir"[..1][0] == 'h';
    assert DevConfigPath[..1] == "/";
  }

  function ConfigPathFor(configDir: string, devMode: bool): (p: string)
    ensures devMode ==> p == DevConfigPath
    ensures !devMode ==> StripPrefix(p, configDir) == Some(ProductionConfigSuffix)
  {
    RelativeSuffixes();
    if devMode then Join(configDir, DevConfigPath)
    else
      StripJoin(configDir, ProductionConfigSuffix);
      Join(configDir, ProductionConfigSuffix)
  }

  /** The `hrir` directory next to the configuration file, if the path has a parent. */
  function StagingDirOf(configPath: string): (d: Option<string>)
    ensures d.Some? <==> Parent(configPath).Some?
    ensures d.Some? ==> StripPrefix(d.value, Parent(configPath).value) == Some("hrir")
  {
    match Parent(configPath)
    case None => None
    case Some(p) => RelativeSuffixes(); StripJoin(p, "hrir"); Some(Join(p, "hrir"))
  }

  /** In development mode the staging directory is `/tmp/hrir`. */
  lemma DevStagingDir(configDir: string)
    ensures StagingDirOf(ConfigPathFor(configDir, true)) == Some("/tmp/hrir")
  {
    DevParent();
    assert StagingDirOf(ConfigPathFor(configDir, true)) == Some(Join("/tmp", "hrir"));
    assert Join("/tmp", "hrir") == "/tmp/hrir" by {
      RelativeSuffixes();
      assert "/tmp"[3] == 'p';
      assert "/tmp" + "/" + "hrir" == "/tmp/hrir";
    }
  }

  lemma DevParent()
    ensures Parent(DevConfigPath) == Some("/tmp")
  {
    var dir, name := "/tmp/", "surround.conf";
    assert dir + name == DevConfigPath;
    assert '/' !in name;
    LastIndexAfterSeparator(dir, name, '/');
    assert DevConfigPath[..4] == "/tmp";
  }

  // ---------------------------------------------------------------------------------------
  // Restarting the services
  // ---------------------------------------------------------------------------------------

  /** How the `systemctl --user restart` command ended. */
  datatype ExitStatus = SpawnFailed | Exited(code: int) | Signaled

  /** An exit code as `{}` formats it: its decimal digits, after a minus sign when negative. */
  function SignedDecimal(n: int): (s: string)
    ensures s != [] && (n < 0 <==> s[0] == '-')
  {
    if n < 0 then "-" + Descriptions.ToDecimal(-n) else Descriptions.ToDecimal(n)
  }

  /** The digits of an exit code's text, after its sign, read back as the code's magnitude. */
  lemma SignedDecimalReadsBack(n: int)
    ensures n >= 0 ==> Descriptions.AllDigits(SignedDecimal(n)) && Descriptions.DecimalValue(SignedDecimal(n)) == n
    ensures n < 0 ==> Descriptions.AllDigits(SignedDecimal(n)[1..]) && Descriptions.DecimalValue(SignedDecimal(n)[1..]) == -n
  {
    if n < 0 {
      assert SignedDecimal(n)[1..] == Descriptions.ToDecimal(-n);
      Descriptions.DecimalValueOfToDecimal(-n);
    } else {
      Descriptions.DecimalValueOfToDecimal(n);
    }
  }

  /**
   * `apply_config`: nothing to do in development mode; otherwise the restart counts as done
   * when it exits with 0, or with 5 (a unit that is not loaded).
   */
  function ApplyConfig(devMode: bool, status: ExitStatus): (r: Outcome<string>)
    ensures r.Pass? <==> devMode || status == Exited(0) || status == Exited(5)
    ensures !devMode && status.SpawnFailed? ==> r == Fail("Failed to execute systemctl command")
    ensures !devMode && status.Signaled? ==> r == Fail("systemctl terminated by signal")
    ensures !devMode && status.Exited? && !r.Pass? ==>
      r == Fail("systemctl failed with exit code " + SignedDecimal(status.code))
  {
    if devMode then Pass
    else match status
      case SpawnFailed => Fail("Failed to execute systemctl command")
      case Exited(code) =>
        if code == 0 || code == 5 then Pass else Fail("systemctl failed with exit code " + SignedDecimal(code))
      case Signaled => Fail("systemctl terminated by signal")
  }

  // ---------------------------------------------------------------------------------------
  // Finding the WAV file a configuration names: the regular expression
  // filename\s*=\s*"([^"]+)  written out as a matcher
  // ---------------------------------------------------------------------------------------

  /** `\s*`: the first position at or after `i` that does not hold whitespace. */
  function SkipWhitespace(s: string, i: nat): (j: nat)
    requires i <= |s|
    ensures i <= j <= |s|
    ensures forall k :: i <= k < j ==> IsWhitespace(s[k])
    ensures j < |s| ==> !IsWhitespace(s[j])
    decreases |s| - i
  {
    if i < |s| && IsWhitespace(s[i]) then SkipWhitespace(s, i + 1) else i
  }

  /** `[^"]*`: the first position at or after `i` that holds a double quote, or the end. */
  function QuoteFreeEnd(s: string, i: nat): (j: nat)
    requires i <= |s|
    ensures i <= j <= |s|
    ensures forall k :: i <= k < j ==> s[k] != '"'
    ensures j < |s| ==> s[j] == '"'
    decreases |s| - i
  {
    if i < |s| && s[i] != '"' then QuoteFreeEnd(s, i + 1) else i
  }

  /**
   * The capture group of a match that starts at position `i`, if one does. Both `\s*` and
   * `[^"]+` are greedy and the characters after them cannot be whitespace or text, so each
   * has exactly one way to match.
   */
  function MatchAt(s: string, i: nat): (r: Option<string>)
    requires i <= |s|
    ensures r.Some? ==> OccursAt(s, "filename", i)
    ensures r.Some? ==> r.value != [] && '"' !in r.value
  {
    if !OccursAt(s, "filename", i) then None
    else
      var j := SkipWhitespace(s, i + 8);
      if j == |s| || s[j] != '=' then None
      else
        var k := SkipWhitespace(s, j + 1);
        if k == |s| || s[k] != '"' then None
        else
          var e := QuoteFreeEnd(s, k + 1);
          if e == k + 1 then None
          else
            var capture := s[k + 1..e];
            assert forall m :: 0 <= m < |capture| ==> capture[m] != '"';
            Some(capture)
  }

  /** The leftmost position at or after `i` where a match starts. */
  function FirstMatchFrom(s: string, i: nat): (r: Option<nat>)
    requires i <= |s|
    ensures r.Some? ==> i <= r.value <= |s| && MatchAt(s, r.value).Some?
    ensures r.Some? ==> forall q :: i <= q < r.value ==> MatchAt(s, q).None?
    ensures r.None? ==> forall q :: i <= q <= |s| ==> MatchAt(s, q).None?
    decreases |s| - i
  {
    if MatchAt(s, i).Some? then Some(i)
    else if i == |s| then None
    else FirstMatchFrom(s, i + 1)
  }

  /** `extract_filename_from_config`: the capture of the leftmost match. */
  function ExtractFilename(content: string): (r: Result<string, string>)
    ensures r.Ok? ==> r.value != [] && '"' !in r.value
    ensures r.Err? ==> r.error == "No filename found in config"
  {
    match FirstMatchFrom(content, 0)
    case None => Err("No filename found in config")
    case Some(p) => Ok(MatchAt(content, p).value)
  }

  /**
   * The extraction succeeds exactly when a match starts somewhere, and then yields the
   * capture of the leftmost one.
   */
  lemma ExtractFilenameLeftmost(content: string)
    ensures ExtractFilename(content).Ok? <==> exists p :: 0 <= p <= |content| && MatchAt(content, p).Some?
    ensures ExtractFilename(content).Ok? ==>
      exists p :: 0 <= p <= |content| && MatchAt(content, p) == Some(ExtractFilename(content).value)
        && forall q :: 0 <= q < p ==> MatchAt(content, q).None?
  {
    match FirstMatchFrom(content, 0)
    case None =>
    case Some(p) =>
      assert MatchAt(content, p) == Some(ExtractFilename(content).value);
  }

  /** Positions where the word `filename` does not start cannot start a match either. */
  lemma {:induction false} NoMatchBefore(s: string, i: nat, p: nat)
    requires i <= p <= |s|
    requires forall q :: i <= q < p ==> !OccursAt(s, "filename", q)
    ensures FirstMatchFrom(s, i) == FirstMatchFrom(s, p)
    decreases p - i
  {
    if i < p {
      NoMatchBefore(s, i + 1, p);
    }
  }

  /** A match of the line `filename = "<path>"` captures the path. */
  lemma {:induction false} MatchOfLine(s: string, i: nat, path: string)
    requires path != [] && '"' !in path
    requires i + 12 + |path| < |s|
    requires s[i..i + 12] == "filename = \"" && s[i + 12..i + 12 + |path|] == path
    requires s[i + 12 + |path|] == '"'
    ensures MatchAt(s, i) == Some(path)
  {
    assert OccursAt(s, "filename", i) by { assert s[i..i + 8] == s[i..i + 12][..8]; }
    assert s[i + 8] == ' ' && s[i + 9] == '=' && s[i + 10] == ' ' && s[i + 11] == '"' by {
      assert s[i + 8] == s[i..i + 12][8];
      assert s[i + 9] == s[i..i + 12][9];
      assert s[i + 10] == s[i..i + 12][10];
      assert s[i + 11] == s[i..i + 12][11];
    }
    assert SkipWhitespace(s, i + 9) == i + 9;
    assert SkipWhitespace(s, i + 8) == i + 9;
    assert SkipWhitespace(s, i + 11) == i + 11;
    assert SkipWhitespace(s, i + 10) == i + 11;
    var e := QuoteFreeEnd(s, i + 12);
    assert forall k :: i + 12 <= k < i + 12 + |path| ==> s[k] == path[k - i - 12];
    assert e == i + 12 + |path|;
  }

  /** A slice that ends inside the first part of a concatenation is a slice of that part. */
  lemma SliceOfPrefix(a: string, b: string, lo: nat, hi: nat)
    requires lo <= hi <= |a|
    ensures (a + b)[lo..hi] == a[lo..hi]
  {
  }

  /** The `f` of `filename` is only its first character. */
  lemma OnlyLeadingF(k: nat)
    requires 1 <= k < 8
    ensures "filename"[k] != 'f'
  {
  }

  /**
   * An occurrence of `filename` that starts before a line beginning with `f`, in text free
   * of it, would have to run into the line; the word's only `f` is its first character, so
   * it cannot.
   */
  lemma NoOccurrenceBeforeLine(pre: string, rest: string, q: nat)
    requires !Contains(pre, "filename") && rest != [] && rest[0] == 'f' && q < |pre|
    ensures !OccursAt(pre + rest, "filename", q)
  {
    var s := pre + rest;
    var i := |pre|;
    if q + 8 <= i {
      SliceOfPrefix(pre, rest, q, q + 8);
      if OccursAt(pre, "filename", q) {
        ContainsAt(pre, "filename", q);
      }
    } else if q + 8 <= |s| {
      var w := s[q..q + 8];
      assert w[i - q] == s[i] == rest[0];
      OnlyLeadingF(i - q);
    }
  }

  /**
   * Round trip: text that writes `filename = "<path>"`, with no earlier `filename` and a
   * non-empty path without quotes, gives back the path.
   */
  lemma ExtractNamedFile(pre: string, path: string, post: string)
    requires !Contains(pre, "filename")
    requires path != [] && '"' !in path
    ensures ExtractFilename(pre + "filename = \"" + path + "\"" + post) == Ok(path)
  {
    var rest := "filename = \"" + path + "\"" + post;
    var s := pre + rest;
    assert s == pre + "filename = \"" + path + "\"" + post;
    var i := |pre|;
    assert s[i..i + 12] == "filename = \"";
    assert s[i + 12..i + 12 + |path|] == path;
    assert s[i + 12 + |path|] == '"';
    assert rest[0] == 'f';
    forall q | 0 <= q < i
      ensures !OccursAt(s, "filename", q)
    {
      NoOccurrenceBeforeLine(pre, rest, q);
    }
    NoMatchBefore(s, 0, i);
    MatchOfLine(s, i, path);
  }

  // ---------------------------------------------------------------------------------------
  // Rendering the template
  // ---------------------------------------------------------------------------------------

  const IrFilePlaceholder: string := "{IRFILETEMPLATE}"
  const DeviceNamePlaceholder: string := "{DEVICENAMETEMPLATE}"
  const NodeNamePlaceholder: string := "{VIRTUALNODENAME}"

  /** The configuration text: the three placeholders of the template replaced in turn. */
  function Render(template: string, irFile: string, deviceName: string): string {
    Replace(Replace(Replace(template, IrFilePlaceholder, irFile), DeviceNamePlaceholder, deviceName),
      NodeNamePlaceholder, PwCli.VirtualNodeSuffix)
  }

  /** Text that cannot start the pattern passes through a replacement unchanged. */
  lemma {:induction false} ReplaceSkips(a: string, b: string, from: string, to: string)
    requires from != [] && from[0] !in a
    ensures Replace(a + b, from, to) == a + Replace(b, from, to)
    decreases |a|
  {
    if a == [] {
      assert a + b == b;
    } else {
      var s := a + b;
      assert s[0] == a[0] && s[1..] == a[1..] + b;
      assert !StartsWith(s, from) by {
        if |from| <= |s| { assert s[..|from|][0] == s[0]; }
      }
      assert Replace(s, from, to) == [s[0]] + Replace(s[1..], from, to);
      ReplaceSkips(a[1..], b, from, to);
      var rest := Replace(b, from, to);
      assert [a[0]] + (a[1..] + rest) == ([a[0]] + a[1..]) + rest;
      assert [a[0]] + a[1..] == a;
    }
  }

  /**
   * When the second part starts with a character the pattern does not contain, no
   * occurrence straddles the seam, so the two parts are replaced independently.
   */
  lemma {:induction false} ReplaceSplit(a: string, b: string, from: string, to: string)
    requires from != [] && b != [] && b[0] !in from
    ensures Replace(a + b, from, to) == Replace(a, from, to) + Replace(b, from, to)
    decreases |a|
  {
    var s := a + b;
    if a == [] {
      assert s == b;
    } else if StartsWith(s, from) {
      assert s[|a|] == b[0];
      assert |from| <= |a|;
      assert a[..|from|] == s[..|from|];
      assert s[|from|..] == a[|from|..] + b;
      ReplaceSplit(a[|from|..], b, from, to);
    } else {
      assert |from| <= |a| ==> a[..|from|] == s[..|from|];
      assert s[0] == a[0] && s[1..] == a[1..] + b;
      ReplaceSplit(a[1..], b, from, to);
    }
  }

  /** An occurrence at the front is replaced, and the scan goes on after it. */
  lemma ReplaceFront(from: string, b: string, to: string)
    requires from != []
    ensures Replace(from + b, from, to) == to + Replace(b, from, to)
  {
    assert (from + b)[..|from|] == from;
    assert (from + b)[|from|..] == b;
  }

  /** Concatenation regrouped, kept apart so that the strings stay abstract. */
  lemma Regroup(a: string, b: string, c: string, d: string, e: string)
    ensures a + (b + (c + (d + e))) == a + b + c + d + e
  {
  }

  /**
   * The first replacement puts the file into the `filename` line; the text before and
   * after the line is replaced on its own.
   */
  lemma RenderIrFile(pre: string, post: string, irFile: string)
    ensures Replace(pre + "filename = \"" + IrFilePlaceholder + "\"" + post, IrFilePlaceholder, irFile)
      == Replace(pre, IrFilePlaceholder, irFile) + "filename = \"" + irFile + "\"" + Replace(post, IrFilePlaceholder, irFile)
  {
    var key := "filename = \"";
    var tail := key + (IrFilePlaceholder + ("\"" + post));
    assert pre + "filename = \"" + IrFilePlaceholder + "\"" + post == pre + tail;
    assert tail[0] == 'f' && 'f' !in IrFilePlaceholder;
    var rPost := Replace(post, IrFilePlaceholder, irFile);
    ReplaceSkips("\"", post, IrFilePlaceholder, irFile);
    ReplaceFront(IrFilePlaceholder, "\"" + post, irFile);
    assert Replace(IrFilePlaceholder + ("\"" + post), IrFilePlaceholder, irFile) == irFile + ("\"" + rPost);
    ReplaceSkips(key, IrFilePlaceholder + ("\"" + post), IrFilePlaceholder, irFile);
    ReplaceSplit(pre, tail, IrFilePlaceholder, irFile);
    Regroup(Replace(pre, IrFilePlaceholder, irFile), key, irFile, "\"", rPost);
  }

  /** The two later placeholders start with `{` and contain neither `f` nor a quote. */
  lemma LaterPlaceholderShape(from: string)
    requires from == DeviceNamePlaceholder || from == NodeNamePlaceholder
    ensures from != [] && from[0] == '{' && 'f' !in from && '"' !in from
  {
  }

  /** A later replacement keeps the line itself and replaces only what follows it. */
  lemma KeepsLineTail(path: string, post: string, from: string, to: string)
    requires from != [] && from[0] == '{' && '"' !in from
    requires !Contains(path, from)
    ensures Replace("filename = \"" + (path + ("\"" + post)), from, to)
      == "filename = \"" + (path + ("\"" + Replace(post, from, to)))
  {
    ReplaceSkips("\"", post, from, to);
    ReplaceAbsent(path, from, to);
    ReplaceSplit(path, "\"" + post, from, to);
    ReplaceSkips("filename = \"", path + ("\"" + post), from, to);
  }

  /**
   * A later replacement leaves a `filename` line whose path does not contain its
   * placeholder alone, and replaces the text on either side on its own.
   */
  lemma KeepsFilenameLine(pre: string, path: string, post: string, from: string, to: string)
    requires from == DeviceNamePlaceholder || from == NodeNamePlaceholder
    requires !Contains(path, from)
    ensures Replace(pre + "filename = \"" + path + "\"" + post, from, to)
      == Replace(pre, from, to) + "filename = \"" + path + "\"" + Replace(post, from, to)
  {
    var key := "filename = \"";
    var tail := key + (path + ("\"" + post));
    assert pre + "filename = \"" + path + "\"" + post == pre + tail;
    LaterPlaceholderShape(from);
    KeepsLineTail(path, post, from, to);
    ReplaceSplit(pre, tail, from, to);
    Regroup(Replace(pre, from, to), key, path, "\"", Replace(post, from, to));
  }

  /**
   * Rendering a template with a `filename = "{IRFILETEMPLATE}"` line renders the text on
   * either side of the line on its own and writes the file into the line, provided the
   * file's path does not itself contain a later placeholder.
   */
  lemma RenderSplits(pre: string, post: string, irFile: string, deviceName: string)
    requires !Contains(irFile, DeviceNamePlaceholder) && !Contains(irFile, NodeNamePlaceholder)
    ensures Render(pre + "filename = \"" + IrFilePlaceholder + "\"" + post, irFile, deviceName)
      == Render(pre, irFile, deviceName) + "filename = \"" + irFile + "\"" + Render(post, irFile, deviceName)
  {
    var pre1 := Replace(pre, IrFilePlaceholder, irFile);
    var post1 := Replace(post, IrFilePlaceholder, irFile);
    RenderIrFile(pre, post, irFile);
    KeepsFilenameLine(pre1, irFile, post1, DeviceNamePlaceholder, deviceName);
    var pre2 := Replace(pre1, DeviceNamePlaceholder, deviceName);
    var post2 := Replace(post1, DeviceNamePlaceholder, deviceName);
    KeepsFilenameLine(pre2, irFile, post2, NodeNamePlaceholder, PwCli.VirtualNodeSuffix);
  }

  /**
   * A configuration rendered from a template with a `filename = "{IRFILETEMPLATE}"` line
   * names the file it was given, provided the rendered text before that line contains no
   * `filename` and the path is non-empty, free of quotes and free of the later placeholders.
   */
  lemma RenderNamesFile(pre: string, post: string, irFile: string, deviceName: string)
    requires irFile != [] && '"' !in irFile
    requires !Contains(irFile, DeviceNamePlaceholder) && !Contains(irFile, NodeNamePlaceholder)
    requires !Contains(Render(pre, irFile, deviceName), "filename")
    ensures ExtractFilename(Render(pre + "filename = \"" + IrFilePlaceholder + "\"" + post, irFile, deviceName)) == Ok(irFile)
  {
    RenderSplits(pre, post, irFile, deviceName);
    ExtractNamedFile(Render(pre, irFile, deviceName), irFile, Render(post, irFile, deviceName));
  }

  // ---------------------------------------------------------------------------------------
  // Whether a configuration exists, and for which file
  // ---------------------------------------------------------------------------------------

  /** The configuration file on disk. */
  datatype FileState = Absent | Unreadable | Readable(text: string)

  /**
   * `config_exists`: no configuration, an error when it cannot be read or names no file, or
   * the checksum of the file it names (0 when that file is unreadable or has no WAV header).
   */
  function ConfigExistsIn(config: FileState, read: string -> Option<Bytes>, hash: Bytes -> u64): (r: Result<Option<u64>, string>)
    ensures r == Ok(None) <==> config.Absent?
    ensures r.Err? <==> config.Unreadable? || (config.Readable? && ExtractFilename(config.text).Err?)
    ensures r.Ok? && r.value.Some? ==> var named := read(ExtractFilename(config.text).value);
      (DetectSampleRate(named) == Damaged ==> r.value.value == 0)
      && (DetectSampleRate(named) != Damaged ==> r.value.value == hash(named.value))
  {
    match config
    case Absent => Ok(None)
    case Unreadable => Err("Failed to read config file")
    case Readable(text) =>
      match ExtractFilename(text)
      case Err(e) => Err("Failed to parse config: " + e)
      case Ok(path) => Ok(Some(Checksum(read(path), hash)))
  }

  /**
   * The checksum a configuration reports is the one the library records for the file it
   * names, which is what lets the interface select that file.
   */
  lemma ConfigChecksumMatchesLibrary(text: string, dir: string, read: string -> Option<Bytes>, hash: Bytes -> u64)
    requires ExtractFilename(text).Ok?
    ensures ConfigExistsIn(Readable(text), read, hash)
      == Ok(Some(Files.Classify(ExtractFilename(text).value, dir, read, hash).checksum))
  {
  }

  /** Reading a file: paths inside the staging directory see the staged copies, the rest the disk. */
  function ReadThrough(stagingDir: Option<string>, staged: map<string, Bytes>, read: string -> Option<Bytes>): string -> Option<Bytes> {
    p =>
      if stagingDir.Some? && StripPrefix(p, stagingDir.value).Some? then
        var name := StripPrefix(p, stagingDir.value).value;
        if name in staged then Some(staged[name]) else None
      else read(p)
  }

  /** A file just staged under a name reads back as its content. */
  lemma ReadStaged(dir: string, staged: map<string, Bytes>, name: string, data: Bytes, read: string -> Option<Bytes>)
    requires IsComponent(name)
    ensures ReadThrough(Some(dir), staged[name := data], read)(Join(dir, name)) == Some(data)
  {
    assert !IsAbsolute(name) by { assert name[0] != '/'; }
    StripJoin(dir, name);
  }

  // ---------------------------------------------------------------------------------------
  // The manager
  // ---------------------------------------------------------------------------------------

  /**
   * Which file-system steps of a write or a delete fail. A failed removal of the staging
   * directory (`wipeFails`) leaves it as it was.
   */
  datatype Faults = Faults(wipeFails: bool, createStagingFails: bool, createConfigDirFails: bool, writeFails: bool,
                           removeFails: bool)

  /** The step at which `write_config` gives up. */
  datatype WriteStep = NoParent | CreateStaging | NoFileName | Copy | CreateConfigDir | WriteFile | Restart

  /** The staging directory's files once `write_config` has tried to remove it. */
  function Wiped(staged: map<string, Bytes>, faults: Faults): map<string, Bytes> {
    if faults.wipeFails then staged else map[]
  }

  /**
   * What copying `source` reads: the copy runs after the staging directory was removed, so a
   * source inside it sees what the removal left.
   */
  function CopiedContent(configPath: string, staged: map<string, Bytes>, source: string, read: string -> Option<Bytes>,
                         faults: Faults): Option<Bytes> {
    ReadThrough(StagingDirOf(configPath), Wiped(staged, faults), read)(source)
  }

  /** A failure at or after the step that creates the configuration directory: the copy is staged. */
  predicate PastCopy(s: Option<WriteStep>) {
    s.None? || s == Some(CreateConfigDir) || s == Some(WriteFile) || s == Some(Restart)
  }

  /** The first step of `write_config` that fails, if any, when the copy reads `content`. */
  function FailedStep(configPath: string, source: string, content: Option<Bytes>, faults: Faults, restart: Outcome<string>): (s: Option<WriteStep>)
    ensures PastCopy(s) <==> Parent(configPath).Some? && !faults.createStagingFails && FileName(source).Some? && content.Some?
    ensures s.None? <==> PastCopy(s) && !faults.createConfigDirFails && !faults.writeFails && restart.Pass?
  {
    if Parent(configPath).None? then Some(NoParent)
    else if faults.createStagingFails then Some(CreateStaging)
    else if FileName(source).None? then Some(NoFileName)
    else if content.None? then Some(Copy)
    else if faults.createConfigDirFails then Some(CreateConfigDir)
    else if faults.writeFails then Some(WriteFile)
    else if restart.Fail? then Some(Restart)
    else None
  }

  class ConfigManager {
    /** The absolute path of the configuration file. */
    const configPath: string
    const settings: Settings.AppSettings
    /** The configuration file. */
    var configFile: FileState
    /** The staging directory's files, by name (empty when the directory is absent). */
    var staged: map<string, Bytes>

    /** The fields of `ConfigManager::new`, over the disk state it finds. */
    constructor (configDir: string, settings: Settings.AppSettings, configFile: FileState, staged: map<string, Bytes>)
      ensures configPath == ConfigPathFor(configDir, settings.devMode) && this.settings == settings
      ensures this.configFile == configFile && this.staged == staged
    {
      configPath := ConfigPathFor(configDir, settings.devMode);
      this.settings := settings;
      this.configFile := configFile;
      this.staged := staged;
    }

    function StagingDir(): Option<string> {
      StagingDirOf(configPath)
    }

    /** `config_exists`, reading the named file through the staging directory. */
    function ConfigExists(read: string -> Option<Bytes>, hash: Bytes -> u64): (r: Result<Option<u64>, string>)
      reads this
    {
      ConfigExistsIn(configFile, ReadThrough(StagingDir(), staged, read), hash)
    }

    /** `copy_wav_to_hrir`: copies `source` into the staging directory under its own file name. */
    method CopyWavToStaging(source: string, stagingDir: string, read: string -> Option<Bytes>)
      returns (r: Result<string, string>)
      modifies this`staged
      ensures var content := ReadThrough(Some(stagingDir), old(staged), read)(source);
        && (r.Ok? <==> FileName(source).Some? && content.Some?)
        && (r.Ok? ==> r.value == Join(stagingDir, FileName(source).value)
                      && staged == old(staged)[FileName(source).value := content.value])
        && (r.Err? ==> staged == old(staged))
    {
      var name := FileName(source);
      if name.None? {
        return Err("Source path has no filename");
      }
      var target := Join(stagingDir, name.value);
      var content := ReadThrough(Some(stagingDir), staged, read)(source);
      if content.None? {
        return Err("Failed to copy WAV file");
      }
      staged := staged[name.value := content.value];
      r := Ok(target);
    }

    /**
     * `write_config`: wipes and recreates the staging directory, copies the WAV file into it,
     * writes the rendered template, and restarts the services. A failed write or restart
     * removes the configuration; an earlier failure leaves it as it was.
     */
    method WriteConfig(source: string, template: string, read: string -> Option<Bytes>, faults: Faults, status: ExitStatus)
      returns (r: Outcome<string>)
      modifies this`configFile, this`staged
      ensures var content := CopiedContent(configPath, old(staged), source, read, faults);
        var failed := FailedStep(configPath, source, content, faults, ApplyConfig(settings.devMode, status));
        && (r.Pass? <==> failed.None?)
        && (failed == Some(NoParent) ==> configFile == old(configFile) && staged == old(staged))
        && (failed == Some(CreateStaging) || failed == Some(NoFileName) || failed == Some(Copy) ==>
              configFile == old(configFile) && staged == Wiped(old(staged), faults))
        && (PastCopy(failed) ==> staged == Wiped(old(staged), faults)[FileName(source).value := content.value])
        && (failed == Some(CreateConfigDir) ==> configFile == old(configFile))
        && (failed == Some(WriteFile) || failed == Some(Restart) ==> configFile == Absent)
      ensures r.Fail? && old(configFile) != configFile ==> configFile == Absent
      ensures r.Pass? ==>
        var target := Join(StagingDir().value, FileName(source).value);
        configFile == Readable(Render(template, target, settings.virtualDeviceName))
    {
      var parent := Parent(configPath);
      if parent.None? {
        return Fail("Config path has no parent directory");
      }
      var stagingDir := Join(parent.value, "hrir");
      // remove_dir_all, whose errors are ignored
      if !faults.wipeFails {
        staged := map[];
      }
      if faults.createStagingFails {
        return Fail("Failed to create hrir directory");
      }
      var copied := CopyWavToStaging(source, stagingDir, read);
      if copied.Err? {
        return Fail(copied.error);
      }
      var target := copied.value;
      var text := Render(template, target, settings.virtualDeviceName);
      r := InstallConfig(text, faults, status);
    }

    /**
     * The end of `write_config`: creates the configuration's directory, writes `text` and
     * restarts the services, removing the configuration when the write or the restart fails.
     */
    method InstallConfig(text: string, faults: Faults, status: ExitStatus) returns (r: Outcome<string>)
      modifies this`configFile
      ensures r.Pass? <==> !faults.createConfigDirFails && !faults.writeFails && ApplyConfig(settings.devMode, status).Pass?
      ensures faults.createConfigDirFails ==> configFile == old(configFile)
      ensures !faults.createConfigDirFails && r.Fail? ==> configFile == Absent
      ensures r.Pass? ==> configFile == Readable(text)
    {
      if faults.createConfigDirFails {
        return Fail("Failed to create directory");
      }
      if faults.writeFails {
        configFile := Absent;
        return Fail("Failed to write config");
      }
      configFile := Readable(text);
      var applied := ApplyConfig(settings.devMode, status);
      if applied.Fail? {
        configFile := Absent;
        return applied;
      }
      r := Pass;
    }

    /** `delete_config`: removes the configuration if there is one, then restarts the services. */
    method DeleteConfig(faults: Faults, status: ExitStatus) returns (r: Outcome<string>)
      modifies this
      ensures staged == old(staged)
      ensures var removeFailed := old(configFile) != Absent && faults.removeFails;
        && (r.Pass? <==> !removeFailed && ApplyConfig(settings.devMode, status).Pass?)
        && (removeFailed ==> configFile == old(configFile))
        && (!removeFailed ==> configFile == Absent)
    {
      if configFile != Absent {
        if faults.removeFails {
          return Fail("Failed to delete config file");
        }
        configFile := Absent;
      }
      r := ApplyConfig(settings.devMode, status);
    }
  }

  /** `ConfigManager::new`: fails when the user's configuration directory is unknown. */
  method NewConfigManager(configDir: Option<string>, settings: Settings.AppSettings, configFile: FileState, staged: map<string, Bytes>)
    returns (r: Result<ConfigManager, string>)
    ensures r.Err? <==> configDir.None?
    ensures r.Ok? ==> fresh(r.value) && r.value.configPath == ConfigPathFor(configDir.value, settings.devMode)
    ensures r.Ok? ==> r.value.settings == settings && r.value.configFile == configFile && r.value.staged == staged
  {
    if configDir.None? {
      r := Err("Could not determine home directory");
    } else {
      var m := new ConfigManager(configDir.value, settings, configFile, staged);
      r := Ok(m);
    }
  }

  /**
   * After a successful write from a template with a `filename = "{IRFILETEMPLATE}"` line,
   * under the conditions of `RenderNamesFile`, the configuration reports the checksum of the
   * copied content, which is the one the library records for the source file when the copy
   * read it from the disk.
   */
  lemma WrittenConfigSelectsSource(configPath: string, source: string, staged: map<string, Bytes>, data: Bytes,
                                   pre: string, post: string, deviceName: string,
                                   dir: string, read: string -> Option<Bytes>, hash: Bytes -> u64)
    requires StagingDirOf(configPath).Some? && FileName(source).Some?
    requires var target := Join(StagingDirOf(configPath).value, FileName(source).value);
      && '"' !in target && IsComponent(FileName(source).value)
      && !Contains(target, DeviceNamePlaceholder) && !Contains(target, NodeNamePlaceholder)
      && !Contains(Render(pre, target, deviceName), "filename")
    ensures var name := FileName(source).value; var stagingDir := StagingDirOf(configPath);
      var text := Render(pre + "filename = \"" + IrFilePlaceholder + "\"" + post, Join(stagingDir.value, name), deviceName);
      && ConfigExistsIn(Readable(text), ReadThrough(stagingDir, staged[name := data], read), hash)
           == Ok(Some(Checksum(Some(data), hash)))
      && (read(source) == Some(data) ==>
            ConfigExistsIn(Readable(text), ReadThrough(stagingDir, staged[name := data], read), hash)
              == Ok(Some(Files.Classify(source, dir, read, hash).checksum)))
  {
    var name := FileName(source).value;
    var stagingDir := StagingDirOf(configPath).value;
    var target := Join(stagingDir, name);
    assert target != [] by {
      assert !IsAbsolute(name) by { assert name[0] != '/'; }
      assert |target| >= |name|;
    }
    RenderNamesFile(pre, post, target, deviceName);
    ReadStaged(stagingDir, staged, name, data, read);
  }
}
