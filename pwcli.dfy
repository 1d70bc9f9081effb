/**
 * The text side of the PipeWire device listing: parsing `pw-cli list-objects` output into
 * one property map per object, and picking out the audio sinks other than our own.
 */
module PwCli {
  import opened Wrappers
  import opened Strings
  import Seqs

  /** The properties of one PipeWire object, `id` and `type` included. */
  type Props = map<string, string>

  /** Appended to `effect_input.` and `effect_output.` to name the virtual device's nodes. */
  const VirtualNodeSuffix: string := "virtual-surround-7.1-irategoose"

  const AudioDeviceClass: string := "Audio/Sink"

  /** A trimmed line opens a new object when it starts with `id ` and mentions `type `. */
  predicate IsHeader(line: string) {
    StartsWith(line, "id ") && Contains(line, "type ")
  }

  /**
   * The `id` and `type` of a header line: the text before the first comma, less its `id `
   * prefix, and the text after it, less its `type ` prefix, each trimmed. A part that does
   * not carry its prefix contributes nothing.
   */
  function HeaderProps(line: string): (p: Props)
    ensures p.Keys <= {"id", "type"}
  {
    var (idPart, rest) := SplitOnce(line, ',');
    var withId := match StripLeading(Trim(idPart), "id ")
      case Some(id) => map["id" := Trim(id)]
      case None => map[];
    match rest
    case None => withId
    case Some(typePart) =>
      match StripLeading(Trim(typePart), "type ")
      case Some(t) => withId["type" := Trim(t)]
      case None => withId
  }

  /** Drops one pair of surrounding double quotes. */
  function Unquote(v: string): (r: string)
    ensures |v| >= 2 && v[0] == '"' && v[|v| - 1] == '"' ==> v == "\"" + r + "\""
    ensures !(|v| >= 2 && v[0] == '"' && v[|v| - 1] == '"') ==> r == v
  {
    if |v| >= 2 && v[0] == '"' && v[|v| - 1] == '"' then v[1..|v| - 1] else v
  }

  /** A `key = value` line, split at its first `=`, with both sides trimmed and the value unquoted. */
  function PropertyLine(line: string): Option<(string, string)> {
    var (key, rest) := SplitOnce(line, '=');
    match rest
    case None => None
    case Some(value) => Some((Trim(key), Unquote(Trim(value))))
  }

  /** The finished objects and the one still collecting properties. */
  datatype ParserState = ParserState(objects: seq<Props>, current: Option<Props>)

  /** What one output line does to the parser. */
  function Step(st: ParserState, raw: string): ParserState {
    var line := Trim(raw);
    if line == [] then st
    else if IsHeader(line) then
      var done := match st.current case Some(obj) => st.objects + [obj] case None => st.objects;
      ParserState(done, Some(HeaderProps(line)))
    else match st.current
      case None => st
      case Some(obj) =>
        match PropertyLine(line)
        case None => st
        case Some(kv) => ParserState(st.objects, Some(obj[kv.0 := kv.1]))
  }

  function Fold(lines: seq<string>): ParserState {
    if lines == [] then ParserState([], None) else Step(Fold(lines[..|lines| - 1]), lines[|lines| - 1])
  }

  lemma FoldSnoc(lines: seq<string>, i: nat)
    requires i < |lines|
    ensures Fold(lines[..i + 1]) == Step(Fold(lines[..i]), lines[i])
  {
    assert lines[..i + 1][..i] == lines[..i];
  }

  function Finish(st: ParserState): seq<Props> {
    match st.current case Some(obj) => st.objects + [obj] case None => st.objects
  }

  /** `parse_pwcli_output`, as a function of the whole output. */
  function Parse(output: string): seq<Props> {
    Finish(Fold(Lines(output)))
  }

  /** The number of lines that open an object. */
  function CountHeaders(lines: seq<string>): nat {
    if lines == [] then 0
    else CountHeaders(lines[..|lines| - 1]) + (if IsHeader(Trim(lines[|lines| - 1])) then 1 else 0)
  }

  lemma {:induction false} FoldCount(lines: seq<string>)
    ensures Fold(lines).current.None? <==> CountHeaders(lines) == 0
    ensures |Finish(Fold(lines))| == CountHeaders(lines)
  {
    if lines != [] {
      FoldCount(lines[..|lines| - 1]);
    }
  }

  /**
   * One object per header line: blank lines, lines before the first header and property
   * lines never start or drop an object.
   */
  lemma ParseCount(output: string)
    ensures |Parse(output)| == CountHeaders(Lines(output))
  {
    FoldCount(Lines(output));
  }

  /** Output without any header line parses to no objects at all. */
  lemma ParseWithoutHeaders(output: string)
    requires forall i :: 0 <= i < |Lines(output)| ==> !IsHeader(Trim(Lines(output)[i]))
    ensures Parse(output) == []
  {
    var lines := Lines(output);
    NoHeadersCount(lines);
    ParseCount(output);
  }

  lemma {:induction false} NoHeadersCount(lines: seq<string>)
    requires forall i :: 0 <= i < |lines| ==> !IsHeader(Trim(lines[i]))
    ensures CountHeaders(lines) == 0
  {
    if lines != [] {
      NoHeadersCount(lines[..|lines| - 1]);
    }
  }

  /** The parser run over `lines` from the state `st`. */
  function FoldFrom(st: ParserState, lines: seq<string>): ParserState {
    if lines == [] then st else Step(FoldFrom(st, lines[..|lines| - 1]), lines[|lines| - 1])
  }

  lemma {:induction false} FoldFromStart(lines: seq<string>)
    ensures FoldFrom(ParserState([], None), lines) == Fold(lines)
  {
    if lines != [] {
      FoldFromStart(lines[..|lines| - 1]);
    }
  }

  /** Parsing `a + b` is parsing `b` from where `a` left the parser. */
  lemma {:induction false} FoldAppend(a: seq<string>, b: seq<string>)
    ensures Fold(a + b) == FoldFrom(Fold(a), b)
  {
    if b == [] {
      assert a + b == a;
    } else {
      var init, last := b[..|b| - 1], b[|b| - 1];
      FoldAppend(a, init);
      AppendInit(a, b);
      FoldLast(a + b, a + init, last);
    }
  }

  /** The last line of `a + b` is the last of `b`, and the lines before it are `a` and the rest of `b`. */
  lemma AppendInit(a: seq<string>, b: seq<string>)
    requires b != []
    ensures (a + b)[..|a + b| - 1] == a + b[..|b| - 1] && (a + b)[|a + b| - 1] == b[|b| - 1]
  {
  }

  /** The parser's state after `lines` is one step past its state after all but the last line. */
  lemma FoldLast(lines: seq<string>, init: seq<string>, last: string)
    requires lines != [] && lines[..|lines| - 1] == init && lines[|lines| - 1] == last
    ensures Fold(lines) == Step(Fold(init), last)
  {
  }

  /** Lines before the first header, property lines included, contribute nothing to the result. */
  lemma LeadingLinesIgnored(pre: seq<string>, rest: seq<string>)
    requires forall i :: 0 <= i < |pre| ==> !IsHeader(Trim(pre[i]))
    ensures Finish(Fold(pre + rest)) == Finish(Fold(rest))
  {
    NoHeadersCount(pre);
    FoldCount(pre);
    assert Fold(pre) == ParserState([], None);
    FoldAppend(pre, rest);
    FoldFromStart(rest);
  }

  /** A header `id X, type Y` with trimmed, non-empty X and Y yields exactly those two fields. */
  lemma {:induction false} HeaderFields(x: string, y: string)
    requires x != [] && IsTrimmed(x) && ',' !in x
    requires y != [] && IsTrimmed(y)
    ensures IsHeader("id " + x + ", type " + y)
    ensures HeaderProps("id " + x + ", type " + y) == map["id" := x, "type" := y]
  {
    HeaderLineShape(x, y);
    HeaderPartsTrimmed(x, y);
    HeaderPropsSplit("id " + x + ", type " + y, "id " + x, " type " + y, x, y);
  }

  lemma HeaderLineShape(x: string, y: string)
    requires ',' !in x
    ensures SplitOnce("id " + x + ", type " + y, ',') == ("id " + x, Some(" type " + y))
    ensures StartsWith("id " + x + ", type " + y, "id ")
    ensures Contains("id " + x + ", type " + y, "type ")
  {
    HeaderLineSplit(x, y);
    HeaderLineStarts(x, y);
    HeaderLineMentionsType(x, y);
  }

  lemma {:induction false} HeaderLineSplit(x: string, y: string)
    requires ',' !in x
    ensures SplitOnce("id " + x + ", type " + y, ',') == ("id " + x, Some(" type " + y))
  {
    var idPart := "id " + x;
    var typePart := " type " + y;
    assert "id " + x + ", type " + y == idPart + [','] + typePart;
    assert ',' !in idPart by { assert idPart[3..] == x; }
    SplitOnceAt(idPart, typePart, ',');
  }

  lemma {:induction false} HeaderLineStarts(x: string, y: string)
    ensures StartsWith("id " + x + ", type " + y, "id ")
  {
    StartsWithConcat("id ", x + ", type " + y);
    assert "id " + x + ", type " + y == "id " + (x + ", type " + y);
  }

  lemma {:induction false} HeaderLineMentionsType(x: string, y: string)
    ensures Contains("id " + x + ", type " + y, "type ")
  {
    var line := "id " + x + ", type " + y;
    assert line == ("id " + x + ", ") + "type " + y;
    OccursAtJoin("id " + x + ", ", "type ", y);
    ContainsAt(line, "type ", |"id " + x + ", "|);
  }

  lemma {:induction false} HeaderPartsTrimmed(x: string, y: string)
    requires x != [] && IsTrimmed(x)
    requires y != [] && IsTrimmed(y)
    ensures StripLeading(Trim("id " + x), "id ") == Some(x) && Trim(x) == x
    ensures StripLeading(Trim(" type " + y), "type ") == Some(y) && Trim(y) == y
  {
    PrefixedTrimmed("id ", x);
    assert StripLeading(Trim(" type " + y), "type ") == Some(y) && Trim(y) == y by {
      PrefixedTrimmed("type ", y);
      assert " type " + y == " " + ("type " + y);
      TrimSpaceBefore("type " + y);
    }
  }

  /** A non-blank prefix in front of a trimmed text is trimmed as a whole, and strips back off. */
  lemma {:induction false} PrefixedTrimmed(prefix: string, x: string)
    requires prefix != [] && !IsWhitespace(prefix[0])
    requires x != [] && IsTrimmed(x)
    ensures IsTrimmed(prefix + x) && prefix + x != []
    ensures Trim(prefix + x) == prefix + x && Trim(x) == x
    ensures StripLeading(prefix + x, prefix) == Some(x)
  {
    IsTrimmedConcat(prefix, x);
    TrimOfTrimmed(prefix + x);
    StripLeadingConcat(prefix, x);
    TrimOfTrimmed(x);
  }

  /** How a header line comes apart once its first comma and both prefixes are known. */
  lemma HeaderPropsSplit(line: string, idPart: string, typePart: string, id: string, t: string)
    requires SplitOnce(line, ',') == (idPart, Some(typePart))
    requires StripLeading(Trim(idPart), "id ") == Some(id)
    requires StripLeading(Trim(typePart), "type ") == Some(t)
    ensures HeaderProps(line) == map["id" := Trim(id), "type" := Trim(t)]
  {
    var withId := map["id" := Trim(id)];
    assert HeaderProps(line) == withId["type" := Trim(t)];
  }

  /** `key = "value"` yields the key and the value without its quotes. */
  lemma {:induction false} PropertyQuoted(key: string, value: string)
    requires key != [] && IsTrimmed(key) && '=' !in key
    ensures PropertyLine(key + " = \"" + value + "\"") == Some((key, value))
  {
    var quoted := "\"" + value + "\"";
    assert key + " = \"" + value + "\"" == key + " = " + quoted;
    PropertyOf(key, quoted);
    assert quoted[1..|quoted| - 1] == value;
  }

  /** `key = value` with an unquoted, trimmed value yields the two as written. */
  lemma PropertyBare(key: string, value: string)
    requires key != [] && IsTrimmed(key) && '=' !in key
    requires value != [] && IsTrimmed(value) && value[0] != '"'
    ensures PropertyLine(key + " = " + value) == Some((key, value))
  {
    PropertyOf(key, value);
  }

  /** A `key = value` line with both sides trimmed: the key, and the value less any quotes. */
  lemma {:induction false} PropertyOf(key: string, value: string)
    requires key != [] && IsTrimmed(key) && '=' !in key
    requires value != [] && IsTrimmed(value)
    ensures PropertyLine(key + " = " + value) == Some((key, Unquote(value)))
  {
    var line := key + " = " + value;
    var left := key + " ";
    var right := " " + value;
    assert SplitOnce(line, '=') == (left, Some(right)) by {
      assert line == left + ['='] + right;
      assert '=' !in left;
      SplitOnceAt(left, right, '=');
    }
    assert Trim(left) == key by { TrimSpaceAfter(key); }
    assert Trim(right) == value by { TrimSpaceBefore(value); }
    PropertyLineSplit(line, left, right);
  }

  /** How a property line comes apart once its first `=` is known. */
  lemma PropertyLineSplit(line: string, left: string, right: string)
    requires SplitOnce(line, '=') == (left, Some(right))
    ensures PropertyLine(line) == Some((Trim(left), Unquote(Trim(right))))
  {
  }

  /** A line without `=` is not a property. */
  lemma PropertyNeedsEquals(line: string)
    requires '=' !in line
    ensures PropertyLine(line).None?
  {
  }

  /** `parse_pwcli_output`: the line loop, keeping the object being built in `current`. */
  method ParsePwCliOutput(output: string) returns (objects: seq<Props>)
    ensures objects == Parse(output)
    ensures |objects| == CountHeaders(Lines(output))
  {
    var lines := Lines(output);
    objects := [];
    var current: Option<Props> := None;
    for i := 0 to |lines|
      invariant Fold(lines[..i]) == ParserState(objects, current)
    {
      FoldSnoc(lines, i);
      ghost var before := ParserState(objects, current);
      var line := Trim(lines[i]);
      if line == [] {
      } else if IsHeader(line) {
        if current.Some? {
          objects := objects + [current.value];
        }
        current := Some(HeaderProps(line));
      } else if current.Some? {
        var (key, rest) := SplitOnce(line, '=');
        if rest.Some? {
          var value := Unquote(Trim(rest.value));
          current := Some(current.value[Trim(key) := value]);
        }
      }
      assert ParserState(objects, current) == Step(before, lines[i]);
    }
    assert lines[..|lines|] == lines;
    if current.Some? {
      objects := objects + [current.value];
    }
    ParseCount(output);
  }

  /** The node name of the virtual device's input, which must not be offered as an output. */
  const IrateGooseNode: string := "effect_input." + VirtualNodeSuffix

  /** An object that is an audio sink and is not the virtual device's own input. */
  predicate IsAudioSink(obj: Props) {
    "media.class" in obj && obj["media.class"] == AudioDeviceClass
    && !("node.name" in obj && obj["node.name"] == IrateGooseNode)
  }

  /** `filter_audio_sinks`: the audio sinks, in the order they were listed. */
  function FilterAudioSinks(devices: seq<Props>): (r: seq<Props>)
    ensures forall i :: 0 <= i < |r| ==> "media.class" in r[i] && r[i]["media.class"] == AudioDeviceClass
    ensures forall i :: 0 <= i < |r| ==> !("node.name" in r[i] && r[i]["node.name"] == IrateGooseNode)
    ensures forall i :: 0 <= i < |r| ==> r[i] in devices
    ensures forall i :: 0 <= i < |devices| && IsAudioSink(devices[i]) ==> devices[i] in r
  {
    Seqs.Filter(devices, IsAudioSink)
  }

  /** The filter keeps the listing order: it works on each part of a listing separately. */
  lemma FilterAudioSinksOrder(a: seq<Props>, b: seq<Props>)
    ensures FilterAudioSinks(a + b) == FilterAudioSinks(a) + FilterAudioSinks(b)
  {
    Seqs.FilterConcat(a, b, IsAudioSink);
  }

  /** Of a sink, a stream and an object without a class, only the sink is kept. */
  lemma FilterAudioSinksExample()
    ensures FilterAudioSinks([
      map["id" := "36", "media.class" := "Audio/Sink"],
      map["id" := "37", "media.class" := "Stream/Output/Audio"],
      map["id" := "38"]]) == [map["id" := "36", "media.class" := "Audio/Sink"]]
  {
    var d1 := map["id" := "36", "media.class" := "Audio/Sink"];
    var d2 := map["id" := "37", "media.class" := "Stream/Output/Audio"];
    var d3 := map["id" := "38"];
    assert IsAudioSink(d1);
    assert !IsAudioSink(d2);
    assert !IsAudioSink(d3);
    Seqs.FilterConcat([d1], [d2], IsAudioSink);
    Seqs.FilterConcat([d1, d2], [d3], IsAudioSink);
    Seqs.FilterSingleton(d1, IsAudioSink);
    Seqs.FilterSingleton(d2, IsAudioSink);
    Seqs.FilterSingleton(d3, IsAudioSink);
    assert [d1, d2, d3] == [d1, d2] + [d3];
    assert [d1, d2] == [d1] + [d2];
  }

  /** Our own virtual device is dropped even though it is an audio sink. */
  lemma FilterSkipsVirtualDevice(rest: seq<Props>)
    ensures FilterAudioSinks([map["media.class" := AudioDeviceClass, "node.name" := IrateGooseNode]] + rest)
      == FilterAudioSinks(rest)
  {
    var own := map["media.class" := AudioDeviceClass, "node.name" := IrateGooseNode];
    assert !IsAudioSink(own);
    FilterAudioSinksOrder([own], rest);
    Seqs.FilterSingleton(own, IsAudioSink);
  }
}
