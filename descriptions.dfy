/**
 * The HRTF description database: each CSV record (already split into columns) becomes an
 * `HrtfMetadata` entry keyed by its HRIR file name.
 */
module Descriptions {
  import opened Wrappers
  import opened Strings

  datatype Configuration = Headphones | Speakers

  /** `Configuration::from_str`: the trimmed text must be one of the two names, case and all. */
  function ConfigurationFromStr(s: string): (r: Option<Configuration>)
    ensures r == Some(Headphones) <==> Trim(s) == "Headphones"
    ensures r == Some(Speakers) <==> Trim(s) == "Speakers"
    ensures r.None? <==> Trim(s) != "Headphones" && Trim(s) != "Speakers"
  {
    var t := Trim(s);
    if t == "Headphones" then Some(Headphones)
    else if t == "Speakers" then Some(Speakers)
    else None
  }

  /** Surrounding whitespace does not change how a configuration name parses. */
  lemma ConfigurationPadded(left: string, name: string, right: string)
    requires AllWhitespace(left) && AllWhitespace(right)
    requires name == "Headphones" || name == "Speakers"
    ensures ConfigurationFromStr(left + name + right) == ConfigurationFromStr(name)
    ensures ConfigurationFromStr(name).Some?
  {
    TrimPadded(left, name, right);
    TrimOfTrimmed(name);
  }

  /** Matching is case-sensitive: the lower-case spelling is rejected. */
  lemma ConfigurationCaseSensitive()
    ensures ConfigurationFromStr("headphones") == None
    ensures ConfigurationFromStr("") == None
  {
    TrimOfTrimmed("headphones");
  }

  const U32Max: nat := 0xFFFF_FFFF

  type u32 = x: int | 0 <= x <= U32Max

  predicate IsDigit(c: char) {
    '0' <= c <= '9'
  }

  predicate AllDigits(s: string) {
    forall i :: 0 <= i < |s| ==> IsDigit(s[i])
  }

  /** The value of a string of decimal digits, most significant first. */
  function DecimalValue(s: string): nat
    requires AllDigits(s)
  {
    if s == [] then 0 else DecimalValue(s[..|s| - 1]) * 10 + (s[|s| - 1] as int - '0' as int)
  }

  /** The digits after an optional leading `+`, which `u32::from_str` accepts. */
  function UnsignedDigits(s: string): string {
    if |s| > 0 && s[0] == '+' then s[1..] else s
  }

  /**
   * `str::parse::<u32>`: an optional `+`, then at least one ASCII digit, and a value that
   * fits in 32 bits; anything else (including a sign alone or a `-`) fails.
   */
  function ParseU32(s: string): (r: Option<u32>)
    ensures r.Some? <==> UnsignedDigits(s) != [] && AllDigits(UnsignedDigits(s)) && DecimalValue(UnsignedDigits(s)) <= U32Max
    ensures r.Some? ==> r.value == DecimalValue(UnsignedDigits(s))
  {
    var ds := UnsignedDigits(s);
    if ds != [] && AllDigits(ds) && DecimalValue(ds) <= U32Max then Some(DecimalValue(ds)) else None
  }

  /** The canonical decimal spelling of a number: no sign, no leading zeros. */
  function ToDecimal(n: nat): (s: string)
    ensures s != [] && AllDigits(s)
  {
    if n < 10 then [('0' as int + n) as char]
    else ToDecimal(n / 10) + [('0' as int + n % 10) as char]
  }

  lemma {:induction false} DecimalValueOfToDecimal(n: nat)
    ensures DecimalValue(ToDecimal(n)) == n
  {
    if n >= 10 {
      var s := ToDecimal(n);
      assert s[..|s| - 1] == ToDecimal(n / 10);
      DecimalValueOfToDecimal(n / 10);
    }
  }

  /** Parsing the printed form of any `u32`, with or without a `+`, gives it back. */
  lemma ParsePrinted(n: u32)
    ensures ParseU32(ToDecimal(n)) == Some(n)
    ensures ParseU32("+" + ToDecimal(n)) == Some(n)
  {
    DecimalValueOfToDecimal(n);
    assert ("+" + ToDecimal(n))[1..] == ToDecimal(n);
  }

  /** A value that does not fit in 32 bits is rejected. */
  lemma ParseOverflow(n: nat)
    requires n > U32Max
    ensures ParseU32(ToDecimal(n)) == None
  {
    DecimalValueOfToDecimal(n);
  }

  /** The `points` column: empty after trimming is None, and unparsable text is None as well. */
  function ParsePoints(field: string): (r: Option<u32>)
    ensures Trim(field) == [] ==> r.None?
    ensures Trim(field) != [] ==> r == ParseU32(Trim(field))
  {
    var t := Trim(field);
    if t == [] then None else ParseU32(t)
  }

  /** One row of the database, less its HRIR key. */
  datatype HrtfMetadata = HrtfMetadata(
    hrtf: string,
    configuration: Option<Configuration>,
    description: string,
    source: string,
    credits: string,
    points: Option<u32>)

  /** Columns: HRIR; HRTF; Configuration; Description; Source; Credits; Points. */
  const RecordLength: nat := 7

  type Record = seq<string>

  /**
   * The entry built from a well-formed record: HRTF, description, source and credits are
   * copied verbatim, configuration and points are parsed. The code trims the configuration
   * column before handing it to the parser, which trims again; `ConfigurationPreTrim` shows
   * the two agree, so the model parses the column directly.
   */
  function ParseRecord(record: Record): (e: HrtfMetadata)
    requires |record| == RecordLength
    ensures e.hrtf == record[1] && e.description == record[3]
    ensures e.source == record[4] && e.credits == record[5]
    ensures e.configuration == ConfigurationFromStr(record[2])
    ensures e.points == ParsePoints(record[6])
  {
    HrtfMetadata(record[1], ConfigurationFromStr(record[2]), record[3], record[4], record[5],
                 ParsePoints(record[6]))
  }

  /** Trimming before parsing a configuration changes nothing. */
  lemma ConfigurationPreTrim(s: string)
    ensures ConfigurationFromStr(Trim(s)) == ConfigurationFromStr(s)
  {
    TrimIdempotent(s);
  }

  /** "Invalid CSV record length: expected 7 columns, got n". */
  datatype LoadError = InvalidRecordLength(got: nat)

  type Entries = map<string, HrtfMetadata>

  /**
   * One turn of the loop in `Descriptions::new`: a record of the wrong length stops the load;
   * a key already present is skipped; otherwise the parsed entry is inserted.
   */
  function AddRecord(m: Entries, record: Record): (r: Result<Entries, LoadError>)
    ensures r.Err? <==> |record| != RecordLength
    ensures r.Err? ==> r.error == InvalidRecordLength(|record|)
    ensures r.Ok? ==> forall k :: k in r.value <==> k in m || k == record[0]
    ensures r.Ok? ==> forall k :: k in m ==> r.value[k] == m[k]
    ensures r.Ok? && record[0] !in m ==> r.value[record[0]] == ParseRecord(record)
  {
    if |record| != RecordLength then Err(InvalidRecordLength(|record|))
    else if record[0] in m then Ok(m)
    else
      var e := ParseRecord(record);
      Ok(m[record[0] := e])
  }

  /** What `Descriptions::new` computes from its records, taken in order. */
  function Ingest(records: seq<Record>): Result<Entries, LoadError> {
    if records == [] then Ok(map[])
    else
      match Ingest(records[..|records| - 1])
      case Err(e) => Err(e)
      case Ok(m) => AddRecord(m, records[|records| - 1])
  }

  predicate WellFormed(records: seq<Record>) {
    forall i :: 0 <= i < |records| ==> |records[i]| == RecordLength
  }

  /** Record `i` is the first one carrying its key. */
  predicate FirstWithKey(records: seq<Record>, i: nat)
    requires i < |records| && WellFormed(records)
  {
    forall j :: 0 <= j < i ==> records[j][0] != records[i][0]
  }

  lemma WellFormedInit(records: seq<Record>)
    requires records != []
    ensures WellFormed(records) <==>
      WellFormed(records[..|records| - 1]) && |records[|records| - 1]| == RecordLength
  {
    var init := records[..|records| - 1];
    if WellFormed(init) && |records[|records| - 1]| == RecordLength {
      forall k | 0 <= k < |records| ensures |records[k]| == RecordLength {
        if k < |init| { assert records[k] == init[k]; }
      }
    }
    if WellFormed(records) {
      forall k | 0 <= k < |init| ensures |init[k]| == RecordLength { assert records[k] == init[k]; }
    }
  }

  /** The load fails exactly when some record has the wrong length. */
  lemma {:induction false} IngestFails(records: seq<Record>)
    ensures Ingest(records).Err? <==> !WellFormed(records)
  {
    if records != [] {
      IngestFails(records[..|records| - 1]);
      WellFormedInit(records);
    }
  }

  /** A failed load reports the length of the first record of the wrong length. */
  lemma {:induction false} IngestFirstError(records: seq<Record>) returns (i: nat)
    requires Ingest(records).Err?
    ensures i < |records| && WellFormed(records[..i]) && |records[i]| != RecordLength
    ensures Ingest(records).error == InvalidRecordLength(|records[i]|)
  {
    var n := |records| - 1;
    var init := records[..n];
    if Ingest(init).Err? {
      i := IngestFirstError(init);
      assert init[..i] == records[..i];
      assert records[i] == init[i];
    } else {
      i := n;
      assert records[..n] == init;
      IngestFails(init);
    }
  }

  /** One step of a successful load: the last record is added to what came before. */
  lemma IngestStep(records: seq<Record>)
    requires WellFormed(records) && records != []
    ensures Ingest(records[..|records| - 1]).Ok?
    ensures Ingest(records) == AddRecord(Ingest(records[..|records| - 1]).value, records[|records| - 1])
  {
    WellFormedInit(records);
    IngestFails(records[..|records| - 1]);
  }

  /** On well-formed records the load succeeds, and its keys are exactly the records' keys. */
  lemma IngestKeys(records: seq<Record>)
    requires WellFormed(records)
    ensures Ingest(records).Ok?
    ensures forall k :: k in Ingest(records).value <==> exists i :: 0 <= i < |records| && records[i][0] == k
  {
    IngestKeySet(records);
    KeySetMembers(records);
  }

  /** The keys of the records, as a set. */
  function KeySet(records: seq<Record>): set<string> {
    if records == [] then {}
    else KeySet(records[..|records| - 1]) + (if |records[|records| - 1]| > 0 then {records[|records| - 1][0]} else {})
  }

  lemma {:induction false} IngestKeySet(records: seq<Record>)
    requires WellFormed(records)
    ensures Ingest(records).Ok? && Ingest(records).value.Keys == KeySet(records)
  {
    IngestFails(records);
    if records != [] {
      WellFormedInit(records);
      IngestStep(records);
      IngestKeySet(records[..|records| - 1]);
    }
  }

  lemma {:induction false} KeySetMembers(records: seq<Record>)
    requires WellFormed(records)
    ensures forall k :: k in KeySet(records) <==> exists i :: 0 <= i < |records| && records[i][0] == k
  {
    if records != [] {
      var n := |records| - 1;
      var init := records[..n];
      WellFormedInit(records);
      KeySetMembers(init);
      forall k ensures k in KeySet(records) <==> exists i :: 0 <= i < |records| && records[i][0] == k {
        if k in KeySet(init) {
          var i :| 0 <= i < |init| && init[i][0] == k;
          assert records[i] == init[i];
        }
        if exists i :: 0 <= i < |records| && records[i][0] == k {
          var i :| 0 <= i < |records| && records[i][0] == k;
          if i < n { assert init[i] == records[i]; }
        }
      }
    }
  }

  /** Each key holds the entry built from the first record carrying it; later duplicates are skipped. */
  lemma {:induction false} IngestFirstValue(records: seq<Record>, i: nat)
    requires WellFormed(records) && i < |records| && FirstWithKey(records, i)
    ensures Ingest(records).Ok? && records[i][0] in Ingest(records).value
    ensures Ingest(records).value[records[i][0]] == ParseRecord(records[i])
    decreases |records|, 1
  {
    if i < |records| - 1 {
      IngestFirstValueEarlier(records, i);
    } else {
      var init := records[..i];
      var key := records[i][0];
      IngestStep(records);
      WellFormedInit(records);
      forall j | 0 <= j < |init| ensures init[j][0] != key { assert records[j] == init[j]; }
      IngestKeys(init);
    }
  }

  /** The case of a record before the last: the last record cannot displace its entry. */
  lemma {:induction false} IngestFirstValueEarlier(records: seq<Record>, i: nat)
    requires WellFormed(records) && i < |records| - 1 && FirstWithKey(records, i)
    ensures Ingest(records).Ok? && records[i][0] in Ingest(records).value
    ensures Ingest(records).value[records[i][0]] == ParseRecord(records[i])
    decreases |records|, 0
  {
    var n := |records| - 1;
    var init := records[..n];
    var last := records[n];
    var key := records[i][0];
    IngestStep(records);
    WellFormedInit(records);
    assert init[i] == records[i];
    assert FirstWithKey(init, i) by {
      forall j | 0 <= j < i ensures init[j][0] != init[i][0] { assert init[j] == records[j]; }
    }
    IngestFirstValue(init, i);
  }

  /** A later record with a key already seen leaves that key's entry as the first record made it. */
  lemma {:induction false} FirstDuplicateWins(records: seq<Record>, i: nat, j: nat)
    requires WellFormed(records)
    requires i < j < |records| && records[i][0] == records[j][0] && FirstWithKey(records, i)
    ensures Ingest(records).Ok? && records[j][0] in Ingest(records).value
    ensures Ingest(records).value[records[j][0]] == ParseRecord(records[i])
  {
    IngestFirstValue(records, i);
  }

  /** The loaded database. Entries are shared immutably once built. */
  datatype Descriptions = Descriptions(entries: Entries)

  /** `Descriptions::new`, over records already split into columns. */
  method New(records: seq<Record>) returns (r: Result<Descriptions, LoadError>)
    ensures r.Ok? <==> Ingest(records).Ok?
    ensures r.Ok? ==> r.value.entries == Ingest(records).value
    ensures r.Err? ==> r.error == Ingest(records).error
  {
    var entries: Entries := map[];
    var i := 0;
    while i < |records|
      invariant 0 <= i <= |records|
      invariant Ingest(records[..i]) == Ok(entries)
    {
      var record := records[i];
      assert records[..i + 1][..i] == records[..i];
      if |record| != RecordLength {
        IngestErrSticky(records, i + 1);
        return Err(InvalidRecordLength(|record|));
      }
      var hrir := record[0];
      if hrir !in entries {
        entries := entries[hrir := ParseRecord(record)];
      }
      i := i + 1;
    }
    assert records[..i] == records;
    r := Ok(Descriptions(entries));
  }

  /** Once a prefix of the records fails to load, so does the whole sequence, with the same error. */
  lemma {:induction false} IngestErrSticky(records: seq<Record>, n: nat)
    requires n <= |records| && Ingest(records[..n]).Err?
    ensures Ingest(records) == Ingest(records[..n])
    decreases |records|
  {
    if n < |records| {
      var init := records[..|records| - 1];
      assert init[..n] == records[..n];
      IngestErrSticky(init, n);
    } else {
      assert records[..n] == records;
    }
  }

  /** `get_rc`: the entry stored under the key, if any. */
  function GetRc(d: Descriptions, hrirFilename: string): (r: Option<HrtfMetadata>)
    ensures r.Some? <==> hrirFilename in d.entries
    ensures r.Some? ==> r.value == d.entries[hrirFilename]
  {
    if hrirFilename in d.entries then Some(d.entries[hrirFilename]) else None
  }

  /** Looking a key up after a successful load finds the first record with that key, and only those keys. */
  lemma {:induction false} GetRcAfterLoad(records: seq<Record>, key: string)
    requires WellFormed(records)
    ensures Ingest(records).Ok?
    ensures GetRc(Descriptions(Ingest(records).value), key).Some? <==>
      exists i :: 0 <= i < |records| && records[i][0] == key
    ensures forall i :: 0 <= i < |records| && FirstWithKey(records, i) && records[i][0] == key ==>
      GetRc(Descriptions(Ingest(records).value), key) == Some(ParseRecord(records[i]))
  {
    IngestKeys(records);
    forall i | 0 <= i < |records| && FirstWithKey(records, i) && records[i][0] == key
      ensures GetRc(Descriptions(Ingest(records).value), key) == Some(ParseRecord(records[i]))
    {
      IngestFirstValue(records, i);
    }
  }
}
