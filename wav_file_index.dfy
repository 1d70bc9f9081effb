/**
 * `WavFileIndex`: the located WAV records in display order, plus a map from each
 * non-zero checksum to the position of the last record carrying it.
 */
module WavIndex {
  import opened Wrappers
  import opened WavData
  import Seqs

  /** The position of the last record in `items` whose checksum is `c`. */
  function LastPosition(items: seq<WavFileData>, c: u64): (r: Option<nat>)
    ensures r.Some? ==> r.value < |items| && items[r.value].checksum == c
    ensures r.Some? ==> forall j :: r.value < j < |items| ==> items[j].checksum != c
    ensures r.None? ==> forall j :: 0 <= j < |items| ==> items[j].checksum != c
  {
    if items == [] then None
    else if items[|items| - 1].checksum == c then Some(|items| - 1)
    else LastPosition(items[..|items| - 1], c)
  }

  /**
   * What a lookup by checksum must find: nothing for the sentinel 0, otherwise the last
   * record with that checksum.
   */
  function Lookup(items: seq<WavFileData>, c: u64): Option<WavFileData> {
    if c == 0 then None
    else match LastPosition(items, c)
      case None => None
      case Some(k) => Some(items[k])
  }

  /**
   * The index invariant: every key is non-zero and names a position holding a record with
   * that checksum, no later record has it, and every non-zero checksum is a key.
   */
  ghost predicate IndexInvariant(items: seq<WavFileData>, m: map<u64, nat>) {
    && (forall c :: c in m ==> c != 0 && m[c] < |items| && items[m[c]].checksum == c)
    && (forall c, j :: c in m && m[c] < j < |items| ==> items[j].checksum != c)
    && (forall i :: 0 <= i < |items| && items[i].checksum != 0 ==> items[i].checksum in m)
  }

  /** The map that adding `x` at the end of `items` produces. */
  function Indexed(m: map<u64, nat>, x: WavFileData, position: nat): map<u64, nat> {
    if x.checksum != 0 then m[x.checksum := position] else m
  }

  lemma IndexAppend(items: seq<WavFileData>, m: map<u64, nat>, x: WavFileData)
    requires IndexInvariant(items, m)
    ensures IndexInvariant(items + [x], Indexed(m, x, |items|))
  {
    var items' := items + [x];
    var m' := Indexed(m, x, |items|);
    forall i | 0 <= i < |items'| && items'[i].checksum != 0
      ensures items'[i].checksum in m'
    {
      if i < |items| { assert items'[i] == items[i]; }
    }
    forall c, j | c in m' && m'[c] < j < |items'|
      ensures items'[j].checksum != c
    {
      if c != x.checksum || x.checksum == 0 {
        assert m'[c] == m[c];
        if j < |items| { assert items'[j] == items[j]; }
      }
    }
  }

  /** Under the invariant, the map answers exactly what `LastPosition` specifies. */
  lemma IndexAgreesWithLastPosition(items: seq<WavFileData>, m: map<u64, nat>, c: u64)
    requires IndexInvariant(items, m) && c != 0
    ensures c in m ==> LastPosition(items, c) == Some(m[c])
    ensures c !in m ==> LastPosition(items, c) == None
  {
    var r := LastPosition(items, c);
    if c in m {
      assert r.Some? by { assert items[m[c]].checksum == c; }
    }
  }

  /** Looking up the checksum just appended finds the appended record: the last duplicate wins. */
  lemma LookupAppendSame(items: seq<WavFileData>, x: WavFileData)
    requires x.checksum != 0
    ensures Lookup(items + [x], x.checksum) == Some(x)
  {
  }

  /** Appending a record leaves every other checksum's lookup as it was. */
  lemma LookupAppendOther(items: seq<WavFileData>, x: WavFileData, c: u64)
    requires c != x.checksum
    ensures Lookup(items + [x], c) == Lookup(items, c)
  {
    assert (items + [x])[..|items|] == items;
  }

  /** Of two records with the same non-zero checksum, the lookup never returns the earlier one's position. */
  lemma LaterDuplicateWins(items: seq<WavFileData>, i: nat, j: nat)
    requires i < j < |items| && items[i].checksum == items[j].checksum != 0
    ensures LastPosition(items, items[i].checksum).Some?
    ensures LastPosition(items, items[i].checksum).value >= j
  {
  }

  class WavFileIndex {
    var items: seq<WavFileData>
    var checksumIndex: map<u64, nat>

    ghost predicate Valid()
      reads this
    {
      IndexInvariant(items, checksumIndex)
    }

    /** `WavFileIndex::new`. */
    constructor ()
      ensures Valid() && items == [] && checksumIndex == map[]
    {
      items := [];
      checksumIndex := map[];
    }

    /** `WavFileIndex::from_vec`: keeps the records in order and indexes every non-zero checksum. */
    constructor FromVec(records: seq<WavFileData>)
      ensures Valid() && items == records
    {
      var m: map<u64, nat> := map[];
      var idx := 0;
      while idx < |records|
        invariant 0 <= idx <= |records|
        invariant IndexInvariant(records[..idx], m)
      {
        IndexAppend(records[..idx], m, records[idx]);
        assert records[..idx + 1] == records[..idx] + [records[idx]];
        m := Indexed(m, records[idx], idx);
        idx := idx + 1;
      }
      assert records[..idx] == records;
      items := records;
      checksumIndex := m;
    }

    /** `WavFileIndex::clear`. */
    method Clear()
      modifies this
      ensures Valid() && items == [] && checksumIndex == map[]
    {
      items := [];
      checksumIndex := map[];
    }

    /** `WavFileIndex::add`: appends, and a non-zero checksum now maps to the new position. */
    method Add(item: WavFileData)
      requires Valid()
      modifies this
      ensures Valid()
      ensures items == old(items) + [item]
      ensures checksumIndex == Indexed(old(checksumIndex), item, |old(items)|)
    {
      IndexAppend(items, checksumIndex, item);
      var idx := |items|;
      items := items + [item];
      if items[idx].checksum != 0 {
        checksumIndex := checksumIndex[items[idx].checksum := idx];
      }
    }

    /** `WavFileIndex::len`. */
    function Len(): (n: nat)
      reads this
      ensures n == |items|
    {
      |items|
    }

    /** `WavFileIndex::get_by_index`: `None` exactly when the position is out of range. */
    function GetByIndex(index: nat): (r: Option<WavFileData>)
      reads this
      ensures r.None? <==> index >= Len()
      ensures r.Some? ==> r.value == items[index]
    {
      if index < |items| then Some(items[index]) else None
    }

    /** `WavFileIndex::get_by_checksum`: goes through the map, and agrees with `Lookup` on the records. */
    function GetByChecksum(checksum: u64): (r: Option<WavFileData>)
      reads this
      requires Valid()
      ensures checksum == 0 ==> r == None
      ensures r == Lookup(items, checksum)
    {
      if checksum == 0 then None
      else
        IndexAgreesWithLastPosition(items, checksumIndex, checksum);
        if checksum in checksumIndex && checksumIndex[checksum] < |items|
        then Some(items[checksumIndex[checksum]])
        else None
    }

    /** The row that holds a checksum: the map lookup the table uses to scroll to a selection. */
    function IndexOfChecksum(checksum: u64): (r: Option<nat>)
      reads this
      requires Valid()
      ensures r == if checksum == 0 then None else LastPosition(items, checksum)
    {
      if checksum == 0 then None
      else
        IndexAgreesWithLastPosition(items, checksumIndex, checksum);
        if checksum in checksumIndex then Some(checksumIndex[checksum]) else None
    }

    /** `WavFileIndex::filtered_clone`: a fresh index over the records satisfying `p`, in order. */
    method FilteredClone(p: WavFileData -> bool) returns (r: WavFileIndex)
      ensures fresh(r) && r.Valid()
      ensures r.items == Seqs.Filter(items, p)
    {
      r := new WavFileIndex.FromVec(Seqs.Filter(items, p));
    }
  }
}
