/**
 * SCP-914 recipe records and their registration at plugin load
 * (SCPCBDunGen/SCPCBDunGen.cs): the `SCP914Conversion` record, the
 * `SCP914ConversionSet` keyed by `ItemName`, and the loop in `Awake` that
 * merges every record of every recipe file into that set.
 *
 * The merge asks `Contains` with the lower-cased name but reads and adds
 * under the raw name, so two records whose names differ only in case make
 * the collection throw. Neither `KeyNotFoundException` nor
 * `ArgumentException` is the `JsonException` the loop catches: loading stops
 * there, with what was merged so far kept.
 */
module Recipes {
  import opened Common

  /** `SCP914Conversion`: an item name and one list of result names per dial setting. */
  datatype Conversion = Conversion(itemName: string, roughResults: seq<string>, coarseResults: seq<string>,
                                   oneToOneResults: seq<string>, fineResults: seq<string>,
                                   veryFineResults: seq<string>)

  /** The five result lists, indexed by setting from ROUGH to VERYFINE. */
  function Columns(c: Conversion): (cols: seq<seq<string>>)
    ensures |cols| == 5
  {
    [c.roughResults, c.coarseResults, c.oneToOneResults, c.fineResults, c.veryFineResults]
  }

  /** The stored record after `AddRange` of each of `more`'s lists onto its own. */
  function Extended(stored: Conversion, more: Conversion): (r: Conversion)
    ensures r.itemName == stored.itemName
    ensures forall k :: 0 <= k < 5 ==> Columns(r)[k] == Columns(stored)[k] + Columns(more)[k]
  {
    Conversion(stored.itemName, stored.roughResults + more.roughResults, stored.coarseResults + more.coarseResults,
               stored.oneToOneResults + more.oneToOneResults, stored.fineResults + more.fineResults,
               stored.veryFineResults + more.veryFineResults)
  }

  // ---------------------------------------------------------------------------
  // The keyed collection, as a sequence of records in insertion order
  // ---------------------------------------------------------------------------

  /** `KeyedCollection`'s invariant: no two records share a key. */
  ghost predicate DistinctKeys(rs: seq<Conversion>)
  {
    forall i, j :: 0 <= i < j < |rs| ==> rs[i].itemName != rs[j].itemName
  }

  /** The position of the record keyed `key`, if there is one. */
  function KeyIndex(rs: seq<Conversion>, key: string): (r: Option<nat>)
    ensures r.Some? ==> r.value < |rs| && rs[r.value].itemName == key
    ensures r.None? <==> forall i :: 0 <= i < |rs| ==> rs[i].itemName != key
  {
    if rs == [] then None
    else if rs[|rs| - 1].itemName == key then Some(|rs| - 1)
    else KeyIndex(rs[..|rs| - 1], key)
  }

  /** What the collection holds, and whether an uncaught exception stopped loading. */
  datatype Loaded = Loaded(records: seq<Conversion>, aborted: bool)

  /**
   * One pass of the inner loop of `Awake`, as written: `Contains` with the
   * lower-cased name; if true, the indexer with the raw name (throwing when
   * absent); if false, `Add` (throwing on a duplicate raw key).
   */
  function MergeAsWritten(rs: seq<Conversion>, c: Conversion): (r: Loaded)
    ensures r.aborted ==> r.records == rs
  {
    if KeyIndex(rs, Lower(c.itemName)).Some? then
      match KeyIndex(rs, c.itemName)
      case None => Loaded(rs, true)
      case Some(i) => Loaded(rs[i := Extended(rs[i], c)], false)
    else if KeyIndex(rs, c.itemName).Some? then Loaded(rs, true)
    else Loaded(rs + [c], false)
  }

  /** The records of one file merged in order; the first exception stops the rest. */
  function MergeRecords(rs: seq<Conversion>, cs: seq<Conversion>): Loaded
    decreases |cs|
  {
    if cs == [] then Loaded(rs, false)
    else
      var before := MergeRecords(rs, cs[..|cs| - 1]);
      if before.aborted then before else MergeAsWritten(before.records, cs[|cs| - 1])
  }

  /** A discovered recipe file: its file name and its records, `None` when `JsonConvert` throws. */
  datatype RecipeFile = RecipeFile(fileName: string, records: Option<seq<Conversion>>)

  /** Files skipped outright: a `default.json` while `Default914Recipes` is false. */
  predicate Skipped(f: RecipeFile, loadDefault: bool)
  {
    !loadDefault && f.fileName == "default.json"
  }

  /** The outer loop of `Awake` over the files, in discovery order. */
  function LoadFiles(rs: seq<Conversion>, files: seq<RecipeFile>, loadDefault: bool): Loaded
    decreases |files|
  {
    if files == [] then Loaded(rs, false)
    else
      var before := LoadFiles(rs, files[..|files| - 1], loadDefault);
      var f := files[|files| - 1];
      if before.aborted || Skipped(f, loadDefault) || f.records.None? then before
      else MergeRecords(before.records, f.records.value)
  }

  // ---------------------------------------------------------------------------
  // Properties of the merge
  // ---------------------------------------------------------------------------

  /** A merge keeps the collection's keys distinct. */
  lemma MergeKeepsKeysDistinct(rs: seq<Conversion>, c: Conversion)
    requires DistinctKeys(rs)
    ensures DistinctKeys(MergeAsWritten(rs, c).records)
  {
  }

  lemma {:induction false} MergeRecordsKeepsKeysDistinct(rs: seq<Conversion>, cs: seq<Conversion>)
    requires DistinctKeys(rs)
    ensures DistinctKeys(MergeRecords(rs, cs).records)
    decreases |cs|
  {
    if cs != [] {
      MergeRecordsKeepsKeysDistinct(rs, cs[..|cs| - 1]);
      MergeKeepsKeysDistinct(MergeRecords(rs, cs[..|cs| - 1]).records, cs[|cs| - 1]);
    }
  }

  lemma {:induction false} LoadFilesKeepsKeysDistinct(rs: seq<Conversion>, files: seq<RecipeFile>, loadDefault: bool)
    requires DistinctKeys(rs)
    ensures DistinctKeys(LoadFiles(rs, files, loadDefault).records)
    decreases |files|
  {
    if files != [] {
      var before := LoadFiles(rs, files[..|files| - 1], loadDefault);
      LoadFilesKeepsKeysDistinct(rs, files[..|files| - 1], loadDefault);
      var f := files[|files| - 1];
      if !before.aborted && !Skipped(f, loadDefault) && f.records.Some? {
        MergeRecordsKeepsKeysDistinct(before.records, f.records.value);
      }
    }
  }

  /** Loading `a + b` is loading `a`, then `b` from where `a` left off. */
  lemma {:induction false} LoadFilesConcat(rs: seq<Conversion>, a: seq<RecipeFile>, b: seq<RecipeFile>, loadDefault: bool)
    ensures var first := LoadFiles(rs, a, loadDefault);
      LoadFiles(rs, a + b, loadDefault) ==
        if first.aborted then first
        else LoadFiles(first.records, b, loadDefault)
    decreases |b|
  {
    if b == [] {
      assert a + b == a;
    } else {
      assert (a + b)[..|a + b| - 1] == a + b[..|b| - 1];
      LoadFilesConcat(rs, a, b[..|b| - 1], loadDefault);
    }
  }

  /**
   * A file that fails to deserialize, or a `default.json` that is switched
   * off, contributes nothing, and the files after it are still loaded.
   */
  lemma IgnoredFileContributesNothing(rs: seq<Conversion>, a: seq<RecipeFile>, f: RecipeFile,
                                      b: seq<RecipeFile>, loadDefault: bool)
    requires f.records.None? || Skipped(f, loadDefault)
    ensures LoadFiles(rs, a + [f] + b, loadDefault) == LoadFiles(rs, a + b, loadDefault)
  {
    LoadFilesConcat(rs, a + [f], b, loadDefault);
    LoadFilesConcat(rs, a, b, loadDefault);
    assert (a + [f])[..|a + [f]| - 1] == a;
  }

  /**
   * For a lower-case name the merge does what its comment says: the record
   * is appended to the stored one with that name, or added when there is none.
   */
  lemma LowerCaseNameMerges(rs: seq<Conversion>, c: Conversion)
    requires Lower(c.itemName) == c.itemName
    ensures var r := MergeAsWritten(rs, c);
      && !r.aborted
      && (KeyIndex(rs, c.itemName).Some? ==>
            var i := KeyIndex(rs, c.itemName).value; r.records == rs[i := Extended(rs[i], c)])
      && (KeyIndex(rs, c.itemName).None? ==> r.records == rs + [c])
  {
  }

  /** Recipe names all in lower case never stop loading. */
  lemma {:induction false} LowerCaseRecordsNeverAbort(rs: seq<Conversion>, cs: seq<Conversion>)
    requires forall k :: 0 <= k < |cs| ==> Lower(cs[k].itemName) == cs[k].itemName
    ensures !MergeRecords(rs, cs).aborted
    decreases |cs|
  {
    if cs != [] {
      LowerCaseRecordsNeverAbort(rs, cs[..|cs| - 1]);
      LowerCaseNameMerges(MergeRecords(rs, cs[..|cs| - 1]).records, cs[|cs| - 1]);
    }
  }

  /** Two records named "Bottle": the second is not found by `Contains("bottle")`, and `Add` throws. */
  lemma MixedCaseDuplicateAborts()
    ensures var c := Conversion("Bottle", ["Cup"], [], [], [], []);
      MergeRecords([], [c, c]) == Loaded([c], true)
  {
    var c := Conversion("Bottle", ["Cup"], [], [], [], []);
    assert [c, c][..1] == [c];
    assert [c][..0] == [];
    assert MergeRecords([], [c]) == MergeAsWritten([], c) == Loaded([c], false);
    assert Lower("Bottle") == "bottle";
    assert KeyIndex([c], "bottle").None?;
    assert KeyIndex([c], "Bottle") == Some(0);
  }

  /** A stored "bottle", then a "Bottle": `Contains` finds it, the raw indexer does not. */
  lemma MixedCaseAfterLowerAborts()
    ensures var lo := Conversion("bottle", ["Cup"], [], [], [], []);
      var up := Conversion("Bottle", [], ["Cup"], [], [], []);
      MergeAsWritten([lo], up) == Loaded([lo], true)
  {
    assert Lower("Bottle") == "bottle";
  }

  // ---------------------------------------------------------------------------
  // The merge the comment in `Awake` describes: names compared case-insensitively
  // ---------------------------------------------------------------------------

  /** The position of the record whose name lower-cases to `lowerKey`. */
  function LowerKeyIndex(rs: seq<Conversion>, lowerKey: string): (r: Option<nat>)
    ensures r.Some? ==> r.value < |rs| && Lower(rs[r.value].itemName) == lowerKey
    ensures r.None? <==> forall i :: 0 <= i < |rs| ==> Lower(rs[i].itemName) != lowerKey
  {
    if rs == [] then None
    else if Lower(rs[|rs| - 1].itemName) == lowerKey then Some(|rs| - 1)
    else LowerKeyIndex(rs[..|rs| - 1], lowerKey)
  }

  /** No two records whose names agree up to case. */
  ghost predicate DistinctLowerKeys(rs: seq<Conversion>)
  {
    forall i, j :: 0 <= i < j < |rs| ==> Lower(rs[i].itemName) != Lower(rs[j].itemName)
  }

  /** Merging with the case-insensitive lookup on both sides: it cannot throw. */
  function MergeIgnoringCase(rs: seq<Conversion>, c: Conversion): (r: seq<Conversion>)
    ensures DistinctLowerKeys(rs) ==> DistinctLowerKeys(r)
    ensures LowerKeyIndex(rs, Lower(c.itemName)).None? ==> r == rs + [c]
    ensures LowerKeyIndex(rs, Lower(c.itemName)).Some? ==>
              var i := LowerKeyIndex(rs, Lower(c.itemName)).value;
              |r| == |rs| && r[i] == Extended(rs[i], c) && forall j :: 0 <= j < |rs| && j != i ==> r[j] == rs[j]
  {
    match LowerKeyIndex(rs, Lower(c.itemName))
    case None => rs + [c]
    case Some(i) => rs[i := Extended(rs[i], c)]
  }

  /** Where every stored name is lower case, the corrected merge agrees with the code on lower-case names. */
  lemma CorrectedMergeAgreesOnLowerCase(rs: seq<Conversion>, c: Conversion)
    requires Lower(c.itemName) == c.itemName
    requires forall k :: 0 <= k < |rs| ==> Lower(rs[k].itemName) == rs[k].itemName
    ensures MergeAsWritten(rs, c) == Loaded(MergeIgnoringCase(rs, c), false)
  {
    LowerCaseNameMerges(rs, c);
    match KeyIndex(rs, c.itemName)
    case None =>
      assert LowerKeyIndex(rs, Lower(c.itemName)).None?;
    case Some(i) =>
      LowerKeyIsKey(rs, c.itemName);
  }

  lemma {:induction false} LowerKeyIsKey(rs: seq<Conversion>, key: string)
    requires forall k :: 0 <= k < |rs| ==> Lower(rs[k].itemName) == rs[k].itemName
    requires Lower(key) == key
    ensures LowerKeyIndex(rs, key) == KeyIndex(rs, key)
    decreases |rs|
  {
    if rs != [] {
      LowerKeyIsKey(rs[..|rs| - 1], key);
    }
  }

  // ---------------------------------------------------------------------------
  // The collection object and the loading loop
  // ---------------------------------------------------------------------------

  /** `SCP914ConversionSet`. */
  class ConversionSet {
    var records: seq<Conversion>

    ghost predicate Valid()
      reads this
    {
      DistinctKeys(records)
    }

    constructor ()
      ensures Valid() && records == []
    {
      records := [];
    }

    /** `Contains(key)`. */
    method Contains(key: string) returns (found: bool)
      ensures found <==> KeyIndex(records, key).Some?
    {
      found := false;
      var i := 0;
      while i < |records|
        invariant 0 <= i <= |records|
        invariant found <==> exists j :: 0 <= j < i && records[j].itemName == key
      {
        if records[i].itemName == key {
          found := true;
        }
        i := i + 1;
      }
    }

    /** `this[key].XResults.AddRange(...)` on all five lists: throws when `key` is absent. */
    method AppendTo(key: string, more: Conversion) returns (threw: bool)
      modifies this
      ensures threw <==> KeyIndex(old(records), key).None?
      ensures threw ==> records == old(records)
      ensures !threw ==>
        var i := KeyIndex(old(records), key).value; records == old(records)[i := Extended(old(records)[i], more)]
    {
      var k := KeyIndex(records, key);
      if k.None? {
        return true;
      }
      records := records[k.value := Extended(records[k.value], more)];
      return false;
    }

    /** `Add(c)`: throws on a duplicate key. */
    method Add(c: Conversion) returns (threw: bool)
      modifies this
      ensures threw <==> KeyIndex(old(records), c.itemName).Some?
      ensures records == if threw then old(records) else old(records) + [c]
    {
      var k := KeyIndex(records, c.itemName);
      if k.Some? {
        return true;
      }
      records := records + [c];
      return false;
    }
  }

  /** One record of the inner loop of `Awake`. */
  method MergeOne(conversions: ConversionSet, c: Conversion) returns (threw: bool)
    modifies conversions
    ensures Loaded(conversions.records, threw) == MergeAsWritten(old(conversions.records), c)
  {
    var present := conversions.Contains(Lower(c.itemName));
    if present {
      threw := conversions.AppendTo(c.itemName, c);
    } else {
      threw := conversions.Add(c);
    }
  }

  /** The inner loop of `Awake` over one file's records. */
  method MergeFile(conversions: ConversionSet, cs: seq<Conversion>) returns (aborted: bool)
    modifies conversions
    ensures Loaded(conversions.records, aborted) == MergeRecords(old(conversions.records), cs)
  {
    ghost var before := conversions.records;
    aborted := false;
    var m := 0;
    while m < |cs| && !aborted
      invariant 0 <= m <= |cs|
      invariant Loaded(conversions.records, aborted) == MergeRecords(before, cs[..m])
    {
      assert cs[..m + 1][..m] == cs[..m];
      aborted := MergeOne(conversions, cs[m]);
      m := m + 1;
    }
    if !aborted {
      assert cs[..m] == cs;
    } else {
      MergeRecordsAbortedStays(before, cs, m);
    }
  }

  /** The registration loop of `Awake` over the discovered files. */
  method RegisterRecipes(conversions: ConversionSet, files: seq<RecipeFile>, loadDefault: bool) returns (aborted: bool)
    requires conversions.Valid()
    modifies conversions
    ensures conversions.Valid()
    ensures Loaded(conversions.records, aborted) == LoadFiles(old(conversions.records), files, loadDefault)
  {
    ghost var rs0 := conversions.records;
    aborted := false;
    var n := 0;
    while n < |files| && !aborted
      invariant 0 <= n <= |files|
      invariant Loaded(conversions.records, aborted) == LoadFiles(rs0, files[..n], loadDefault)
    {
      assert files[..n + 1][..n] == files[..n];
      var f := files[n];
      if !Skipped(f, loadDefault) && f.records.Some? {
        aborted := MergeFile(conversions, f.records.value);
      }
      n := n + 1;
    }
    if aborted {
      LoadFilesAbortedAbsorbs(rs0, files, n, loadDefault);
    } else {
      assert files[..n] == files;
    }
    LoadFilesKeepsKeysDistinct(rs0, files, loadDefault);
  }

  lemma {:induction false} MergeRecordsAbortedStays(rs: seq<Conversion>, cs: seq<Conversion>, m: nat)
    requires m <= |cs| && MergeRecords(rs, cs[..m]).aborted
    ensures MergeRecords(rs, cs) == MergeRecords(rs, cs[..m])
    decreases |cs| - m
  {
    if m < |cs| {
      assert cs[..m + 1][..m] == cs[..m];
      MergeRecordsAbortedStays(rs, cs, m + 1);
    } else {
      assert cs[..m] == cs;
    }
  }

  lemma {:induction false} LoadFilesAbortedAbsorbs(rs: seq<Conversion>, files: seq<RecipeFile>, n: nat, loadDefault: bool)
    requires n <= |files| && LoadFiles(rs, files[..n], loadDefault).aborted
    ensures LoadFiles(rs, files, loadDefault) == LoadFiles(rs, files[..n], loadDefault)
    decreases |files| - n
  {
    if n < |files| {
      assert files[..n + 1][..n] == files[..n];
      LoadFilesAbortedAbsorbs(rs, files, n + 1, loadDefault);
    } else {
      assert files[..n] == files;
    }
  }
}
