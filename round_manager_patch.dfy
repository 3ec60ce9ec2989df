/**
 * The two hooks on `RoundManager.SpawnScrapInLevel`
 * (SCPCBDunGen/Hooks/RoundManagerPatch.cs): recipe records turned into
 * SCP-914 conversion tables, and the scrap spawn points of the SCP dungeon
 * pointed at the game's own item groups.
 */
module RoundManagerPatch {
  import opened Common
  import opened Scp914
  import opened Recipes

  // ---------------------------------------------------------------------------
  // Name lookups (`List<T>.Find`: the first match)
  // ---------------------------------------------------------------------------

  /** `lItems.Find(x => x.itemName.ToLowerInvariant() == lowerName)`. */
  function FindItem(items: seq<Item>, lowerName: string): (r: Option<Item>)
    ensures r.Some? ==>
              exists k :: 0 <= k < |items| && items[k] == r.value && Lower(items[k].itemName) == lowerName &&
                (forall j :: 0 <= j < k ==> Lower(items[j].itemName) != lowerName)
    ensures r.None? <==> forall k :: 0 <= k < |items| ==> Lower(items[k].itemName) != lowerName
  {
    if items == [] then None
    else if Lower(items[0].itemName) == lowerName then Some(items[0])
    else
      var r := FindItem(items[1..], lowerName);
      assert forall j :: 1 <= j < |items| ==> items[j] == items[1..][j - 1];
      r
  }

  function AssetName(i: Item): string { i.name }

  function GroupName(g: ItemGroup): string { g.name }

  /** `Find(x => x.name == name)` on a list of assets: the first one with that object name. */
  function FindNamed<T>(xs: seq<T>, nameOf: T -> string, name: string): (r: Option<T>)
    ensures r.Some? ==>
              exists k :: 0 <= k < |xs| && xs[k] == r.value && nameOf(xs[k]) == name &&
                (forall j :: 0 <= j < k ==> nameOf(xs[j]) != name)
    ensures r.None? <==> forall k :: 0 <= k < |xs| ==> nameOf(xs[k]) != name
  {
    if xs == [] then None
    else if nameOf(xs[0]) == name then Some(xs[0])
    else
      var r := FindNamed(xs[1..], nameOf, name);
      assert forall j :: 1 <= j < |xs| ==> xs[j] == xs[1..][j - 1];
      r
  }

  /** `itemsList.Find(x => x.name == name)`. */
  function FindItemNamed(items: seq<Item>, name: string): Option<Item>
  {
    FindNamed(items, AssetName, name)
  }

  /** `spawnPositionTypes.Find(x => x.name == name)`. */
  function FindGroup(groups: seq<ItemGroup>, name: string): Option<ItemGroup>
  {
    FindNamed(groups, GroupName, name)
  }

  // ---------------------------------------------------------------------------
  // AddConversions, item branch
  // ---------------------------------------------------------------------------

  /** What one candidate string becomes: an output (`None` destroys), nothing, or an exception. */
  datatype Candidate = Resolved(output: Option<Item>) | Skipped | Throws

  /**
   * One candidate of a column for input item `input`: "*" destroys, "@" keeps
   * the input, a '!' name targets an enemy (not an item output), any other
   * name is looked up ignoring case and skipped when unknown. Reading the
   * first character of an empty string throws.
   */
  function ResolveCandidate(items: seq<Item>, input: Item, name: string): (r: Candidate)
    ensures r.Throws? <==> name == ""
    ensures r == Resolved(None) <==> Lower(name) == "*"
    ensures Lower(name) == "@" ==> r == Resolved(Some(input))
    ensures r.Resolved? && r.output.Some? && Lower(name) != "@" ==>
              r.output.value in items && Lower(r.output.value.itemName) == Lower(name)
    ensures r.Skipped? <==>
              (name != "" && Lower(name) != "*" && Lower(name) != "@" &&
               (Lower(name)[0] == '!' || FindItem(items, Lower(name)).None?))
  {
    var lower := Lower(name);
    if lower == "*" then Resolved(None)
    else if lower == "@" then Resolved(Some(input))
    else if |lower| == 0 then Throws
    else if lower[0] == '!' then Skipped
    else
      match FindItem(items, lower)
      case None => Skipped
      case Some(target) => Resolved(Some(target))
  }

  /** `lConvertItems` built from one column, or `None` when a candidate throws. */
  function ResolveColumn(items: seq<Item>, input: Item, names: seq<string>): (r: Option<seq<Option<Item>>>)
    ensures r.None? <==> "" in names
    ensures r.Some? ==> |r.value| <= |names|
    decreases |names|
  {
    if names == [] then Some([])
    else
      var init := names[..|names| - 1];
      assert names == init + [names[|names| - 1]];
      var prev := ResolveColumn(items, input, init);
      if prev.None? then None
      else
        match ResolveCandidate(items, input, names[|names| - 1])
        case Throws => None
        case Skipped => prev
        case Resolved(o) => Some(prev.value + [o])
  }

  /** Every output in the list comes from a candidate of the column that resolves to it. */
  lemma {:induction false} ResolveColumnSound(items: seq<Item>, input: Item, names: seq<string>)
    requires "" !in names
    ensures forall o :: o in ResolveColumn(items, input, names).value ==>
              exists j :: 0 <= j < |names| && ResolveCandidate(items, input, names[j]) == Resolved(o)
    decreases |names|
  {
    if names != [] {
      var init := names[..|names| - 1];
      assert "" !in init;
      ResolveColumnSound(items, input, init);
      forall o | o in ResolveColumn(items, input, names).value
        ensures exists j :: 0 <= j < |names| && ResolveCandidate(items, input, names[j]) == Resolved(o)
      {
        if o in ResolveColumn(items, input, init).value {
          var j :| 0 <= j < |init| && ResolveCandidate(items, input, init[j]) == Resolved(o);
          assert names[j] == init[j];
        } else {
          assert ResolveCandidate(items, input, names[|names| - 1]) == Resolved(o);
        }
      }
    }
  }

  /** Every candidate that resolves contributes its output to the list. */
  lemma {:induction false} ResolveColumnComplete(items: seq<Item>, input: Item, names: seq<string>)
    requires "" !in names
    ensures forall j :: 0 <= j < |names| && ResolveCandidate(items, input, names[j]).Resolved? ==>
              ResolveCandidate(items, input, names[j]).output in ResolveColumn(items, input, names).value
    decreases |names|
  {
    if names != [] {
      var init := names[..|names| - 1];
      assert "" !in init;
      ResolveColumnComplete(items, input, init);
      forall j | 0 <= j < |names| && ResolveCandidate(items, input, names[j]).Resolved?
        ensures ResolveCandidate(items, input, names[j]).output in ResolveColumn(items, input, names).value
      {
        if j < |init| {
          assert names[j] == init[j];
        }
      }
    }
  }

  /** Resolving a concatenation of columns concatenates the resolved lists. */
  lemma {:induction false} ResolveColumnConcat(items: seq<Item>, input: Item, a: seq<string>, b: seq<string>)
    requires "" !in a && "" !in b
    ensures ResolveColumn(items, input, a + b) ==
            Some(ResolveColumn(items, input, a).value + ResolveColumn(items, input, b).value)
    decreases |b|
  {
    if b == [] {
      assert a + b == a;
      var ra := ResolveColumn(items, input, a).value;
      assert ra + [] == ra;
    } else {
      var b' := b[..|b| - 1];
      assert (a + b)[..|a + b| - 1] == a + b';
      assert (a + b)[|a + b| - 1] == b[|b| - 1];
      assert "" !in b';
      ResolveColumnConcat(items, input, a, b');
      var ra := ResolveColumn(items, input, a).value;
      var rb' := ResolveColumn(items, input, b').value;
      match ResolveCandidate(items, input, b[|b| - 1]) {
        case Skipped =>
        case Resolved(o) =>
          assert ra + rb' + [o] == ra + (rb' + [o]);
      }
    }
  }

  /** Naming a candidate twice puts it in the list twice, so it is drawn twice as often. */
  lemma RepeatedNamesRepeatOutputs(items: seq<Item>, input: Item, names: seq<string>)
    requires "" !in names
    ensures ResolveColumn(items, input, names + names) ==
            Some(ResolveColumn(items, input, names).value + ResolveColumn(items, input, names).value)
  {
    ResolveColumnConcat(items, input, names, names);
  }

  /**
   * The settings loop of `AddConversions` for the first `k` settings: each
   * setting gets its own column's outputs appended when there are any; an
   * exception stops the loop.
   */
  function ApplyUpTo(tables: seq<Table>, items: seq<Item>, input: Item, columns: seq<seq<string>>,
                     k: nat): (r: (seq<Table>, bool))
    requires |tables| == 5 && |columns| == 5 && k <= 5
    ensures |r.0| == 5
    ensures forall j :: k <= j < 5 ==> r.0[j] == tables[j]
    ensures r.1 <==> exists j :: 0 <= j < k && "" in columns[j]
    decreases k
  {
    if k == 0 then (tables, false)
    else
      var prev := ApplyUpTo(tables, items, input, columns, k - 1);
      if prev.1 then prev
      else
        match ResolveColumn(items, input, columns[k - 1])
        case None => (prev.0, true)
        case Some(outs) =>
          if |outs| > 0 then (prev.0[k - 1 := WithConversion(prev.0[k - 1], input, outs)], false)
          else prev
  }

  /** Setting `j`'s table after its own column when `AddConversion` is called only for non-empty lists. */
  function AfterColumn(t: Table, items: seq<Item>, input: Item, names: seq<string>): Table
    requires "" !in names
  {
    var outs := ResolveColumn(items, input, names).value;
    if |outs| > 0 then WithConversion(t, input, outs) else t
  }

  /** Without exceptions, each setting's table is changed by its own column alone. */
  lemma {:induction false} EachSettingUsesItsOwnColumn(tables: seq<Table>, items: seq<Item>, input: Item,
                                                    columns: seq<seq<string>>, k: nat)
    requires |tables| == 5 && |columns| == 5 && k <= 5
    requires forall j :: 0 <= j < 5 ==> "" !in columns[j]
    ensures !ApplyUpTo(tables, items, input, columns, k).1
    ensures forall j :: 0 <= j < k ==>
              ApplyUpTo(tables, items, input, columns, k).0[j] == AfterColumn(tables[j], items, input, columns[j])
    decreases k
  {
    if k > 0 {
      EachSettingUsesItsOwnColumn(tables, items, input, columns, k - 1);
    }
  }

  /** `AddConversions` for one record: `(tables, threw)`. */
  function ApplyRecord(tables: seq<Table>, items: seq<Item>, c: Conversion): (r: (seq<Table>, bool))
    requires |tables| == 5
    ensures |r.0| == 5
    ensures r.0 != tables ==> c.itemName != "" && FindItem(items, Lower(c.itemName)).Some?
    ensures r.1 <==>
              (c.itemName == "" ||
               (Lower(c.itemName)[0] != '!' && FindItem(items, Lower(c.itemName)).Some? &&
                exists j :: 0 <= j < 5 && "" in Columns(c)[j]))
  {
    if |c.itemName| == 0 then (tables, true)
    else
      var lower := Lower(c.itemName);
      if lower[0] == '!' then (tables, false)
      else
        match FindItem(items, lower)
        case None => (tables, false)
        case Some(input) => ApplyUpTo(tables, items, input, Columns(c), 5)
  }

  /** `SCP914Configuration`'s loop over the records; an exception leaves the rest unapplied. */
  function ApplyAll(tables: seq<Table>, items: seq<Item>, records: seq<Conversion>): (r: (seq<Table>, bool))
    requires |tables| == 5
    ensures |r.0| == 5
    decreases |records|
  {
    if records == [] then (tables, false)
    else
      var prev := ApplyAll(tables, items, records[..|records| - 1]);
      if prev.1 then prev else ApplyRecord(prev.0, items, records[|records| - 1])
  }

  lemma WithConversionTwice(t: Table, input: Item, x: seq<Option<Item>>, y: seq<Option<Item>>)
    ensures WithConversion(WithConversion(t, input, x), input, y) == WithConversion(t, input, x + y)
  {
    var lhs := WithConversion(WithConversion(t, input, x), input, y);
    var rhs := WithConversion(t, input, x + y);
    assert lhs.Keys == rhs.Keys;
    assert lhs[input] == rhs[input];
  }

  lemma AfterColumnTwice(t: Table, items: seq<Item>, input: Item, a: seq<string>, b: seq<string>)
    requires "" !in a && "" !in b && "" !in a + b
    ensures AfterColumn(AfterColumn(t, items, input, a), items, input, b) == AfterColumn(t, items, input, a + b)
  {
    ResolveColumnConcat(items, input, a, b);
    var oa := ResolveColumn(items, input, a).value;
    var ob := ResolveColumn(items, input, b).value;
    if |oa| > 0 && |ob| > 0 {
      WithConversionTwice(t, input, oa, ob);
    } else if |oa| == 0 {
      assert oa + ob == ob;
    } else {
      assert oa + ob == oa;
    }
  }

  /** All five tables after their own columns. */
  function AfterColumns(tables: seq<Table>, items: seq<Item>, input: Item, cols: seq<seq<string>>): seq<Table>
    requires |tables| == 5 && |cols| == 5
    requires forall j :: 0 <= j < 5 ==> "" !in cols[j]
  {
    [AfterColumn(tables[0], items, input, cols[0]), AfterColumn(tables[1], items, input, cols[1]),
     AfterColumn(tables[2], items, input, cols[2]), AfterColumn(tables[3], items, input, cols[3]),
     AfterColumn(tables[4], items, input, cols[4])]
  }

  lemma SettingsLoopIsAfterColumns(tables: seq<Table>, items: seq<Item>, input: Item, cols: seq<seq<string>>)
    requires |tables| == 5 && |cols| == 5
    requires forall j :: 0 <= j < 5 ==> "" !in cols[j]
    ensures ApplyUpTo(tables, items, input, cols, 5) == (AfterColumns(tables, items, input, cols), false)
  {
    EachSettingUsesItsOwnColumn(tables, items, input, cols, 5);
    var r := ApplyUpTo(tables, items, input, cols, 5).0;
    assert r == [r[0], r[1], r[2], r[3], r[4]];
  }

  /** The settings loop over concatenated columns is the loop over the first, then over the second. */
  lemma SettingsOverConcatenatedColumns(tables: seq<Table>, items: seq<Item>, input: Item,
                                        cc: seq<seq<string>>, dd: seq<seq<string>>, mm: seq<seq<string>>)
    requires |tables| == 5 && |cc| == 5 && |dd| == 5 && |mm| == 5
    requires forall j :: 0 <= j < 5 ==> "" !in cc[j] && "" !in dd[j] && mm[j] == cc[j] + dd[j]
    ensures ApplyUpTo(tables, items, input, mm, 5) ==
            ApplyUpTo(ApplyUpTo(tables, items, input, cc, 5).0, items, input, dd, 5)
  {
    forall j | 0 <= j < 5
      ensures "" !in mm[j]
    {
    }
    SettingsLoopIsAfterColumns(tables, items, input, cc);
    var t1 := AfterColumns(tables, items, input, cc);
    SettingsLoopIsAfterColumns(t1, items, input, dd);
    SettingsLoopIsAfterColumns(tables, items, input, mm);
    AfterColumnTwice(tables[0], items, input, cc[0], dd[0]);
    AfterColumnTwice(tables[1], items, input, cc[1], dd[1]);
    AfterColumnTwice(tables[2], items, input, cc[2], dd[2]);
    AfterColumnTwice(tables[3], items, input, cc[3], dd[3]);
    AfterColumnTwice(tables[4], items, input, cc[4], dd[4]);
  }

  /**
   * Records merged at load time configure the converter as the two records
   * one after the other would: merging in `Awake` loses no conversion.
   */
  lemma MergedRecordConfiguresAsBoth(tables: seq<Table>, items: seq<Item>, c: Conversion, d: Conversion)
    requires |tables| == 5
    requires Lower(c.itemName) == Lower(d.itemName)
    requires forall j :: 0 <= j < 5 ==> "" !in Columns(c)[j] && "" !in Columns(d)[j]
    ensures ApplyRecord(tables, items, Extended(c, d)) == ApplyRecord(ApplyRecord(tables, items, c).0, items, d)
  {
    if |c.itemName| > 0 && Lower(c.itemName)[0] != '!' && FindItem(items, Lower(c.itemName)).Some? {
      var input := FindItem(items, Lower(c.itemName)).value;
      SettingsOverConcatenatedColumns(tables, items, input, Columns(c), Columns(d), Columns(Extended(c, d)));
    }
  }

  /** The candidate loop of `AddConversions` for one setting. */
  method ResolveNames(items: seq<Item>, input: Item, names: seq<string>) returns (r: Option<seq<Option<Item>>>)
    ensures r == ResolveColumn(items, input, names)
  {
    var outs: seq<Option<Item>> := [];
    var i := 0;
    while i < |names|
      invariant 0 <= i <= |names|
      invariant ResolveColumn(items, input, names[..i]) == Some(outs)
    {
      assert names[..i + 1][..i] == names[..i];
      match ResolveCandidate(items, input, names[i]) {
        case Throws =>
          ResolveColumnThrowStays(items, input, names, i + 1);
          return None;
        case Skipped =>
        case Resolved(o) =>
          outs := outs + [o];
      }
      i := i + 1;
    }
    assert names[..i] == names;
    return Some(outs);
  }

  lemma ResolveColumnThrowStays(items: seq<Item>, input: Item, names: seq<string>, i: nat)
    requires i <= |names| && ResolveColumn(items, input, names[..i]).None?
    ensures ResolveColumn(items, input, names).None?
  {
    assert "" in names[..i];
  }

  lemma {:induction false} ApplyUpToThrowStays(tables: seq<Table>, items: seq<Item>, input: Item,
                                               columns: seq<seq<string>>, k: nat)
    requires |tables| == 5 && |columns| == 5 && k <= 5
    requires ApplyUpTo(tables, items, input, columns, k).1
    ensures ApplyUpTo(tables, items, input, columns, 5) == ApplyUpTo(tables, items, input, columns, k)
    decreases 5 - k
  {
    if k < 5 {
      ApplyUpToThrowStays(tables, items, input, columns, k + 1);
    }
  }

  /** `AddConversions` on the converter `conv`, item branch. */
  method AddConversions(conv: Converter, items: seq<Item>, c: Conversion) returns (threw: bool)
    requires conv.Valid()
    modifies conv
    ensures conv.Valid()
    ensures (conv.tables, threw) == ApplyRecord(old(conv.tables), items, c)
    ensures conv.state == old(conv.state) && conv.active == old(conv.active) && conv.phase == old(conv.phase)
    ensures conv.log == old(conv.log) && conv.nextRef == old(conv.nextRef)
  {
    if |c.itemName| == 0 {
      return true;
    }
    var lower := Lower(c.itemName);
    if lower[0] == '!' {
      return false;
    }
    var found := FindItem(items, lower);
    if found.None? {
      return false;
    }
    threw := AddColumns(conv, items, found.value, Columns(c));
  }

  /** The settings loop of `AddConversions`: one column per setting, stopping at an exception. */
  method AddColumns(conv: Converter, items: seq<Item>, input: Item, columns: seq<seq<string>>) returns (threw: bool)
    requires conv.Valid() && |columns| == 5
    modifies conv
    ensures conv.Valid()
    ensures (conv.tables, threw) == ApplyUpTo(old(conv.tables), items, input, columns, 5)
    ensures conv.state == old(conv.state) && conv.active == old(conv.active) && conv.phase == old(conv.phase)
    ensures conv.log == old(conv.log) && conv.nextRef == old(conv.nextRef)
  {
    ghost var t0 := conv.tables;
    threw := false;
    var k := 0;
    while k < 5 && !threw
      invariant 0 <= k <= 5
      invariant conv.Valid()
      invariant (conv.tables, threw) == ApplyUpTo(t0, items, input, columns, k)
      invariant conv.state == old(conv.state) && conv.active == old(conv.active) && conv.phase == old(conv.phase)
      invariant conv.log == old(conv.log) && conv.nextRef == old(conv.nextRef)
    {
      var outs := ResolveNames(items, input, columns[k]);
      if outs.None? {
        threw := true;
      } else if |outs.value| > 0 {
        conv.AddConversion(SettingAt(k), input, outs.value);
      }
      k := k + 1;
    }
    if threw {
      ApplyUpToThrowStays(t0, items, input, columns, k);
    }
  }

  /** What the configuration hook does, in order. */
  datatype HookStep = OriginalSpawn | ConfigureRefiner

  /**
   * `SCP914Configuration`: the original spawn always runs first; then only
   * the "SCPFlow" dungeon with a converter and a non-empty item list is
   * configured, with the records in collection order.
   */
  method Scp914Configuration(flowName: string, conv: Converter?, items: seq<Item>, records: seq<Conversion>)
    returns (configured: bool, threw: bool, trace: seq<HookStep>)
    requires conv != null ==> conv.Valid()
    modifies conv
    ensures trace == [OriginalSpawn] + (if configured then [ConfigureRefiner] else [])
    ensures configured <==> flowName == "SCPFlow" && conv != null && |items| > 0
    ensures conv != null ==> conv.Valid()
    ensures configured ==> (conv.tables, threw) == ApplyAll(old(conv.tables), items, records)
    ensures !configured ==> !threw && (conv != null ==> conv.tables == old(conv.tables))
    ensures conv != null ==>
      && conv.state == old(conv.state) && conv.active == old(conv.active) && conv.phase == old(conv.phase)
      && conv.log == old(conv.log) && conv.nextRef == old(conv.nextRef)
  {
    configured, threw := false, false;
    trace := [OriginalSpawn];
    if flowName != "SCPFlow" || conv == null || |items| == 0 {
      return;
    }
    configured := true;
    threw := AddAllConversions(conv, items, records);
    trace := trace + [ConfigureRefiner];
  }

  /** The `foreach` of `SCP914Configuration` over the records. */
  method AddAllConversions(conv: Converter, items: seq<Item>, records: seq<Conversion>) returns (threw: bool)
    requires conv.Valid()
    modifies conv
    ensures conv.Valid()
    ensures (conv.tables, threw) == ApplyAll(old(conv.tables), items, records)
    ensures conv.state == old(conv.state) && conv.active == old(conv.active) && conv.phase == old(conv.phase)
    ensures conv.log == old(conv.log) && conv.nextRef == old(conv.nextRef)
  {
    threw := false;
    ghost var t0 := conv.tables;
    var n := 0;
    while n < |records| && !threw
      invariant 0 <= n <= |records|
      invariant conv.Valid()
      invariant (conv.tables, threw) == ApplyAll(t0, items, records[..n])
      invariant conv.state == old(conv.state) && conv.active == old(conv.active) && conv.phase == old(conv.phase)
      invariant conv.log == old(conv.log) && conv.nextRef == old(conv.nextRef)
    {
      threw := AddRecordAt(conv, items, records, n, t0);
      n := n + 1;
    }
    if threw {
      ApplyAllThrowStays(t0, items, records, n);
    } else {
      assert records[..n] == records;
    }
  }

  /** One pass of that loop: the next record is applied to the tables built so far. */
  method AddRecordAt(conv: Converter, items: seq<Item>, records: seq<Conversion>, n: nat, ghost t0: seq<Table>)
    returns (threw: bool)
    requires conv.Valid() && |t0| == 5 && n < |records|
    requires (conv.tables, false) == ApplyAll(t0, items, records[..n])
    modifies conv
    ensures conv.Valid()
    ensures (conv.tables, threw) == ApplyAll(t0, items, records[..n + 1])
    ensures conv.state == old(conv.state) && conv.active == old(conv.active) && conv.phase == old(conv.phase)
    ensures conv.log == old(conv.log) && conv.nextRef == old(conv.nextRef)
  {
    ApplyAllStep(t0, items, records, n);
    threw := AddConversions(conv, items, records[n]);
  }

  lemma ApplyAllStep(tables: seq<Table>, items: seq<Item>, records: seq<Conversion>, n: nat)
    requires |tables| == 5 && n < |records|
    ensures var prev := ApplyAll(tables, items, records[..n]);
      ApplyAll(tables, items, records[..n + 1]) ==
        if prev.1 then prev else ApplyRecord(prev.0, items, records[n])
  {
    assert records[..n + 1][..n] == records[..n];
  }

  lemma {:induction false} ApplyAllThrowStays(tables: seq<Table>, items: seq<Item>, records: seq<Conversion>, n: nat)
    requires |tables| == 5 && n <= |records| && ApplyAll(tables, items, records[..n]).1
    ensures ApplyAll(tables, items, records) == ApplyAll(tables, items, records[..n])
    decreases |records| - n
  {
    if n < |records| {
      assert records[..n + 1][..n] == records[..n];
      ApplyAllThrowStays(tables, items, records, n + 1);
    } else {
      assert records[..n] == records;
    }
  }

  // ---------------------------------------------------------------------------
  // SetItemSpawnPoints
  // ---------------------------------------------------------------------------

  /** The game's item groups found on the reference items. */
  datatype Groups = Groups(general: Option<ItemGroup>, tabletop: Option<ItemGroup>, small: Option<ItemGroup>)

  /**
   * `r` is the group `Find(x => x.name == name)` returns on `groups`: the
   * first group with that name, or null exactly when no group has it.
   */
  predicate FirstGroupNamed(groups: seq<ItemGroup>, name: string, r: Option<ItemGroup>)
  {
    && (r.None? <==> forall k :: 0 <= k < |groups| ==> groups[k].name != name)
    && (r.Some? ==>
          exists k :: 0 <= k < |groups| && groups[k] == r.value && groups[k].name == name &&
            forall j :: 0 <= j < k ==> groups[j].name != name)
  }

  /**
   * General and tabletop groups from "BottleBin"; the small group from
   * "FancyCup", or the tabletop group when that item is missing.
   */
  function GroupsFor(items: seq<Item>): (g: Groups)
    requires FindItemNamed(items, "BottleBin").Some?
    ensures var bottle := FindItemNamed(items, "BottleBin").value;
      && FirstGroupNamed(bottle.spawnPositionTypes, "GeneralItemClass", g.general)
      && FirstGroupNamed(bottle.spawnPositionTypes, "TabletopItems", g.tabletop)
    ensures FindItemNamed(items, "FancyCup").None? ==> g.small == g.tabletop
    ensures FindItemNamed(items, "FancyCup").Some? ==>
              FirstGroupNamed(FindItemNamed(items, "FancyCup").value.spawnPositionTypes, "SmallItems", g.small)
  {
    var bottle := FindItemNamed(items, "BottleBin").value;
    var general := FindGroup(bottle.spawnPositionTypes, "GeneralItemClass");
    var tabletop := FindGroup(bottle.spawnPositionTypes, "TabletopItems");
    var small := match FindItemNamed(items, "FancyCup")
      case None => tabletop
      case Some(fancy) => FindGroup(fancy.spawnPositionTypes, "SmallItems");
    Groups(general, tabletop, small)
  }

  /** The `switch` on one spawn's group name. */
  function Reassigned(slot: ItemGroup, g: Groups): Option<ItemGroup>
  {
    if slot.name == "GeneralItemClass" then g.general
    else if slot.name == "TabletopItems" then g.tabletop
    else if slot.name == "SmallItems" then g.small
    else Some(slot)
  }

  /** Every slot is holding a group (none would throw). */
  predicate AllSet(s: seq<Option<ItemGroup>>)
  {
    forall i :: 0 <= i < |s| ==> s[i].Some?
  }

  function ReassignAll(s: seq<Option<ItemGroup>>, g: Groups): (r: seq<Option<ItemGroup>>)
    requires AllSet(s)
    ensures |r| == |s|
    decreases |s|
  {
    if s == [] then []
    else ReassignAll(s[..|s| - 1], g) + [Reassigned(s[|s| - 1].value, g)]
  }

  lemma {:induction false} ReassignAllAt(s: seq<Option<ItemGroup>>, g: Groups, i: nat)
    requires AllSet(s) && i < |s|
    ensures ReassignAll(s, g)[i] == Reassigned(s[i].value, g)
    decreases |s|
  {
    if i < |s| - 1 {
      ReassignAllAt(s[..|s| - 1], g, i);
    }
  }

  /**
   * A slot whose kind has no group found is left null, so a second pass over
   * the reassigned slots (the hook subscribed twice) throws on it.
   */
  lemma MissingGroupLeavesNull(s: seq<Option<ItemGroup>>, g: Groups, i: nat)
    requires AllSet(s) && i < |s| && Reassigned(s[i].value, g).None?
    ensures None in ReassignAll(s, g)
    ensures ReachedSlots(ReassignAll(s, g)) < |s|
  {
    ReassignAllAt(s, g, i);
  }

  /** The number of slots holding a group named `name`. */
  function CountNamed(s: seq<Option<ItemGroup>>, name: string): (n: nat)
    ensures n <= |s|
    decreases |s|
  {
    if s == [] then 0
    else CountNamed(s[..|s| - 1], name) + (if s[|s| - 1].Some? && s[|s| - 1].value.name == name then 1 else 0)
  }

  /** The groups found are named as looked up, so a second pass changes nothing more. */
  lemma {:induction false} ReassignIsIdempotent(s: seq<Option<ItemGroup>>, g: Groups)
    requires AllSet(s)
    requires g.general.Some? && g.general.value.name == "GeneralItemClass"
    requires g.tabletop.Some? && g.tabletop.value.name == "TabletopItems"
    requires g.small.Some? && (g.small == g.tabletop || g.small.value.name == "SmallItems")
    ensures AllSet(ReassignAll(s, g))
    ensures ReassignAll(ReassignAll(s, g), g) == ReassignAll(s, g)
    decreases |s|
  {
    if s != [] {
      var init := s[..|s| - 1];
      ReassignIsIdempotent(init, g);
      var r := ReassignAll(s, g);
      assert r[..|r| - 1] == ReassignAll(init, g);
    }
  }

  /** How many spawns the loop gets through: up to the first null `spawnableItems`, or all. */
  function ReachedSlots(s: seq<Option<ItemGroup>>): (n: nat)
    ensures n <= |s| && AllSet(s[..n])
    ensures n < |s| <==> None in s
    ensures n < |s| ==> s[n].None?
  {
    if None in s then
      var k := FirstIndex(s, None);
      assert forall j :: 0 <= j < k ==> s[j] == s[..k][j];
      k
    else |s|
  }

  lemma LoopReachesNull(s: seq<Option<ItemGroup>>, i: nat)
    requires i < |s| && s[i].None? && AllSet(s[..i])
    ensures ReachedSlots(s) == i
  {
  }

  lemma LoopStep(s: seq<Option<ItemGroup>>, i: nat, g: Groups)
    requires i < |s| && AllSet(s[..i]) && s[i].Some?
    ensures AllSet(s[..i + 1])
    ensures ReassignAll(s[..i + 1], g) == ReassignAll(s[..i], g) + [Reassigned(s[i].value, g)]
    ensures CountNamed(s[..i + 1], "GeneralItemClass") ==
              CountNamed(s[..i], "GeneralItemClass") + (if s[i].value.name == "GeneralItemClass" then 1 else 0)
    ensures CountNamed(s[..i + 1], "TabletopItems") ==
              CountNamed(s[..i], "TabletopItems") + (if s[i].value.name == "TabletopItems" then 1 else 0)
    ensures CountNamed(s[..i + 1], "SmallItems") ==
              CountNamed(s[..i], "SmallItems") + (if s[i].value.name == "SmallItems" then 1 else 0)
  {
    assert s[..i + 1][..i] == s[..i];
  }

  lemma SpliceAt<T>(s: seq<T>, a: seq<T>, b: seq<T>, x: T)
    requires s == a + b && |b| > 0
    ensures s[|a| := x] == a + [x] + b[1..]
  {
  }

  /** The `switch` on one spawn: its group is replaced and its kind counted. */
  method ReassignSlot(spawns: array<Option<ItemGroup>>, i: nat, g: Groups, general: nat, tabletop: nat, small: nat)
    returns (general': nat, tabletop': nat, small': nat)
    requires i < spawns.Length && spawns[i].Some?
    modifies spawns
    ensures spawns[..] == old(spawns[..])[i := Reassigned(old(spawns[i]).value, g)]
    ensures general' == general + (if old(spawns[i]).value.name == "GeneralItemClass" then 1 else 0)
    ensures tabletop' == tabletop + (if old(spawns[i]).value.name == "TabletopItems" then 1 else 0)
    ensures small' == small + (if old(spawns[i]).value.name == "SmallItems" then 1 else 0)
  {
    general', tabletop', small' := general, tabletop, small;
    var slot := spawns[i].value;
    if slot.name == "GeneralItemClass" {
      spawns[i] := g.general;
      general' := general + 1;
    } else if slot.name == "TabletopItems" {
      spawns[i] := g.tabletop;
      tabletop' := tabletop + 1;
    } else if slot.name == "SmallItems" {
      spawns[i] := g.small;
      small' := small + 1;
    }
  }

  /** What one run of `SetItemSpawnPoints` reports. */
  datatype SpawnReport = SpawnReport(general: nat, tabletop: nat, small: nat, warned: bool,
                                     threw: bool, calledOriginal: bool)

  /** `SetItemSpawnPoints`, over the `RandomScrapSpawn`s' `spawnableItems` (`None` for null). */
  method SetItemSpawnPoints(flowName: string, allItems: Option<seq<Item>>, spawns: array<Option<ItemGroup>>)
    returns (report: SpawnReport)
    modifies spawns
    ensures !(flowName == "SCPFlow" && allItems.Some? && FindItemNamed(allItems.value, "BottleBin").Some?) ==>
              spawns[..] == old(spawns[..]) && report == SpawnReport(0, 0, 0, false, false, true)
    ensures flowName == "SCPFlow" && allItems.Some? && FindItemNamed(allItems.value, "BottleBin").Some? ==>
      var g := GroupsFor(allItems.value);
      var s0 := old(spawns[..]);
      var n := ReachedSlots(s0);
      && spawns[..] == ReassignAll(s0[..n], g) + s0[n..]
      && report.general == CountNamed(s0[..n], "GeneralItemClass")
      && report.tabletop == CountNamed(s0[..n], "TabletopItems")
      && report.small == CountNamed(s0[..n], "SmallItems")
      && (report.threw <==> None in s0)
      && (report.calledOriginal <==> !report.threw)
      && (report.warned <==> !report.threw && report.general + report.tabletop + report.small < 10)
  {
    if flowName != "SCPFlow" || allItems.None? || FindItemNamed(allItems.value, "BottleBin").None? {
      return SpawnReport(0, 0, 0, false, false, true);
    }
    var g := GroupsFor(allItems.value);
    ghost var s0 := spawns[..];
    var general, tabletop, small := 0, 0, 0;
    var i := 0;
    while i < spawns.Length
      invariant 0 <= i <= spawns.Length
      invariant AllSet(s0[..i])
      invariant spawns[..] == ReassignAll(s0[..i], g) + s0[i..]
      invariant general == CountNamed(s0[..i], "GeneralItemClass")
      invariant tabletop == CountNamed(s0[..i], "TabletopItems")
      invariant small == CountNamed(s0[..i], "SmallItems")
    {
      assert spawns[i] == s0[i];
      if spawns[i].None? {
        LoopReachesNull(s0, i);
        // the null reference throws before `original` is reached
        return SpawnReport(general, tabletop, small, false, true, false);
      }
      var slot := spawns[i].value;
      LoopStep(s0, i, g);
      SpliceAt(spawns[..], ReassignAll(s0[..i], g), s0[i..], Reassigned(slot, g));
      general, tabletop, small := ReassignSlot(spawns, i, g, general, tabletop, small);
      assert s0[i..][1..] == s0[i + 1..];
      i := i + 1;
    }
    assert s0[..i] == s0;
    var warned := general + tabletop + small < 10;
    return SpawnReport(general, tabletop, small, warned, false, true);
  }
}
