/** The treasure-map alias merge of add_map_aliases.py: every old map name of
    the alias table gets a second name "陳舊的地圖G<n>" in the `by_name`
    dictionary of the item cache, mapping to the same item id. An existing
    entry is never overwritten, and the cache is rewritten only when at least
    one alias was added. */
module MapAliases {
  import opened Basics

  /** One row of `TREASURE_MAP_ALIASES`: old name, new alias, item id. */
  datatype AliasEntry = AliasEntry(oldName: string, alias: string, id: int)

  /** The dictionary and the three counters of the merge loop. */
  datatype Merge = Merge(byName: map<string, int>, added: nat, skipped: nat, verified: nat)

  /** `TREASURE_MAP_ALIASES`, in its insertion order. */
  const TreasureMapAliases: seq<AliasEntry> := [
    AliasEntry("陳舊的鞣革地圖", "陳舊的地圖G1", 6688),
    AliasEntry("陳舊的山羊革地圖", "陳舊的地圖G2", 6689),
    AliasEntry("陳舊的巨蟾蜍革地圖", "陳舊的地圖G3", 6690),
    AliasEntry("陳舊的野豬革地圖", "陳舊的地圖G4", 6691),
    AliasEntry("陳舊的毒蜥蜴革地圖", "陳舊的地圖G5", 6692),
    AliasEntry("陳舊的古鳥革地圖", "陳舊的地圖G6", 12241),
    AliasEntry("陳舊的飛龍革地圖", "陳舊的地圖G7", 12242),
    AliasEntry("陳舊的巨龍革地圖", "陳舊的地圖G8", 12243),
    AliasEntry("陳舊的迦迦納怪鳥革地圖", "陳舊的地圖G9", 17835),
    AliasEntry("陳舊的瞪羚革地圖", "陳舊的地圖G10", 17836),
    AliasEntry("陳舊的綠飄龍革地圖", "陳舊的地圖G11", 26744),
    AliasEntry("陳舊的纏尾蛟革地圖", "陳舊的地圖G12", 26745),
    AliasEntry("陳舊的賽加羚羊革地圖", "陳舊的地圖G13", 36611),
    AliasEntry("陳舊的金毗羅鱷革地圖", "陳舊的地圖G14", 36612),
    AliasEntry("陳舊的蛇牛革地圖", "陳舊的地圖G15", 39591),
    AliasEntry("陳舊的銀狼革地圖", "陳舊的地圖G16", 43556),
    AliasEntry("陳舊的獰豹革地圖", "陳舊的地圖G17", 43557)
  ]

  /** One iteration of the loop: count the old name as verified when it is
      present with the expected id; add the alias when it is absent, count it
      as skipped when it is present with the expected id, and leave a
      conflicting entry alone. */
  function Step(m: Merge, e: AliasEntry): Merge {
    var verified := if e.oldName in m.byName && m.byName[e.oldName] == e.id then m.verified + 1 else m.verified;
    if e.alias in m.byName then
      Merge(m.byName, m.added, if m.byName[e.alias] == e.id then m.skipped + 1 else m.skipped, verified)
    else
      Merge(m.byName[e.alias := e.id], m.added + 1, m.skipped, verified)
  }

  /** The state after the loop has run over `table`. */
  function Merged(byName: map<string, int>, table: seq<AliasEntry>): Merge {
    if table == [] then Merge(byName, 0, 0, 0)
    else Step(Merged(byName, table[..|table| - 1]), table[|table| - 1])
  }

  /** The merge loop of `main`. */
  method MergeAliases(byName: map<string, int>, table: seq<AliasEntry>)
    returns (merged: map<string, int>, added: nat, skipped: nat, verified: nat)
    ensures Merge(merged, added, skipped, verified) == Merged(byName, table)
  {
    merged := byName;
    added, skipped, verified := 0, 0, 0;
    var i := 0;
    while i < |table|
      invariant 0 <= i <= |table|
      invariant Merge(merged, added, skipped, verified) == Merged(byName, table[..i])
    {
      assert table[..i + 1][..i] == table[..i];
      var e := table[i];
      if e.oldName in merged {
        var actualId := merged[e.oldName];
        if actualId == e.id {
          verified := verified + 1;
        }
      }
      if e.alias in merged {
        var existingId := merged[e.alias];
        if existingId == e.id {
          skipped := skipped + 1;
        }
      } else {
        merged := merged[e.alias := e.id];
        added := added + 1;
      }
      i := i + 1;
    }
    assert table[..i] == table;
  }

  /** `main` without the file handling: the dictionary to write back, present
      exactly when some alias was added, and the counters it reports. */
  method AddMapAliases(byName: map<string, int>)
    returns (written: Option<map<string, int>>, added: nat, skipped: nat, verified: nat)
    ensures written.Some? <==> added > 0
    ensures var m := Merged(byName, TreasureMapAliases);
      && added == m.added && skipped == m.skipped && verified == m.verified
      && (written.Some? ==> written.value == m.byName)
  {
    var merged;
    merged, added, skipped, verified := MergeAliases(byName, TreasureMapAliases);
    written := if added > 0 then Some(merged) else None;
  }

  // ---------------------------------------------------------------------
  // Properties.
  // ---------------------------------------------------------------------

  function Aliases(table: seq<AliasEntry>): set<string> {
    set e | e in table :: e.alias
  }

  predicate DistinctAliases(table: seq<AliasEntry>) {
    forall i, j :: 0 <= i < j < |table| ==> table[i].alias != table[j].alias
  }

  predicate OldNamesAreNotAliases(table: seq<AliasEntry>) {
    forall i, j :: 0 <= i < |table| && 0 <= j < |table| ==> table[i].oldName != table[j].alias
  }

  /** An existing entry is never overwritten, and the keys afterwards are
      the keys before plus the aliases of the table. */
  lemma {:induction false} MergeKeepsEntries(byName: map<string, int>, table: seq<AliasEntry>)
    ensures forall k :: k in byName ==> k in Merged(byName, table).byName && Merged(byName, table).byName[k] == byName[k]
    ensures Merged(byName, table).byName.Keys == byName.Keys + Aliases(table)
    decreases |table|
  {
    if table != [] {
      var front := table[..|table| - 1];
      MergeKeepsEntries(byName, front);
      assert table == front + [table[|table| - 1]];
      assert Aliases(table) == Aliases(front) + {table[|table| - 1].alias};
    }
  }

  /** Every insertion adds a new key, so `added` is the growth of the
      dictionary. */
  lemma {:induction false} AddedCountsNewKeys(byName: map<string, int>, table: seq<AliasEntry>)
    ensures |Merged(byName, table).byName| == |byName| + Merged(byName, table).added
    decreases |table|
  {
    if table != [] {
      AddedCountsNewKeys(byName, table[..|table| - 1]);
    }
  }

  /** A key the table does not mention keeps its state. */
  lemma {:induction false} MergeLeavesOtherKeys(byName: map<string, int>, table: seq<AliasEntry>, k: string)
    requires k !in Aliases(table)
    ensures k in Merged(byName, table).byName <==> k in byName
    ensures k in byName ==> Merged(byName, table).byName[k] == byName[k]
    decreases |table|
  {
    if table != [] {
      FrontOfTable(table);
      MergeLeavesOtherKeys(byName, table[..|table| - 1], k);
    }
  }

  /** With distinct aliases, an alias that was absent maps to its expected
      id afterwards. */
  lemma {:induction false} AbsentAliasInserted(byName: map<string, int>, table: seq<AliasEntry>, i: nat)
    requires DistinctAliases(table)
    requires i < |table| && table[i].alias !in byName
    ensures table[i].alias in Merged(byName, table).byName
    ensures Merged(byName, table).byName[table[i].alias] == table[i].id
    decreases |table|
  {
    var front := table[..|table| - 1];
    if i < |table| - 1 {
      AbsentAliasInserted(byName, front, i);
    } else {
      FrontOfTable(table);
      MergeLeavesOtherKeys(byName, front, table[i].alias);
    }
  }

  function AliasAbsent(byName: map<string, int>): AliasEntry -> bool {
    (e: AliasEntry) => e.alias !in byName
  }

  function AliasPresentSame(byName: map<string, int>): AliasEntry -> bool {
    (e: AliasEntry) => e.alias in byName && byName[e.alias] == e.id
  }

  function OldNameMatches(byName: map<string, int>): AliasEntry -> bool {
    (e: AliasEntry) => e.oldName in byName && byName[e.oldName] == e.id
  }

  /** What dropping the last entry of a table keeps. */
  lemma FrontOfTable(table: seq<AliasEntry>)
    requires table != []
    ensures forall x :: x in table[..|table| - 1] ==> x in table
    ensures Aliases(table[..|table| - 1]) <= Aliases(table)
    ensures DistinctAliases(table) ==> table[|table| - 1].alias !in Aliases(table[..|table| - 1])
    ensures OldNamesAreNotAliases(table) ==>
              && OldNamesAreNotAliases(table[..|table| - 1])
              && table[|table| - 1].oldName !in Aliases(table[..|table| - 1])
  {
    var front, e := table[..|table| - 1], table[|table| - 1];
    assert forall x :: x in front ==> x in table;
    forall x | x in front
      ensures DistinctAliases(table) ==> x.alias != e.alias
      ensures OldNamesAreNotAliases(table) ==> x.alias != e.oldName
    {
      var j :| 0 <= j < |front| && front[j] == x;
      assert table[j] == x;
    }
  }

  /** With distinct aliases, none of which is an old name, the counters are
      measured against the dictionary as it was loaded: `added` counts the
      absent aliases, `skipped` the aliases present with the expected id and
      `verified` the old names present with the expected id. */
  lemma {:induction false} CountersSpec(byName: map<string, int>, table: seq<AliasEntry>)
    requires DistinctAliases(table)
    requires OldNamesAreNotAliases(table)
    ensures Merged(byName, table).added == |Filter(table, AliasAbsent(byName))|
    ensures Merged(byName, table).skipped == |Filter(table, AliasPresentSame(byName))|
    ensures Merged(byName, table).verified == |Filter(table, OldNameMatches(byName))|
    decreases |table|
  {
    if table != [] {
      var front, e := table[..|table| - 1], table[|table| - 1];
      FrontOfTable(table);
      CountersSpec(byName, front);
      MergeLeavesOtherKeys(byName, front, e.alias);
      MergeLeavesOtherKeys(byName, front, e.oldName);
    }
  }

  /** Running the merge a second time adds nothing, so the cache is not
      rewritten and the dictionary stays as it is. */
  lemma MergeIdempotent(byName: map<string, int>, table: seq<AliasEntry>)
    ensures var once := Merged(byName, table).byName;
      Merged(once, table).added == 0 && Merged(once, table).byName == once
  {
    var once := Merged(byName, table).byName;
    MergeKeepsEntries(byName, table);
    MergeKeepsEntries(once, table);
    AddedCountsNewKeys(once, table);
    assert Merged(once, table).byName.Keys == once.Keys;
  }

  /** The aliases "陳舊的地圖G1" to "陳舊的地圖G17": one digit for the first
      nine, two for the rest, ending in the digit of their position. */
  lemma AliasShape()
    ensures forall i :: 0 <= i < |TreasureMapAliases| ==>
      var a := TreasureMapAliases[i].alias;
      |a| == (if i < 9 then 7 else 8) && a[|a| - 1] as int == '0' as int + (if i < 9 then i + 1 else i - 9)
    ensures forall i :: 0 <= i < |TreasureMapAliases| ==>
      TreasureMapAliases[i].alias == "陳舊的地圖G" + NatToString(i + 1)
  {
  }

  /** Every old name ends in "地圖". */
  lemma OldNameShape()
    ensures forall i :: 0 <= i < |TreasureMapAliases| ==>
      var o := TreasureMapAliases[i].oldName;
      |o| >= 2 && o[|o| - 2..] == "地圖"
  {
  }

  /** The aliases of the table are pairwise different. */
  lemma TableAliasesDistinct()
    ensures DistinctAliases(TreasureMapAliases)
  {
    AliasShape();
    forall i, j | 0 <= i < j < |TreasureMapAliases|
      ensures TreasureMapAliases[i].alias != TreasureMapAliases[j].alias
    {
      var a, b := TreasureMapAliases[i].alias, TreasureMapAliases[j].alias;
      if |a| == |b| {
        assert a[|a| - 1] != b[|b| - 1];
      }
    }
  }

  /** No old name of the table is also one of its aliases. */
  lemma TableOldNamesAreNotAliases()
    ensures OldNamesAreNotAliases(TreasureMapAliases)
  {
    AliasShape();
    OldNameShape();
    forall i, j | 0 <= i < |TreasureMapAliases| && 0 <= j < |TreasureMapAliases|
      ensures TreasureMapAliases[i].oldName != TreasureMapAliases[j].alias
    {
      var o, a := TreasureMapAliases[i].oldName, TreasureMapAliases[j].alias;
      assert o[|o| - 1] != a[|a| - 1];
    }
  }
}
