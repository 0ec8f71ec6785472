/**
 * The 23 window slot-layout templates (`Window.types`), indexed by the window
 * type the server sends in an open-window packet. Every range is an INCLUSIVE
 * pair (first slot, last slot), and the player's own 36 slots come last (the
 * smoker entry, as written, starts them one slot early).
 */
module WindowTypes {
  import opened Wrappers

  datatype Range = Range(lo: int, hi: int)

  /** One entry of a template's `ranges` dictionary, in the dictionary's order. */
  datatype NamedRange = NamedRange(name: string, range: Range)

  datatype Template = Template(name: string, ranges: seq<NamedRange>, fullSize: nat)

  /** The number of templates; `Window.types[t]` accepts -TypeCount <= t < TypeCount. */
  const TypeCount: nat := 23

  /** The player's 27 storage slots and 9 hotbar slots, shown below every container. */
  const MainInventorySize: nat := 36

  const MainInventory: string := "main_inventory"

  function R(name: string, lo: int, hi: int): NamedRange {
    NamedRange(name, Range(lo, hi))
  }

  /** `ranges.get(name)`: the range stored under the first entry named `name`, if any. */
  function Lookup(ranges: seq<NamedRange>, name: string): (r: Option<Range>)
    ensures r.Some? <==> exists j :: 0 <= j < |ranges| && ranges[j].name == name
    ensures r.Some? ==> exists j :: 0 <= j < |ranges| && ranges[j] == NamedRange(name, r.value)
  {
    if ranges == [] then None
    else if ranges[0].name == name then Some(ranges[0].range)
    else Lookup(ranges[1..], name)
  }

  /**
   * The ranges cover the slots 0 .. full-1 exactly once and in order: each
   * range is non-empty and starts right after the previous one ends.
   */
  predicate Partition(ranges: seq<NamedRange>, full: int) {
    && |ranges| > 0
    && ranges[0].range.lo == 0
    && ranges[|ranges| - 1].range.hi == full - 1
    && (forall j :: 0 <= j < |ranges| ==> ranges[j].range.lo <= ranges[j].range.hi)
    && (forall j :: 0 < j < |ranges| ==> ranges[j].range.lo == ranges[j - 1].range.hi + 1)
  }

  /**
   * What every template is meant to satisfy: its ranges partition the window,
   * and the last one, the only one named `main_inventory`, is the player's
   * 36 slots ending at `fullSize - 1`.
   */
  predicate WellFormed(t: Template) {
    && Partition(t.ranges, t.fullSize)
    && t.ranges[|t.ranges| - 1] == R(MainInventory, t.fullSize - MainInventorySize, t.fullSize - 1)
    && (forall j :: 0 <= j < |t.ranges| - 1 ==> t.ranges[j].name != MainInventory)
  }

  /** The smoker entry exactly as the table writes it. */
  const SmokerAsWritten: Template :=
    Template("smoker", [R("ingredient", 0, 0), R("fuel", 1, 1), R("output", 2, 2), R("main_inventory", 2, 38)], 39)

  /** The smoker entry with `main_inventory` starting after `output`, as in the furnace entry. */
  const Smoker: Template :=
    Template("smoker", [R("ingredient", 0, 0), R("fuel", 1, 1), R("output", 2, 2), R("main_inventory", 3, 38)], 39)

  /** The index of the smoker entry in the table. */
  const SmokerType: nat := 20

  /** `Window.types`, entry for entry as the source writes it, the smoker entry included. */
  const Types: seq<Template> := [
    Template("generic_9x1", [R("row_0", 0, 8), R("main_inventory", 9, 44)], 45),
    Template("generic_9x2", [R("row_0", 0, 8), R("row_1", 9, 17), R("main_inventory", 18, 53)], 54),
    Template("generic_9x3", [R("row_0", 0, 8), R("row_1", 9, 17),
                    R("row_2", 18, 26), R("main_inventory", 27, 62)], 63),
    Template("generic_9x4", [R("row_0", 0, 8), R("row_1", 9, 17),
                    R("row_2", 18, 26), R("row_3", 27, 35), R("main_inventory", 36, 71)], 72),
    Template("generic_9x5", [R("row_0", 0, 8), R("row_1", 9, 17), R("row_2", 18, 26),
                    R("row_3", 27, 35), R("row_4", 36, 44), R("main_inventory", 45, 80)], 81),
    Template("generic_9x6", [R("row_0", 0, 8), R("row_1", 9, 17), R("row_2", 18, 26),
                    R("row_3", 27, 35), R("row_4", 36, 44), R("row_5", 45, 53), R("main_inventory", 54, 89)], 90),
    Template("generic_3x3", [R("row_0", 0, 2), R("row_1", 3, 5), R("row_2", 6, 8), R("main_inventory", 9, 44)], 45),
    Template("anvil", [R("first_item", 0, 0), R("second_item", 1, 1),
                    R("output", 2, 2), R("main_inventory", 3, 38)], 39),
    Template("beacon", [R("payment_item", 0, 0), R("main_inventory", 1, 36)], 37),
    Template("blast_furnace", [R("ingredient", 0, 0), R("fuel", 1, 1),
                    R("output", 2, 2), R("main_inventory", 3, 38)], 39),
    Template("brewing_stand", [R("bottles", 0, 2), R("ingredient", 3, 3),
                    R("blaze_power", 4, 4), R("main_inventory", 5, 40)], 41),
    Template("crafting_table", [R("output", 0, 0), R("input", 1, 9), R("main_inventory", 10, 45)], 46),
    Template("enchantment_table", [R("item", 0, 0), R("lapis_lazuli", 1, 1), R("main_inventory", 2, 37)], 38),
    Template("furnace", [R("ingredient", 0, 0), R("fuel", 1, 1), R("output", 2, 2), R("main_inventory", 3, 38)], 39),
    Template("grindstone", [R("top", 0, 0), R("bottom", 1, 1), R("output", 2, 2), R("main_inventory", 3, 38)], 39),
    Template("hopper", [R("slots", 0, 4), R("main_inventory", 5, 40)], 41),
    Template("lectern", [R("book", 0, 0), R("main_inventory", 1, 36)], 37),
    Template("loom", [R("banner", 0, 0), R("dye", 1, 1),
                    R("pattern", 2, 2), R("output", 3, 3), R("main_inventory", 4, 39)], 40),
    Template("villager_trading", [R("first_item", 0, 0), R("second_item", 1, 1),
                    R("output", 2, 2), R("main_inventory", 3, 38)], 39),
    Template("shulker_box", [R("row_0", 0, 8), R("row_1", 9, 17),
                    R("row_2", 18, 26), R("main_inventory", 27, 62)], 63),
    SmokerAsWritten,
    Template("cartography_table", [R("map", 0, 0), R("paper", 1, 1),
                    R("output", 2, 2), R("main_inventory", 3, 38)], 39),
    Template("stonecutter", [R("input", 0, 0), R("output", 1, 1), R("main_inventory", 2, 37)], 38)
  ]

  /**
   * As written, the smoker's `output` slot 2 is also the first `main_inventory`
   * slot, so the ranges do not partition the window.
   */
  lemma SmokerAsWrittenOverlaps()
    ensures Lookup(SmokerAsWritten.ranges, "output") == Some(Range(2, 2))
    ensures Lookup(SmokerAsWritten.ranges, MainInventory) == Some(Range(2, 38))
    ensures !WellFormed(SmokerAsWritten)
  {
    assert SmokerAsWritten.ranges[3].range.lo != SmokerAsWritten.ranges[2].range.hi + 1;
  }

  /** Entry 20 of the table is the smoker entry as written. */
  lemma SmokerEntry()
    ensures |Types| == TypeCount
    ensures Types[SmokerType] == SmokerAsWritten && !WellFormed(Types[SmokerType])
  {
    assert Types[20] == SmokerAsWritten;
    SmokerAsWrittenOverlaps();
  }

  /** With `main_inventory` moved to (3, 38), the smoker entry partitions its window like the furnace entry. */
  lemma CorrectedSmokerWellFormed()
    ensures WellFormed(Smoker)
    ensures Lookup(Smoker.ranges, MainInventory) == Some(Range(3, 38))
    ensures Smoker.ranges == SmokerAsWritten.ranges[3 := R(MainInventory, 3, 38)]
  {
    assert Smoker.ranges[3].range.lo == Smoker.ranges[2].range.hi + 1;
  }

  /**
   * Every template of the table except the smoker entry is well formed; the
   * smoker entry as written is not, and its correction is.
   */
  lemma TemplatesWellFormed()
    ensures |Types| == TypeCount
    ensures forall t :: 0 <= t < |Types| && t != SmokerType ==> WellFormed(Types[t])
    ensures Types[SmokerType] == SmokerAsWritten && !WellFormed(Types[SmokerType])
    ensures WellFormed(Smoker)
  {
    SmokerEntry();
    CorrectedSmokerWellFormed();
    forall t | 0 <= t < |Types| && t != SmokerType ensures WellFormed(Types[t]) {
      if t < 3 { FirstRowsWellFormed(t); }
      else if t < 6 { LargeRowsWellFormed(t); }
      else if t < 9 { GridAnvilBeaconWellFormed(t); }
      else if t < 12 { BlastBrewingCraftingWellFormed(t); }
      else if t < 15 { EnchantingFurnaceGrindstoneWellFormed(t); }
      else if t < 18 { HopperLecternLoomWellFormed(t); }
      else if t < 20 { TradingShulkerWellFormed(t); }
      else { CartographyStonecutterWellFormed(t); }
    }
  }

  // In the lemmas below, each `assert Types[k].ranges == Types[k].ranges` states
  // nothing new; it only makes the verifier unfold entry k of the literal table.

  lemma {:induction false} FirstRowsWellFormed(t: nat)
    requires 0 <= t < 3
    ensures WellFormed(Types[t])
  {
    if t == 0 { assert Types[0].ranges == Types[0].ranges; }
    else if t == 1 { assert Types[1].ranges == Types[1].ranges; }
    else if t == 2 { assert Types[2].ranges == Types[2].ranges; }
  }

  lemma {:induction false} LargeRowsWellFormed(t: nat)
    requires 3 <= t < 6
    ensures WellFormed(Types[t])
  {
    if t == 3 { assert Types[3].ranges == Types[3].ranges; }
    else if t == 4 { assert Types[4].ranges == Types[4].ranges; }
    else if t == 5 { assert Types[5].ranges == Types[5].ranges; }
  }

  lemma {:induction false} GridAnvilBeaconWellFormed(t: nat)
    requires 6 <= t < 9
    ensures WellFormed(Types[t])
  {
    if t == 6 { assert Types[6].ranges == Types[6].ranges; }
    else if t == 7 { assert Types[7].ranges == Types[7].ranges; }
    else if t == 8 { assert Types[8].ranges == Types[8].ranges; }
  }

  lemma {:induction false} BlastBrewingCraftingWellFormed(t: nat)
    requires 9 <= t < 12
    ensures WellFormed(Types[t])
  {
    if t == 9 { assert Types[9].ranges == Types[9].ranges; }
    else if t == 10 { assert Types[10].ranges == Types[10].ranges; }
    else if t == 11 { assert Types[11].ranges == Types[11].ranges; }
  }

  lemma {:induction false} EnchantingFurnaceGrindstoneWellFormed(t: nat)
    requires 12 <= t < 15
    ensures WellFormed(Types[t])
  {
    if t == 12 { assert Types[12].ranges == Types[12].ranges; }
    else if t == 13 { assert Types[13].ranges == Types[13].ranges; }
    else if t == 14 { assert Types[14].ranges == Types[14].ranges; }
  }

  lemma {:induction false} HopperLecternLoomWellFormed(t: nat)
    requires 15 <= t < 18
    ensures WellFormed(Types[t])
  {
    if t == 15 { assert Types[15].ranges == Types[15].ranges; }
    else if t == 16 { assert Types[16].ranges == Types[16].ranges; }
    else if t == 17 { assert Types[17].ranges == Types[17].ranges; }
  }

  lemma {:induction false} TradingShulkerWellFormed(t: nat)
    requires 18 <= t < 20
    ensures WellFormed(Types[t])
  {
    if t == 18 { assert Types[18].ranges == Types[18].ranges; }
    else if t == 19 { assert Types[19].ranges == Types[19].ranges; }
  }

  lemma {:induction false} CartographyStonecutterWellFormed(t: nat)
    requires 21 <= t < 23
    ensures WellFormed(Types[t])
  {
    if t == 21 { assert Types[21].ranges == Types[21].ranges; }
    else if t == 22 { assert Types[22].ranges == Types[22].ranges; }
  }

  /** The ranges of a partition lie inside the window: 0 <= lo <= hi < full for every range. */
  lemma {:induction false} RangesWithinWindow(ranges: seq<NamedRange>, full: int)
    requires Partition(ranges, full)
    ensures forall j :: 0 <= j < |ranges| ==> 0 <= ranges[j].range.lo <= ranges[j].range.hi < full
  {
    forall j | 0 <= j < |ranges|
      ensures 0 <= ranges[j].range.lo <= ranges[j].range.hi < full
    {
      RangeStartsLate(ranges, full, j);
      RangeEndsEarly(ranges, full, j);
    }
  }

  lemma {:induction false} RangeStartsLate(ranges: seq<NamedRange>, full: int, j: nat)
    requires Partition(ranges, full) && j < |ranges|
    ensures ranges[j].range.lo >= j
  {
    if j > 0 {
      RangeStartsLate(ranges, full, j - 1);
    }
  }

  lemma {:induction false} RangeEndsEarly(ranges: seq<NamedRange>, full: int, j: nat)
    requires Partition(ranges, full) && j < |ranges|
    ensures ranges[j].range.hi <= full - (|ranges| - j)
    decreases |ranges| - j
  {
    if j < |ranges| - 1 {
      RangeEndsEarly(ranges, full, j + 1);
    }
  }

  /**
   * Every range of every template of the table, the smoker entry as written
   * included, lies inside its window, and `main_inventory` ends at its last slot.
   */
  lemma TemplateRangesWithinWindow(t: nat)
    requires t < |Types|
    ensures forall j :: 0 <= j < |Types[t].ranges| ==>
      0 <= Types[t].ranges[j].range.lo <= Types[t].ranges[j].range.hi < Types[t].fullSize
    ensures Lookup(Types[t].ranges, MainInventory).Some?
    ensures Lookup(Types[t].ranges, MainInventory).value.hi == Types[t].fullSize - 1
  {
    TemplatesWellFormed();
    if t == SmokerType {
      SmokerAsWrittenWithinWindow();
      SmokerAsWrittenOverlaps();
    } else {
      RangesWithinWindow(Types[t].ranges, Types[t].fullSize);
      MainInventoryLookup(Types[t]);
    }
  }

  /** The smoker entry as written overlaps, but each of its ranges still lies inside the window. */
  lemma SmokerAsWrittenWithinWindow()
    ensures forall j :: 0 <= j < |SmokerAsWritten.ranges| ==>
      0 <= SmokerAsWritten.ranges[j].range.lo <= SmokerAsWritten.ranges[j].range.hi < SmokerAsWritten.fullSize
  {
    var rs := SmokerAsWritten.ranges;
    assert rs[0].range == Range(0, 0) && rs[1].range == Range(1, 1);
    assert rs[2].range == Range(2, 2) && rs[3].range == Range(2, 38);
  }


  /** In a well-formed template, `main_inventory` names the player's 36 slots at the end of the window. */
  lemma {:induction false} MainInventoryLookup(t: Template)
    requires WellFormed(t)
    ensures Lookup(t.ranges, MainInventory) == Some(Range(t.fullSize - MainInventorySize, t.fullSize - 1))
  {
    LookupLast(t.ranges, MainInventory);
  }

  lemma {:induction false} LookupLast(ranges: seq<NamedRange>, name: string)
    requires |ranges| > 0 && ranges[|ranges| - 1].name == name
    requires forall j :: 0 <= j < |ranges| - 1 ==> ranges[j].name != name
    ensures Lookup(ranges, name) == Some(ranges[|ranges| - 1].range)
  {
    if |ranges| > 1 {
      LookupLast(ranges[1..], name);
    }
  }
}
