/**
 * The client's open window and slot inventory (QuarryPlayer.py, classes
 * Window and Inventory). The inventory owns the slot array and the single
 * open window; the window points back to its inventory, whose slot array
 * `Window.create` replaces.
 */
module Inventories {
  import opened Wrappers
  import opened Slots
  import opened WindowTypes
  import opened Confirmations

  /** `ranges.get(name, (0, len(slots)))`: a template range, or the whole slot list for an unknown name. */
  function RangeOf(ranges: seq<NamedRange>, name: string, slotCount: nat): (r: Range)
    ensures Lookup(ranges, name).Some? ==> r == Lookup(ranges, name).value
    ensures Lookup(ranges, name).None? ==> r == Range(0, slotCount)
  {
    match Lookup(ranges, name)
    case Some(r) => r
    case None => Range(0, slotCount)
  }

  /**
   * `window[name]` as written: `slots[lo:hi]`, which EXCLUDES the range's last
   * slot `hi`, and the whole slot list for a name the window does not define.
   */
  function ItemsAsWritten(ranges: seq<NamedRange>, name: string, slots: seq<SlotValue>): (r: seq<SlotValue>)
    ensures |r| <= |slots|
    ensures Lookup(ranges, name).None? ==> r == slots
    ensures Lookup(ranges, name).Some? && 0 <= Lookup(ranges, name).value.lo <= Lookup(ranges, name).value.hi <= |slots|
            ==> r == slots[Lookup(ranges, name).value.lo .. Lookup(ranges, name).value.hi]
  {
    var r := RangeOf(ranges, name, |slots|);
    Slice(slots, r.lo, r.hi)
  }

  /**
   * `window[name]` as the inclusive template ranges mean it: slots `lo` through
   * `hi`, and the whole slot list for a name the window does not define.
   */
  function Items(ranges: seq<NamedRange>, name: string, slots: seq<SlotValue>): (r: seq<SlotValue>)
    ensures Lookup(ranges, name).None? ==> r == slots
    ensures Lookup(ranges, name).Some? && 0 <= Lookup(ranges, name).value.lo <= Lookup(ranges, name).value.hi < |slots|
            ==> r == slots[Lookup(ranges, name).value.lo .. Lookup(ranges, name).value.hi + 1]
  {
    match Lookup(ranges, name)
    case Some(range) => Slice(slots, range.lo, range.hi + 1)
    case None => slots
  }

  /**
   * In a freshly created generic_9x1 window, `window["row_0"]` as written yields
   * 8 slots although the row is slots 0 through 8; the inclusive reading yields all 9.
   */
  lemma RowItemsAsWrittenDropsLastSlot(slots: seq<SlotValue>)
    requires |slots| == Types[0].fullSize
    ensures Lookup(Types[0].ranges, "row_0") == Some(Range(0, 8))
    ensures ItemsAsWritten(Types[0].ranges, "row_0", slots) == slots[0..8]
    ensures Items(Types[0].ranges, "row_0", slots) == slots[0..9]
  {
  }

  /**
   * Under the inclusive reading of the ranges, after the window is created the
   * player's 36 slots are the last 36 slots of the window, for every template
   * but the smoker entry, whose `main_inventory` as written is 37 slots.
   */
  lemma MainInventoryItems(t: nat, slots: seq<SlotValue>)
    requires t < |Types| && |slots| == Types[t].fullSize
    ensures t != SmokerType ==> |Items(Types[t].ranges, MainInventory, slots)| == MainInventorySize
    ensures t != SmokerType ==> Items(Types[t].ranges, MainInventory, slots) == slots[|slots| - MainInventorySize..]
    ensures t == SmokerType ==> |Items(Types[t].ranges, MainInventory, slots)| == MainInventorySize + 1
    ensures t == SmokerType ==> Items(Types[t].ranges, MainInventory, slots) == slots[2..]
  {
    TemplatesWellFormed();
    if t == SmokerType {
      SmokerAsWrittenOverlaps();
      KnownRangeItems(Types[t].ranges, MainInventory, slots, 2, 38);
    } else {
      WellFormedMainInventoryItems(Types[t], slots);
    }
  }

  /**
   * `window["main_inventory"]` as written: the 35 slots before the window's last
   * one for every template but the smoker entry, and slots 2 to 37 for that one.
   */
  lemma MainInventoryItemsAsWritten(t: nat, slots: seq<SlotValue>)
    requires t < |Types| && |slots| == Types[t].fullSize
    ensures t != SmokerType ==> |ItemsAsWritten(Types[t].ranges, MainInventory, slots)| == MainInventorySize - 1
    ensures t != SmokerType ==>
      ItemsAsWritten(Types[t].ranges, MainInventory, slots) == slots[|slots| - MainInventorySize .. |slots| - 1]
    ensures t == SmokerType ==> ItemsAsWritten(Types[t].ranges, MainInventory, slots) == slots[2..38]
  {
    TemplatesWellFormed();
    if t == SmokerType {
      SmokerAsWrittenOverlaps();
      KnownRangeItems(Types[t].ranges, MainInventory, slots, 2, 38);
    } else {
      WellFormedMainInventoryItems(Types[t], slots);
    }
  }

  /** For a name stored with a range inside the slots, both readings of `window[name]` are plain slices. */
  lemma KnownRangeItems(ranges: seq<NamedRange>, name: string, slots: seq<SlotValue>, lo: int, hi: int)
    requires Lookup(ranges, name) == Some(Range(lo, hi)) && 0 <= lo <= hi < |slots|
    ensures Items(ranges, name, slots) == slots[lo..hi + 1]
    ensures ItemsAsWritten(ranges, name, slots) == slots[lo..hi]
  {
  }

  lemma {:induction false} WellFormedMainInventoryItems(tpl: Template, slots: seq<SlotValue>)
    requires WellFormed(tpl) && |slots| == tpl.fullSize
    ensures MainInventorySize <= |slots|
    ensures Items(tpl.ranges, MainInventory, slots) == slots[|slots| - MainInventorySize..]
    ensures ItemsAsWritten(tpl.ranges, MainInventory, slots) == slots[|slots| - MainInventorySize .. |slots| - 1]
  {
    MainInventoryLookup(tpl);
    RangesWithinWindow(tpl.ranges, tpl.fullSize);
  }

  /**
   * The slots `window_items` leaves after writing `slots[i] = data[i]` for
   * i in 0 .. n-1 through the index-swallowing setter, one write at a time.
   */
  function BulkWritten(s: seq<SlotValue>, data: seq<SlotValue>, n: nat): (r: seq<SlotValue>)
    requires n <= |data|
    ensures |r| == |s|
    ensures forall i :: 0 <= i < |s| ==> r[i] == if i < n then data[i] else s[i]
  {
    if n == 0 then s else Assigned(BulkWritten(s, data, n - 1), n - 1, data[n - 1])
  }

  class Window {
    var inventory: Inventory?
    var name: string
    var ranges: seq<NamedRange>
    var fullSize: Option<nat>
    var id: Option<int>
    var windowType: Option<int>
    var title: Option<string>
    var heldItem: SlotValue
    var confirmations: Table

    /** `Window(inventory)`: no template installed, no window id, no held item, no confirmations. */
    constructor (inventory: Inventory?)
      ensures this.inventory == inventory
      ensures name == "" && ranges == [] && fullSize == None
      ensures id == None && windowType == None && title == None
      ensures heldItem == NoSlot && confirmations == []
    {
      this.inventory := inventory;
      name, ranges, fullSize := "", [], None;
      id, windowType, title := None, None, None;
      heldItem := NoSlot;
      confirmations := [];
    }

    /** `_fix_confirmations_length`: grow the table until entry (window, action) exists. */
    method FixConfirmationsLength(window: nat, action: nat)
      modifies this`confirmations
      ensures confirmations == Grown(old(confirmations), window, action)
    {
      ghost var c := confirmations;
      while window >= |confirmations|
        invariant |c| <= |confirmations| <= if window < |c| then |c| else window + 1
        invariant confirmations == c + seq(|confirmations| - |c|, _ => [])
        decreases window - |confirmations|
      {
        confirmations := confirmations + [[]];
      }
      ghost var rows := confirmations;
      assert rows[window] == RowOf(c, window);
      while action >= |confirmations[window]|
        invariant |confirmations| == |rows| && window < |rows|
        invariant |rows[window]| <= |confirmations[window]| <= if action < |rows[window]| then |rows[window]| else action + 1
        invariant forall i :: 0 <= i < |rows| && i != window ==> confirmations[i] == rows[i]
        invariant confirmations[window] == rows[window] + seq(|confirmations[window]| - |rows[window]|, _ => None)
        decreases action - |confirmations[window]|
      {
        confirmations := confirmations[window := confirmations[window] + [None]];
      }
      assert confirmations == rows[window := confirmations[window]];
    }

    /** `on_window_confirmation`: store the outcome for (window, action), overwriting any pending one. */
    method OnWindowConfirmation(window: nat, action: nat, accepted: bool)
      modifies this`confirmations
      ensures confirmations == Recorded(old(confirmations), window, action, accepted)
    {
      FixConfirmationsLength(window, action);
      confirmations := confirmations[window := confirmations[window][action := Some(accepted)]];
    }

    /**
     * The step of `wait_action_id` after its wait: take the outcome for
     * (window, action) if one is present and reset the entry to `None`.
     */
    method TakeConfirmation(window: nat, action: nat) returns (accepted: Option<bool>)
      modifies this`confirmations
      ensures (accepted, confirmations) == Taken(old(confirmations), window, action)
    {
      FixConfirmationsLength(window, action);
      accepted := confirmations[window][action];
      if accepted.Some? {
        confirmations := confirmations[window := confirmations[window][action := None]];
      }
    }

    /** `get_range`: the template range named `name`, or (0, number of slots). */
    function GetRange(name: string): (r: Range)
      reads this, inventory, if inventory == null then {} else {inventory.slots}
      requires inventory != null
      ensures Lookup(ranges, name).Some? ==> r == Lookup(ranges, name).value
      ensures Lookup(ranges, name).None? ==> r == Range(0, inventory.slots.Length())
    {
      RangeOf(ranges, name, inventory.slots.Length())
    }

    /**
     * `window[name]` as written: the slots from the range's first slot up to but
     * excluding its last one, or every slot for a name the window does not define.
     */
    function GetItems(name: string): (r: seq<SlotValue>)
      reads this, inventory, if inventory == null then {} else {inventory.slots, inventory.slots.cells}
      requires inventory != null
      ensures Lookup(ranges, name).None? ==> r == inventory.slots.cells[..]
      ensures Lookup(ranges, name).Some? && 0 <= GetRange(name).lo <= GetRange(name).hi <= inventory.slots.cells.Length
              ==> r == inventory.slots.cells[GetRange(name).lo .. GetRange(name).hi]
    {
      ItemsAsWritten(ranges, name, inventory.slots.cells[..])
    }

    /**
     * `create`: install template `Types[windowType]` (Python indexing, so a
     * negative type counts from the end) and replace the inventory's slots with
     * `fullSize` empty slots. A missing or out-of-range type raises in the
     * source; then nothing changes.
     */
    method Create() returns (ok: bool)
      requires inventory != null
      modifies this, inventory
      ensures inventory == old(inventory)
      ensures ok <==> windowType.Some? && InRange(windowType.value, TypeCount)
      ensures ok ==> var t := Types[Position(windowType.value, TypeCount)];
        && name == t.name && ranges == t.ranges && fullSize == Some(t.fullSize)
        && fresh(inventory.slots) && fresh(inventory.slots.cells)
        && inventory.slots.cells[..] == EmptySlots(t.fullSize)
      ensures !ok ==> unchanged(this) && unchanged(inventory)
      ensures id == old(id) && windowType == old(windowType) && title == old(title)
      ensures heldItem == old(heldItem) && confirmations == old(confirmations)
      ensures inventory.window == old(inventory.window) && inventory.stateId == old(inventory.stateId)
      ensures inventory.selectedSlot == old(inventory.selectedSlot)
    {
      if windowType.None? || !InRange(windowType.value, |Types|) {
        return false;
      }
      var t := Types[Position(windowType.value, |Types|)];
      name := t.name;
      ranges := t.ranges;
      fullSize := Some(t.fullSize);
      inventory.slots := new SlotsArray(t.fullSize);
      ok := true;
    }
  }

  class Inventory {
    var slots: SlotsArray
    var stateId: Option<int>
    var window: Window
    var selectedSlot: int

    ghost predicate Valid()
      reads this, window
    {
      window.inventory == this
    }

    /** `Inventory(player)`: 46 empty slots, no state id, hotbar slot 0, and a fresh window. */
    constructor ()
      ensures Valid() && fresh(window) && fresh(slots) && fresh(slots.cells)
      ensures slots.cells[..] == EmptySlots(46)
      ensures stateId == None && selectedSlot == 0
      ensures window.id == None && window.ranges == [] && window.heldItem == NoSlot && window.confirmations == []
    {
      stateId := None;
      slots := new SlotsArray(46);
      selectedSlot := 0;
      window := new Window(null);
      new;
      window.inventory := this;
    }

    /**
     * `on_window_items`: for window 0, write `slots[i] = data[i]` for i below
     * `count`; other windows leave the slots alone. The state id is always
     * stored, `None` included. When `count` exceeds the data the source raises
     * IndexError after writing what it had, and the state id is not stored.
     */
    method OnWindowItems(windowId: int, count: int, data: seq<SlotValue>, newStateId: Option<int>) returns (ok: bool)
      modifies this`stateId, slots.cells
      ensures ok <==> !(windowId == 0 && count > |data|)
      ensures windowId == 0 ==>
        slots.cells[..] == BulkWritten(old(slots.cells[..]), data, if count < 0 then 0 else if count > |data| then |data| else count)
      ensures windowId != 0 ==> slots.cells[..] == old(slots.cells[..])
      ensures stateId == if ok then newStateId else old(stateId)
    {
      if windowId == 0 {
        var index := 0;
        while index < count
          invariant 0 <= index <= |data|
          invariant index <= if count < 0 then 0 else count
          invariant stateId == old(stateId)
          invariant slots.cells[..] == BulkWritten(old(slots.cells[..]), data, index)
        {
          if index >= |data| {
            return false;
          }
          slots.Set(index, data[index]);
          index := index + 1;
        }
      }
      stateId := newStateId;
      ok := true;
    }

    /** `create_window`: record id, type and title on the window, then install the type's template. */
    method CreateWindow(windowId: int, windowType: int, title: string) returns (ok: bool)
      requires Valid()
      modifies this, window
      ensures Valid() && window == old(window)
      ensures window.id == Some(windowId) && window.windowType == Some(windowType) && window.title == Some(title)
      ensures ok <==> InRange(windowType, TypeCount)
      ensures ok ==> var t := Types[Position(windowType, TypeCount)];
        && window.name == t.name && window.ranges == t.ranges && window.fullSize == Some(t.fullSize)
        && fresh(slots) && slots.cells[..] == EmptySlots(t.fullSize)
      ensures !ok ==> (slots == old(slots) && window.name == old(window.name)
        && window.ranges == old(window.ranges) && window.fullSize == old(window.fullSize))
      ensures window.heldItem == old(window.heldItem) && window.confirmations == old(window.confirmations)
      ensures stateId == old(stateId) && selectedSlot == old(selectedSlot)
    {
      window.id, window.windowType, window.title := Some(windowId), Some(windowType), Some(title);
      ok := window.Create();
    }
  }
}
