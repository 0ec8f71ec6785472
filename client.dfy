/**
 * The packet handlers of the client (MinecraftQuarryClient.py, classes
 * MinecraftQuarryClientProtocol and MinecraftQuarryClient) that change the player's
 * inventory, the open window, the known entities and the world clock, and the
 * slot exchange of `switch_slots`. Packet bytes arrive already decoded as the
 * handlers' arguments; the user callbacks the handlers end with do nothing.
 */
module Client {
  import opened Wrappers
  import opened Slots
  import opened WindowTypes
  import opened Confirmations
  import opened Inventories
  import opened Entities

  /** Ticks in one Minecraft day; time updates keep the time of day below it. */
  const TicksPerDay: int := 24000

  /** The first hotbar slot of the player's inventory window. */
  const HotbarStart: int := 36

  /**
   * Python's `t % 24000`: the remainder is never negative, and it differs
   * from `t` by a whole number of days.
   */
  function DayTime(t: int): (r: int)
    ensures 0 <= r < TicksPerDay
    ensures (t - r) % TicksPerDay == 0
    ensures 0 <= t < TicksPerDay ==> r == t
  {
    t % TicksPerDay
  }

  /** Shifting the clock by a whole day gives the same time of day, negative clocks included. */
  lemma DayTimePeriodic(t: int)
    ensures DayTime(t + TicksPerDay) == DayTime(t)
    ensures DayTime(t - TicksPerDay) == DayTime(t)
    ensures DayTime(-1) == TicksPerDay - 1
  {
  }

  /**
   * A rotation byte (a signed 1/256 of a turn) as the source converts it:
   * the yaw as `a / 128 * 180`, the pitch as `a / 64 * 90`.
   */
  function Degrees(a: Option<int>, unit: real, halfTurn: real): (r: Option<real>)
    requires unit != 0.0
    ensures r.None? <==> a.None?
    ensures r.Some? ==> r.value * unit == a.value as real * halfTurn
  {
    if a.None? then None else Some(a.value as real / unit * halfTurn)
  }

  /** Both conversions agree, and a signed byte lands in the half-open half turn either side of 0. */
  lemma RotationInDegrees(a: Option<int>)
    ensures Degrees(a, 128.0, 180.0) == Degrees(a, 64.0, 90.0)
    ensures a.Some? ==> Degrees(a, 128.0, 180.0) == Some(a.value as real * 360.0 / 256.0)
    ensures a.Some? && -128 <= a.value < 128 ==> -180.0 <= Degrees(a, 128.0, 180.0).value < 180.0
  {
  }

  /** The keyword arguments of `update_option` in `_on_visible_player`: raw rotation bytes, and a player. */
  function Spawn(entityId: int, uuid: nat, x: real, y: real, z: real, yaw: int, pitch: int): Update {
    Update(Some(entityId), Some(uuid), Some(true), Some(x), Some(y), Some(z),
           Some(yaw as real), Some(pitch as real), None)
  }

  /** The keyword arguments of `update_option` in `_on_entity_teleport`: raw rotation bytes. */
  function Teleport(x: real, y: real, z: real, yaw: int, pitch: int, onGround: bool): Update {
    Update(None, None, None, Some(x), Some(y), Some(z), Some(yaw as real), Some(pitch as real), Some(onGround))
  }

  /** The keyword arguments of `update_option` in `_on_entity_position_and_rotation`: rotations in degrees. */
  function Rotation(yaw: Option<int>, pitch: Option<int>, onGround: bool): Update {
    Update(None, None, None, None, None, None, Degrees(yaw, 128.0, 180.0), Degrees(pitch, 64.0, 90.0), Some(onGround))
  }

  /**
   * `_on_entity_position_and_rotation` on a known entity: the delta move, then
   * the rotation update. The flag is false where `update_from_delta` raises,
   * which also skips the rotation update.
   */
  function Moved(s: EntityState, dx: Option<int>, dy: Option<int>, dz: Option<int>,
                 yaw: Option<int>, pitch: Option<int>, onGround: bool): (r: (EntityState, bool))
    ensures r.1 <==> s.x.Some? && s.y.Some? && s.z.Some?
    ensures !r.1 ==> r.0 == DeltaMoved(s, dx, dy, dz).0
    ensures r.1 ==> r.0 == s.(x := Some(Shifted(s.x.value, dx)), y := Some(Shifted(s.y.value, dy)),
                              z := Some(Shifted(s.z.value, dz)),
                              yaw := if yaw.Some? then Degrees(yaw, 128.0, 180.0) else s.yaw,
                              pitch := if pitch.Some? then Degrees(pitch, 64.0, 90.0) else s.pitch,
                              onGround := onGround)
  {
    var (m, ok) := DeltaMoved(s, dx, dy, dz);
    if ok then (Applied(m, Rotation(yaw, pitch, onGround)), true) else (m, false)
  }

  /** A freshly spawned player has a full position, so every later relative move of it completes. */
  lemma {:induction false} SpawnedPlayerMoves(entityId: int, uuid: nat, x: real, y: real, z: real, yaw: int, pitch: int,
                                              dx: Option<int>, dy: Option<int>, dz: Option<int>,
                                              newYaw: Option<int>, newPitch: Option<int>, onGround: bool)
    ensures var s := Applied(Unknown, Spawn(entityId, uuid, x, y, z, yaw, pitch));
      && s.isPlayer && s.entityId == Some(entityId) && s.uuid == Some(uuid)
      && s.x == Some(x) && s.y == Some(y) && s.z == Some(z) && s.onGround
      && s.health.None? && s.food.None? && s.foodSaturation.None?
      && Moved(s, dx, dy, dz, newYaw, newPitch, onGround).1
      && Moved(s, dx, dy, dz, newYaw, newPitch, onGround).0.x == Some(Shifted(x, dx))
  {
  }

  /** A look packet (no deltas) leaves a known position where it was and only turns the entity. */
  lemma {:induction false} LookKeepsPosition(s: EntityState, yaw: int, pitch: int, onGround: bool)
    requires s.x.Some? && s.y.Some? && s.z.Some?
    ensures Moved(s, None, None, None, Some(yaw), Some(pitch), onGround)
      == (s.(yaw := Degrees(Some(yaw), 128.0, 180.0), pitch := Degrees(Some(pitch), 64.0, 90.0), onGround := onGround), true)
  {
    assert Shifted(s.x.value, None) == s.x.value;
    assert Shifted(s.y.value, None) == s.y.value;
    assert Shifted(s.z.value, None) == s.z.value;
  }

  /** A move of an entity whose position is unknown changes nothing and reports the error. */
  lemma {:induction false} MoveWithoutPositionFails(s: EntityState, dx: Option<int>, dy: Option<int>, dz: Option<int>,
                                                    yaw: Option<int>, pitch: Option<int>, onGround: bool)
    requires s.x.None?
    ensures Moved(s, dx, dy, dz, yaw, pitch, onGround) == (s, false)
  {
  }

  /** A teleport sets an absolute position, so a relative move before it makes no difference. */
  lemma {:induction false} TeleportForgetsMoves(s: EntityState, dx: Option<int>, dy: Option<int>, dz: Option<int>,
                                                x: real, y: real, z: real, yaw: int, pitch: int, onGround: bool)
    ensures Applied(DeltaMoved(s, dx, dy, dz).0, Teleport(x, y, z, yaw, pitch, onGround))
      == Applied(s, Teleport(x, y, z, yaw, pitch, onGround))
    ensures Applied(s, Teleport(x, y, z, yaw, pitch, onGround)).x == Some(x)
  {
  }

  /** What a slot exchange works on: the slot list and the item held on the cursor. */
  datatype Carrying = Carrying(slots: seq<SlotValue>, held: SlotValue)

  /**
   * `held, slots[key] = slots[key], held`: the cursor item and one slot trade
   * places. The slot must be readable; the held item may be `None`, which is
   * stored as it is.
   */
  function Exchanged(c: Carrying, key: int): (r: Carrying)
    requires Readable(c.slots, key)
    ensures |r.slots| == |c.slots|
    ensures r.held == c.slots[Position(key, |c.slots|)] && r.slots[Position(key, |c.slots|)] == c.held
    ensures forall i :: 0 <= i < |c.slots| && i != Position(key, |c.slots|) ==> r.slots[i] == c.slots[i]
  {
    var p := Position(key, |c.slots|);
    Carrying(c.slots[p := c.held], c.slots[p])
  }

  /**
   * `switch_slots`: pick up the source stack, put it down on the destination
   * and put whatever was there back on the source. Each step first reads its
   * slot; an invalid index or a `None` cell raises and stops the switch where
   * it is. The flag says whether all three exchanges were done.
   */
  function Switched(c: Carrying, source: int, destination: int): (r: (Carrying, bool))
    ensures |r.0.slots| == |c.slots|
    ensures r.1 <==> Readable(c.slots, source) && Readable(c.slots, destination) && c.held.Packed?
  {
    if !Readable(c.slots, source) then (c, false)
    else
      var picked := Exchanged(c, source);
      if !Readable(picked.slots, destination) then (picked, false)
      else
        var placed := Exchanged(picked, destination);
        if !Readable(placed.slots, source) then (placed, false)
        else (Exchanged(placed, source), true)
  }

  /** Two different stacked slots trade their stacks, and a stack held on the cursor is held again at the end. */
  lemma {:induction false} SwitchTradesStacks(c: Carrying, source: int, destination: int)
    requires Readable(c.slots, source) && Readable(c.slots, destination) && c.held.Packed?
    requires Position(source, |c.slots|) != Position(destination, |c.slots|)
    ensures var ps, pd := Position(source, |c.slots|), Position(destination, |c.slots|);
      Switched(c, source, destination) == (Carrying(c.slots[ps := c.slots[pd]][pd := c.slots[ps]], c.held), true)
  {
    var ps, pd := Position(source, |c.slots|), Position(destination, |c.slots|);
    var c1 := Exchanged(c, source);
    assert c1 == Carrying(c.slots[ps := c.held], c.slots[ps]);
    var c2 := Exchanged(c1, destination);
    assert c2 == Carrying(c.slots[ps := c.held][pd := c.slots[ps]], c.slots[pd]);
    assert Readable(c2.slots, source);
    var c3 := Exchanged(c2, source);
    assert c3.held == c.held;
    assert c3.slots == c.slots[ps := c.slots[pd]][pd := c.slots[ps]];
  }

  /** Switching a stacked slot with itself, while holding a stack, trades the two. */
  lemma {:induction false} SwitchSameSlot(c: Carrying, source: int, destination: int)
    requires Readable(c.slots, source) && Readable(c.slots, destination) && c.held.Packed?
    requires Position(source, |c.slots|) == Position(destination, |c.slots|)
    ensures var p := Position(source, |c.slots|);
      Switched(c, source, destination) == (Carrying(c.slots[p := c.held], c.slots[p]), true)
  {
    var p := Position(source, |c.slots|);
    var c1 := Exchanged(c, source);
    var c2 := Exchanged(c1, destination);
    assert c2.slots == c.slots;
    assert c2.held == c.held;
  }

  /**
   * With nothing (`None`) on the cursor, the pick-up leaves `None` in the
   * source slot and the switch raises at the next read of it: after the
   * second exchange for two different slots, and already at the second for
   * the same slot.
   */
  lemma {:induction false} SwitchEmptyHandStops(c: Carrying, source: int, destination: int)
    requires Readable(c.slots, source) && Readable(c.slots, destination) && c.held == NoSlot
    ensures var ps, pd := Position(source, |c.slots|), Position(destination, |c.slots|);
      ps != pd ==>
        (Switched(c, source, destination) == (Carrying(c.slots[ps := NoSlot][pd := c.slots[ps]], c.slots[pd]), false))
    ensures var p := Position(source, |c.slots|);
      Position(destination, |c.slots|) == p ==>
        (Switched(c, source, destination) == (Carrying(c.slots[p := NoSlot], c.slots[p]), false))
  {
    var ps, pd := Position(source, |c.slots|), Position(destination, |c.slots|);
    var c1 := Exchanged(c, source);
    assert c1 == Carrying(c.slots[ps := NoSlot], c.slots[ps]);
    if ps != pd {
      var c2 := Exchanged(c1, destination);
      assert c2 == Carrying(c.slots[ps := NoSlot][pd := c.slots[ps]], c.slots[pd]);
      assert !Readable(c2.slots, source);
    } else {
      assert !Readable(c1.slots, destination);
    }
  }

  /** Holding a stack, a switch is symmetric in its two slots, and switching the same pair again restores everything. */
  lemma {:induction false} SwitchUndone(c: Carrying, source: int, destination: int)
    requires Readable(c.slots, source) && Readable(c.slots, destination) && c.held.Packed?
    ensures Switched(c, source, destination).0 == Switched(c, destination, source).0
      || Position(source, |c.slots|) == Position(destination, |c.slots|)
    ensures Switched(Switched(c, source, destination).0, source, destination) == (c, true)
  {
    var n := |c.slots|;
    var ps, pd := Position(source, n), Position(destination, n);
    var r := Switched(c, source, destination).0;
    if ps == pd {
      SwitchSameSlot(c, source, destination);
      assert Readable(r.slots, source) && Readable(r.slots, destination);
      SwitchSameSlot(r, source, destination);
      assert r.slots[ps := r.held] == c.slots;
    } else {
      SwitchTradesStacks(c, source, destination);
      SwitchTradesStacks(c, destination, source);
      assert Readable(r.slots, source) && Readable(r.slots, destination);
      SwitchTradesStacks(r, source, destination);
      assert r.slots[ps := r.slots[pd]][pd := r.slots[ps]] == c.slots;
    }
  }

  /** A switch whose destination is out of range leaves the source stack on the cursor. */
  lemma {:induction false} SwitchStopsAtBadDestination(c: Carrying, source: int, destination: int)
    requires Readable(c.slots, source) && !InRange(destination, |c.slots|)
    ensures var p := Position(source, |c.slots|);
      Switched(c, source, destination) == (Carrying(c.slots[p := c.held], c.slots[p]), false)
  {
  }

  /** A switch whose source cannot be read (an invalid index, or `None`) raises before any change. */
  lemma SwitchStopsAtUnreadableSource(c: Carrying, source: int, destination: int)
    requires !Readable(c.slots, source)
    ensures Switched(c, source, destination) == (c, false)
  {
  }

  /** The client: the player's inventory (with its open window) and the world. */
  class QuarryClient {
    const inventory: Inventory
    const world: World

    ghost predicate Valid()
      reads this, inventory, inventory.window
    {
      inventory.Valid()
    }

    /** `MinecraftQuarryClient(...)`: a fresh player inventory with 46 empty slots, and an empty world. */
    constructor ()
      ensures Valid() && fresh(inventory) && fresh(world)
      ensures inventory.slots.cells[..] == EmptySlots(46)
      ensures inventory.window.id == None && inventory.window.ranges == []
      ensures inventory.stateId == None && inventory.selectedSlot == 0
      ensures world.entities == map[] && world.age == None && world.timeOfDay == None
    {
      inventory := new Inventory();
      world := new World();
    }

    /** `packet_held_item_change`: the selected slot becomes hotbar slot `slot` of the inventory window. */
    method HeldItemChange(slot: int)
      requires 0 <= slot < 256
      modifies inventory`selectedSlot
      ensures inventory.selectedSlot == HotbarStart + slot
    {
      inventory.selectedSlot := HotbarStart + slot;
    }

    /**
     * `_on_set_slot`: a state id Python counts as true replaces the stored one;
     * window -1 with slot -1 sets the cursor item only; any other packet sets
     * the window id and writes the slot, Python indexing and a swallowed
     * IndexError included.
     */
    method OnSetSlot(windowId: int, slot: int, data: SlotValue, stateId: Option<int>)
      modifies inventory`stateId, inventory.window`heldItem, inventory.window`id, inventory.slots.cells
      ensures inventory.stateId == if stateId.Some? && stateId.value != 0 then stateId else old(inventory.stateId)
      ensures windowId == -1 && slot == -1 ==>
        && inventory.window.heldItem == data
        && inventory.window.id == old(inventory.window.id)
        && inventory.slots.cells[..] == old(inventory.slots.cells[..])
      ensures !(windowId == -1 && slot == -1) ==>
        && inventory.window.heldItem == old(inventory.window.heldItem)
        && inventory.window.id == Some(windowId)
        && inventory.slots.cells[..] == Assigned(old(inventory.slots.cells[..]), slot, data)
    {
      if stateId.Some? && stateId.value != 0 {
        inventory.stateId := stateId;
      }
      if windowId == -1 && slot == -1 {
        inventory.window.heldItem := data;
        return;
      }
      inventory.window.id := Some(windowId);
      inventory.slots.Set(slot, data);
    }

    /** `_on_window_items`: hand the packet to the inventory. */
    method OnWindowItems(windowId: int, count: int, data: seq<SlotValue>, stateId: Option<int>) returns (ok: bool)
      modifies inventory`stateId, inventory.slots.cells
      ensures ok <==> !(windowId == 0 && count > |data|)
      ensures windowId == 0 ==> (inventory.slots.cells[..]
        == BulkWritten(old(inventory.slots.cells[..]), data, if count < 0 then 0 else if count > |data| then |data| else count))
      ensures windowId != 0 ==> inventory.slots.cells[..] == old(inventory.slots.cells[..])
      ensures inventory.stateId == if ok then stateId else old(inventory.stateId)
    {
      ok := inventory.OnWindowItems(windowId, count, data, stateId);
    }

    /** `_on_open_window`: the inventory creates the window of the given type. */
    method OnOpenWindow(windowId: int, windowType: int, title: string) returns (ok: bool)
      requires Valid()
      modifies inventory, inventory.window
      ensures Valid() && inventory.window == old(inventory.window)
      ensures inventory.window.id == Some(windowId) && inventory.window.windowType == Some(windowType)
      ensures inventory.window.title == Some(title)
      ensures ok <==> InRange(windowType, TypeCount)
      ensures ok ==> var t := Types[Position(windowType, TypeCount)];
        && inventory.window.name == t.name && inventory.window.ranges == t.ranges
        && inventory.window.fullSize == Some(t.fullSize)
        && fresh(inventory.slots) && inventory.slots.cells[..] == EmptySlots(t.fullSize)
      ensures !ok ==> (inventory.slots == old(inventory.slots) && inventory.window.name == old(inventory.window.name)
        && inventory.window.ranges == old(inventory.window.ranges)
        && inventory.window.fullSize == old(inventory.window.fullSize))
      ensures inventory.window.heldItem == old(inventory.window.heldItem)
      ensures inventory.window.confirmations == old(inventory.window.confirmations)
      ensures inventory.stateId == old(inventory.stateId) && inventory.selectedSlot == old(inventory.selectedSlot)
    {
      ok := inventory.CreateWindow(windowId, windowType, title);
    }

    /** `_on_close_window`: whatever window the packet names, the player's own window 0 is current again. */
    method OnCloseWindow(windowId: int)
      modifies inventory.window`id
      ensures inventory.window.id == Some(0)
    {
      inventory.window.id := Some(0);
    }

    /** `_on_window_confirmation`: record the server's verdict on the action. */
    method OnWindowConfirmation(windowId: nat, action: nat, accepted: bool)
      modifies inventory.window`confirmations
      ensures inventory.window.confirmations == Recorded(old(inventory.window.confirmations), windowId, action, accepted)
    {
      inventory.window.OnWindowConfirmation(windowId, action, accepted);
    }

    /** `_on_time_update`: store the world age and the time of day reduced to one day. */
    method OnTimeUpdate(worldAge: int, timeOfDay: int)
      modifies world`age, world`timeOfDay
      ensures world.age == Some(worldAge)
      ensures world.timeOfDay == Some(DayTime(timeOfDay))
    {
      world.age := Some(worldAge);
      world.timeOfDay := Some(DayTime(timeOfDay));
    }

    /** `_on_visible_player`: a new entity under the id, updated with the spawn packet's fields. */
    method OnVisiblePlayer(entityId: int, uuid: nat, x: real, y: real, z: real, yaw: int, pitch: int)
      modifies world`entities
      ensures entityId in world.entities && fresh(world.entities[entityId])
      ensures world.entities == old(world.entities)[entityId := world.entities[entityId]]
      ensures world.entities[entityId].State() == Applied(Unknown, Spawn(entityId, uuid, x, y, z, yaw, pitch))
    {
      var e := new Entity();
      world.entities := world.entities[entityId := e];
      e.UpdateOption(Spawn(entityId, uuid, x, y, z, yaw, pitch));
    }

    /**
     * `_on_entity_position_and_rotation`: a known entity moves by the deltas and
     * turns; an unknown id is ignored. False where the source raises.
     */
    method OnEntityPositionAndRotation(entityId: int, dx: Option<int>, dy: Option<int>, dz: Option<int>,
                                       yaw: Option<int>, pitch: Option<int>, onGround: bool) returns (ok: bool)
      modifies if entityId in world.entities then {world.entities[entityId]} else {}
      ensures world.entities == old(world.entities)
      ensures entityId !in world.entities ==> ok
      ensures entityId in world.entities ==>
        (world.entities[entityId].State(), ok) == Moved(old(world.entities[entityId].State()), dx, dy, dz, yaw, pitch, onGround)
    {
      if entityId !in world.entities {
        return true;
      }
      var e := world.entities[entityId];
      ok := e.UpdateFromDelta(dx, dy, dz);
      if ok {
        e.UpdateOption(Rotation(yaw, pitch, onGround));
      }
    }

    /** `_on_entity_teleport`: a known entity takes the packet's position, raw rotation and ground flag. */
    method OnEntityTeleport(entityId: int, x: real, y: real, z: real, yaw: int, pitch: int, onGround: bool)
      modifies if entityId in world.entities then {world.entities[entityId]} else {}
      ensures world.entities == old(world.entities)
      ensures entityId in world.entities ==>
        world.entities[entityId].State() == Applied(old(world.entities[entityId].State()), Teleport(x, y, z, yaw, pitch, onGround))
    {
      if entityId in world.entities {
        world.entities[entityId].UpdateOption(Teleport(x, y, z, yaw, pitch, onGround));
      }
    }

    /** One `held, slots[key] = slots[key], held`; false, changing nothing, where reading the slot raises. */
    method Exchange(key: int) returns (ok: bool)
      modifies inventory.window`heldItem, inventory.slots.cells
      ensures ok <==> Readable(old(inventory.slots.cells[..]), key)
      ensures ok ==> (Carrying(inventory.slots.cells[..], inventory.window.heldItem)
        == Exchanged(old(Carrying(inventory.slots.cells[..], inventory.window.heldItem)), key))
      ensures !ok ==> (inventory.slots.cells[..] == old(inventory.slots.cells[..])
        && inventory.window.heldItem == old(inventory.window.heldItem))
    {
      var stack := inventory.slots.Get(key);
      if stack.None? {
        return false;
      }
      var hand := inventory.window.heldItem;
      inventory.window.heldItem := stack.value;
      inventory.slots.Set(key, hand);
      ok := true;
    }

    /** `switch_slots`: the three exchanges, stopping at the first slot that cannot be read. */
    method SwitchSlots(source: int, destination: int) returns (ok: bool)
      modifies inventory.window`heldItem, inventory.slots.cells
      ensures (Carrying(inventory.slots.cells[..], inventory.window.heldItem), ok)
        == Switched(old(Carrying(inventory.slots.cells[..], inventory.window.heldItem)), source, destination)
    {
      ok := Exchange(source);
      if !ok {
        return;
      }
      ok := Exchange(destination);
      if !ok {
        return;
      }
      ok := Exchange(source);
    }
  }
}
