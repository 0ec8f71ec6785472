# pyMClient core, modelled in Dafny

pyMClient is a Minecraft Java Edition client. It is built on the `quarry` protocol library and Twisted. The model covers three parts of its core.

1. **The player's state store** (`QuarryPlayer.py`):
   - the fixed-length slot array (`SlotsArray`), which swallows out-of-range writes;
   - the open window, with its 23 slot-layout templates, its confirmation table and `create`;
   - the inventory's bulk slot write and window creation;
   - entity updates, both keyword updates and fixed-point delta moves;
   - the `BlockFace` and `Hand` enumerations.
2. **The multi-block-change bit layout** (`MinecraftQuarryClient.py`):
   - the signed 22/22/20-bit chunk-section position held in one big-endian 64-bit word;
   - the 64-bit block records, each a 52-bit state id followed by three 4-bit local coordinates.
3. **The protocol-version gates and the state-changing handlers** (`MinecraftQuarryClient.py`):
   - the field lists of six packets, which change at protocol 735 (1.16) and 755 (1.17);
   - the handlers for set slot, window items, open, close and confirmation of windows, time update, spawned players, entity moves and teleports, and held-item change;
   - the three cursor and slot exchanges of `switch_slots`.

Modules:
- `Slots`: Python index semantics, including negative keys and slice clamping, and the `SlotsArray` class over an `array`.
- `WindowTypes`: the template table, entry for entry as the source writes it, and the lemmas about it. The corrected smoker entry is kept beside the table and is not used by the window.
- `Confirmations`: the confirmation table, written as functions on nested sequences.
- `Inventories`: the `Window` and `Inventory` classes. The window points back to its inventory, as in the source, and `Window.create` replaces the inventory's slot array.
- `Entities`: the `Entity` and `World` classes and the enumerations.
- `MultiBlockChange`: the bit-field decoding.
- `Layouts`: packet layouts, each written as a list of named, typed fields that depends on the protocol version.
- `Client`: the `QuarryClient` class, whose methods are the handlers.

Every imperative operation is a method, and its `ensures` ties the new state to a function of the old state. The properties the source relies on are lemmas about those functions: round trips, frame conditions, idempotence, last-write-wins and involution.

Python semantics are modelled explicitly:
- `list[key]` accepts `-len <= key < len`, and a negative key counts from the end.
- `x % 24000` never returns a negative value.
- A write that raises IndexError inside `SlotsArray.__setitem__` changes nothing.
- A read through `SlotsArray.__getitem__` fails on an invalid index and on a `None` cell. A `None` cell is stored unpacked (only dicts are packed), and `unpack_slot` has no bytes to read from it. The window's held item starts as `None` and can be stored in a slot by `switch_slots`.
- An operation that raises part way through (`update_from_delta` on an unknown coordinate, `switch_slots` on an out-of-range slot) keeps the effects made before the raise and returns `false`.

## Model

| member | source | states |
|---|---|---|
| Slots.Position | QuarryPlayer.py:90-96 | a valid Python index names a cell below the length: the key itself, or the key plus the length when negative |
| Slots.EmptySlots | QuarryPlayer.py:80-81 | a fresh slot list has exactly `size` cells, each the empty slot `b'\x00'` |
| Slots.Assigned | QuarryPlayer.py:90-96 | the slot list after `__setitem__`: the length never changes, a valid key writes exactly its cell, and an out-of-range key changes nothing |
| Slots.AssignedLastWins | QuarryPlayer.py:90-96 | of two writes to the same key, only the second is visible |
| Slots.NegativeKeyCountsFromEnd | QuarryPlayer.py:90-96 | a negative in-range key writes the cell `len + key`, the same cell as the equivalent non-negative key |
| Slots.Slice | QuarryPlayer.py:514-517 | Python slicing `s[lo:hi]`: within bounds it is the Dafny slice, an inverted pair gives the empty list, and the result is never longer than the list |
| Slots.SlotsArray.constructor | QuarryPlayer.py:80-81 | `SlotsArray(size)` holds `size` empty slots, or none for a negative size |
| Slots.SlotsArray.Set | QuarryPlayer.py:90-96 | the array's contents become `Assigned(old contents, key, value)` and its length is fixed |
| Slots.SlotsArray.Get | QuarryPlayer.py:83-88 | returns the cell a valid key names when it holds packed bytes, and nothing exactly when the read raises: an invalid index, or a `None` cell that `unpack_slot` cannot read |
| WindowTypes.Lookup | QuarryPlayer.py:511-512 | `ranges.get(name)` finds a range exactly when some entry has that name, and the range it returns is stored under that name |
| WindowTypes.SmokerAsWrittenOverlaps | QuarryPlayer.py:427-436 | the smoker entry as written puts `main_inventory` at (2, 38), which overlaps `output` (2, 2), so it does not partition the window |
| WindowTypes.CorrectedSmokerWellFormed | QuarryPlayer.py:427-436 | with `main_inventory` moved to (3, 38), the smoker entry partitions its window and ends with the player's 36 slots |
| WindowTypes.SmokerEntry | QuarryPlayer.py:427-436 | entry 20 of the table is the smoker entry as written, which is not well formed |
| WindowTypes.TemplatesWellFormed | QuarryPlayer.py:137-456 | the table has 23 templates; each one except the smoker entry has ranges that partition slots 0 to full_size-1 in order, ending with the only `main_inventory`, the last 36 slots; the smoker entry as written does not, and its correction does |
| WindowTypes.RangesWithinWindow | QuarryPlayer.py:137-456 | in a partition, every range satisfies 0 <= lo <= hi < full_size |
| WindowTypes.TemplateRangesWithinWindow | QuarryPlayer.py:137-456 | every range of every template, the smoker entry as written included, lies inside its window, and `main_inventory` is defined and ends at the window's last slot |
| WindowTypes.SmokerAsWrittenWithinWindow | QuarryPlayer.py:427-436 | although two of its ranges overlap, every range of the smoker entry as written lies inside its 39-slot window |
| WindowTypes.MainInventoryLookup | QuarryPlayer.py:137-456 | in a well-formed template, `main_inventory` looks up to (full_size-36, full_size-1) |
| Confirmations.Grown | QuarryPlayer.py:473-478 | after growth, row `window` exists and has entry `action`; existing rows and entries keep their values, and every added entry is `None` |
| Confirmations.Recorded | QuarryPlayer.py:506-509 | the outcome is stored at (window, action) and every other entry is unchanged |
| Confirmations.Taken | QuarryPlayer.py:497-503 | consuming returns the stored outcome, resets that entry to `None`, and leaves every other entry unchanged |
| Confirmations.GrownWhenLargeEnough | QuarryPlayer.py:473-478 | growing a table that already holds the entry changes nothing |
| Confirmations.LatestOutcomeWins | QuarryPlayer.py:506-509 | a second outcome for the same key replaces the first, and only the latest is ever taken |
| Confirmations.TakeConsumes | QuarryPlayer.py:497-509 | a recorded outcome is taken once; after that the key reads as pending |
| Inventories.RangeOf | QuarryPlayer.py:511-512 | `ranges.get(name, (0, len(slots)))`: the stored range for a known name, and (0, number of slots) for any other |
| Inventories.ItemsAsWritten | QuarryPlayer.py:514-517 | `window[name]` as written: `slots[lo:hi]`, which leaves out slot `hi`, for a known name whose range lies in the slots, and every slot for an unknown name; never longer than the slots |
| Inventories.Items | QuarryPlayer.py:514-517 | `window[name]` under inclusive ranges: slots lo to hi for a known name, and all slots for an unknown name |
| Inventories.RowItemsAsWrittenDropsLastSlot | QuarryPlayer.py:514-517 | in generic_9x1, `window["row_0"]` as written returns 8 slots, although the row is slots 0 to 8; the inclusive reading returns 9 |
| Inventories.MainInventoryItems | QuarryPlayer.py:514-524 | under inclusive ranges, in every created window except a smoker `main_inventory` is exactly the last 36 slots; in a smoker window it is the 37 slots from slot 2 on |
| Inventories.MainInventoryItemsAsWritten | QuarryPlayer.py:514-524 | `window["main_inventory"]` as written is the 35 slots before the window's last one, and slots 2 to 37 in a smoker window |
| Inventories.KnownRangeItems | QuarryPlayer.py:514-517 | for a name stored with a range (lo, hi) inside the slots, the inclusive reading gives slots lo to hi and the code as written gives slots lo to hi-1 |
| Inventories.WellFormedMainInventoryItems | QuarryPlayer.py:514-517 | in any well-formed template, `main_inventory` is the last 36 slots under inclusive ranges, and the 35 before the last slot as written |
| Inventories.BulkWritten | QuarryPlayer.py:550-554 | after writing the first n items, slot i holds `data[i]` for i < n and keeps its value otherwise |
| Inventories.Window.constructor | QuarryPlayer.py:458-471 | a new window has no name, ranges, size, id, type, title or held item, and an empty confirmation table |
| Inventories.Window.FixConfirmationsLength | QuarryPlayer.py:473-478 | the two append loops leave the table equal to `Grown(old table, window, action)` |
| Inventories.Window.OnWindowConfirmation | QuarryPlayer.py:506-509 | the table becomes `Recorded(old table, window, action, accepted)` |
| Inventories.Window.TakeConfirmation | QuarryPlayer.py:497-503 | the outcome and the new table are `Taken(old table, window, action)` |
| Inventories.Window.GetRange | QuarryPlayer.py:511-512 | the template range for a known name, and (0, number of slots) for any other name |
| Inventories.Window.GetItems | QuarryPlayer.py:514-517 | `window[name]` as written: the slots from `get_range`'s first slot up to but excluding its last, and every slot for an unknown name |
| Inventories.Window.Create | QuarryPlayer.py:519-524 | for a valid type (Python indexing), installs that template's name, ranges and size (the table as written) and gives the inventory exactly full_size fresh empty slots; for an invalid or missing type, changes nothing |
| Inventories.Inventory.constructor | QuarryPlayer.py:533-541 | a new inventory has 46 empty slots, no state id and selected slot 0, and its window points back to it |
| Inventories.Inventory.OnWindowItems | QuarryPlayer.py:550-556 | for window 0, writes `data[0..count)`; other windows leave the slots alone; the state id is stored, `None` included, unless `count` overruns the data, which raises after the in-range writes |
| Inventories.Inventory.CreateWindow | QuarryPlayer.py:558-563 | records id, type and title, then installs the type's template (the smoker entry as written) and fresh slots exactly when the type is a valid index; an invalid type keeps the slots, name, ranges and size; held item, confirmations, state id and selected slot never change |
| Entities.Applied | QuarryPlayer.py:605-608 | `update_option`: each field given a non-`None` value takes it, every other field keeps its value, and health and food are never touched |
| Entities.Given | QuarryPlayer.py:605-608 | one optional field under `update_option`: the given value, or the kept one when `None` is given |
| Entities.GivenFlag | QuarryPlayer.py:605-608 | one flag under `update_option`: the given value, or the kept one when `None` is given |
| Entities.AppliedKeepsAndSettles | QuarryPlayer.py:605-608 | an update of only `None` values changes nothing, applying an update twice equals applying it once, and health and food are never touched |
| Entities.DisjointUpdatesCommute | QuarryPlayer.py:605-608 | two updates that name disjoint fields commute |
| Entities.DeltaShift | QuarryPlayer.py:610-613 | a delta shifts by d/4096 blocks, and a `None` delta shifts by 0 |
| Entities.DeltaMoved | QuarryPlayer.py:610-613 | all three axes move exactly when all three coordinates are known; otherwise the axes before the first unknown one move and the update stops |
| Entities.DeltaMoveUndone | QuarryPlayer.py:610-613 | a move followed by the opposite move returns the entity to its position |
| Entities.FullBlockDelta | QuarryPlayer.py:610-613 | a raw delta of 4096 moves the entity exactly one block along that axis |
| Entities.Entity.constructor | QuarryPlayer.py:586-603 | a new entity knows nothing, is not a player and is on the ground |
| Entities.Entity.UpdateOption | QuarryPlayer.py:605-608 | the state becomes `Applied(old state, update)`: fields given a non-`None` value take it, and the rest keep their values |
| Entities.Entity.UpdateFromDelta | QuarryPlayer.py:610-613 | the state and completion flag are `DeltaMoved(old state, deltas)` |
| Entities.World.constructor | QuarryPlayer.py:573-578 | a new world has no entities and no clock |
| Entities.FaceValue | QuarryPlayer.py:616-622 | each block face has a wire value below 6 |
| Entities.FaceOf | QuarryPlayer.py:616-622 | `BlockFace(v)` succeeds exactly for 0 <= v < 6, and the member it returns has value v |
| Entities.FaceValueRoundTrip | QuarryPlayer.py:616-622 | every face survives the trip through its wire value |
| Entities.HandValue | QuarryPlayer.py:625-627 | each hand has a wire value below 2 |
| Entities.HandOf | QuarryPlayer.py:625-627 | `Hand(v)` succeeds exactly for v in {0, 1}, and the member it returns has value v |
| Entities.HandValueRoundTrip | QuarryPlayer.py:625-627 | every hand survives the trip through its wire value |
| Entities.Upper | MinecraftQuarryClient.py:734 | `str.upper` on ASCII text: the length is kept and each lower-case ASCII letter is upper-cased |
| Entities.FaceNamed | MinecraftQuarryClient.py:970 | `getattr(BlockFace, name, BlockFace.TOP)`: a member's exact name gives that member, and any name that is not an attribute of the enum class gives TOP |
| Entities.HandNamed | MinecraftQuarryClient.py:993 | `getattr(Hand, name, Hand.MAIN)`: a member's exact name gives that member, and any name that is not an attribute of the enum class gives MAIN |
| Entities.LowerCaseNamesIgnored | MinecraftQuarryClient.py:969-994 | `getattr(BlockFace, "bottom", TOP)` gives TOP and `getattr(Hand, "off", MAIN)` gives MAIN: the lower-case names never match |
| Entities.FacesFoundByLowerCaseName | MinecraftQuarryClient.py:969-994 | with the name upper-cased first, every face is found under its lower-case name |
| Entities.FacesFoundByMemberName | MinecraftQuarryClient.py:969-994 | with the name upper-cased first, every face is still found under its member name |
| Entities.HandsFoundIgnoringCase | MinecraftQuarryClient.py:731-734 | with the name upper-cased first, as `use_item` does, every hand is found under its lower-case and its member name |
| MultiBlockChange.WordOf | MinecraftQuarryClient.py:94 | the big-endian number of n bytes is below 256^n |
| MultiBlockChange.BytesOf | MinecraftQuarryClient.py:94 | writing a number below 256^n as n big-endian bytes gives bytes that read back as that number |
| MultiBlockChange.BytesOfWordOf | MinecraftQuarryClient.py:94 | reading bytes as a number and writing it back gives the same bytes |
| MultiBlockChange.Signed | MinecraftQuarryClient.py:95-99 | the two's-complement reading of a field lies in [-half, half) and equals the unsigned value or that value minus 2*half |
| MultiBlockChange.DecodeSectionWord | MinecraftQuarryClient.py:94-99 | x (top 22 bits), z (next 22 bits) and y (low 20 bits) are signed and inside their field ranges |
| MultiBlockChange.EncodeSectionWord | MinecraftQuarryClient.py:94-99 | the masked and shifted fields form a 64-bit word |
| MultiBlockChange.DecodeSectionPosition | MinecraftQuarryClient.py:94-99 | the 8 position bytes decode to a representable position |
| MultiBlockChange.EncodeSectionPosition | MinecraftQuarryClient.py:94-99 | a position encodes to exactly 8 bytes |
| MultiBlockChange.SectionPositionRoundTrip | MinecraftQuarryClient.py:94-99 | every representable (x, z, y) survives encoding and decoding, as a word and as bytes |
| MultiBlockChange.SectionWordRoundTrip | MinecraftQuarryClient.py:94-99 | every 64-bit word is the encoding of the position it decodes to |
| MultiBlockChange.SectionBytesRoundTrip | MinecraftQuarryClient.py:94-99 | every 8-byte position field is the encoding of the position it decodes to |
| MultiBlockChange.DecodeRecord | MinecraftQuarryClient.py:103-106 | a record splits into a state id below 2^52 and x, y, z below 16 |
| MultiBlockChange.EncodeRecord | MinecraftQuarryClient.py:103-106 | a representable block change encodes to a 64-bit record |
| MultiBlockChange.RecordRoundTrip | MinecraftQuarryClient.py:103-106 | every representable block change survives encoding and decoding |
| MultiBlockChange.RecordWordRoundTrip | MinecraftQuarryClient.py:103-106 | every 64-bit record is the encoding of the block change it decodes to |
| MultiBlockChange.DecodeBlocks | MinecraftQuarryClient.py:101-107 | one block change per record, in order, so there are `blocks_array_size` of them, each representable and re-encoding to its record |
| Layouts.WindowItems | MinecraftQuarryClient.py:182-196 | window items starts with the window id, always carries the count and the items, and has 5 fields from protocol 755 and 3 before; WindowItemsVersions places the gated fields |
| Layouts.SetSlot | MinecraftQuarryClient.py:200-207 | set slot starts with the window id and always carries the slot number and the slot data; SetSlotVersions places the state id |
| Layouts.PlayerPositionAndLook | MinecraftQuarryClient.py:263-274 | player position and look starts with x and always carries y, z, yaw, pitch, the flags and the teleport id; PlayerPositionAndLookVersions places the dismount flag |
| Layouts.LoginSuccess | MinecraftQuarryClient.py:320-326 | login success carries the UUID and the display name and no state id; LoginSuccessVersions gives the UUID's encoding by version |
| Layouts.ClientSettings | MinecraftQuarryClient.py:242-259 | client settings starts with the locale and always carries view distance, chat mode, chat colours, skin parts and main hand; ClientSettingsVersions places the text-filtering flag |
| Layouts.ClickWindow | MinecraftQuarryClient.py:491-525 | click window starts with the window id and always carries the slot number, button, mode and clicked item; ClickWindowVersions places the gated fields |
| Layouts.WindowItemsVersions | MinecraftQuarryClient.py:182-196 | window items carries a state id and a trailing carried item exactly from protocol 755; its count is a varint from 755 and a short before |
| Layouts.SetSlotVersions | MinecraftQuarryClient.py:200-207 | set slot carries a state id exactly from protocol 755, making 4 fields instead of 3, and always ends with the slot data |
| Layouts.PlayerPositionAndLookVersions | MinecraftQuarryClient.py:263-274 | player position and look carries the dismount flag exactly from protocol 755, after the teleport id |
| Layouts.LoginSuccessVersions | MinecraftQuarryClient.py:320-326 | login success reads a 128-bit UUID from protocol 735 and a string before, then the display name |
| Layouts.ClientSettingsVersions | MinecraftQuarryClient.py:242-259 | client settings ends with the text-filtering flag exactly from protocol 755 |
| Layouts.ClickWindowVersions | MinecraftQuarryClient.py:491-525 | click window carries a state id and the changed-slot list exactly from 755 and an action number exactly before 755, starts with the window id, and always ends with the clicked item |
| Layouts.WindowItemsCommonFields | MinecraftQuarryClient.py:182-196 | without the version-dependent fields, every version reads the window id and then the items |
| Layouts.SetSlotCommonFields | MinecraftQuarryClient.py:200-207 | without the state id, every version reads the pre-1.17 set slot layout |
| Layouts.PlayerPositionAndLookCommonFields | MinecraftQuarryClient.py:263-274 | without the dismount flag, every version reads the pre-1.17 layout |
| Layouts.ClientSettingsCommonFields | MinecraftQuarryClient.py:242-259 | without the text-filtering flag, every version writes the pre-1.17 layout |
| Layouts.ClickWindowCommonFields | MinecraftQuarryClient.py:491-525 | without the version-dependent fields, every version writes window id, slot, button, mode and clicked item, in that order |
| Client.DayTime | MinecraftQuarryClient.py:1070 | the stored time of day lies in [0, 24000) and differs from the received time by whole days |
| Client.DayTimePeriodic | MinecraftQuarryClient.py:1070 | shifting the clock by a day keeps the time of day, and a clock of -1 gives 23999 |
| Client.Degrees | MinecraftQuarryClient.py:928-929 | a rotation byte converts to degrees exactly when it is present, and the result times the unit is the byte times the half turn |
| Client.Moved | MinecraftQuarryClient.py:922-930 | the move completes exactly when the position is known; then the entity is shifted by the deltas, turned to the given rotations in degrees and takes the ground flag; otherwise it is left as the interrupted delta move left it |
| Client.RotationInDegrees | MinecraftQuarryClient.py:928-929 | the yaw conversion a/128*180 and the pitch conversion a/64*90 agree, and a signed byte maps into [-180, 180) degrees |
| Client.SpawnedPlayerMoves | MinecraftQuarryClient.py:887-899 | a spawned player has its id, UUID, position and player flag set and no health; any later relative move of it completes |
| Client.LookKeepsPosition | MinecraftQuarryClient.py:914-930 | a look packet, which has no deltas, leaves a known position unchanged and only sets rotation and ground flag |
| Client.MoveWithoutPositionFails | MinecraftQuarryClient.py:922-926 | moving an entity whose position is unknown changes nothing and raises |
| Client.TeleportForgetsMoves | MinecraftQuarryClient.py:941-950 | a teleport sets an absolute position, so a relative move before it makes no difference |
| Client.Exchanged | MinecraftQuarryClient.py:1015-1016 | on a readable slot, the new held item is the slot's old contents, the slot holds the old held item (`None` included), every other slot is unchanged, and the slot count is kept |
| Client.Switched | MinecraftQuarryClient.py:1002-1044 | the three exchanges complete exactly when both slots are valid indexes holding stacks and a stack (not `None`) is held, and the slot count is unchanged |
| Client.SwitchTradesStacks | MinecraftQuarryClient.py:1002-1044 | for two different readable slots and a held stack, the stacks are exchanged, every other slot is unchanged, the held item is back to what it was, and the switch completes |
| Client.SwitchSameSlot | MinecraftQuarryClient.py:1002-1044 | switching a readable slot with itself while holding a stack exchanges the two, and completes |
| Client.SwitchUndone | MinecraftQuarryClient.py:1002-1044 | holding a stack, a switch of two readable slots is symmetric in them, and repeating it restores slots and held item and completes again |
| Client.SwitchEmptyHandStops | MinecraftQuarryClient.py:1002-1044 | with `None` held, the pick-up leaves `None` in the source slot, so the switch fails at the next read of it: after the second exchange for two different slots (the destination stack on the cursor, the source stack on the destination), and after the first for the same slot |
| Client.SwitchStopsAtUnreadableSource | MinecraftQuarryClient.py:1005-1007 | a source slot with an invalid index or `None` raises at the first read, and nothing changes |
| Client.SwitchStopsAtBadDestination | MinecraftQuarryClient.py:1002-1030 | with a readable source and an invalid destination, the source stack stays on the cursor, the old held item is in the source slot, and the switch fails |
| Client.QuarryClient.constructor | MinecraftQuarryClient.py:622-637 | a new client has the player's inventory, with 46 empty slots, no state id, selected slot 0 and a window with no id or template linked back to it, and a world with no entities and no clock |
| Client.QuarryClient.HeldItemChange | MinecraftQuarryClient.py:237-240 | the selected slot becomes 36 + slot, the hotbar slot of the inventory window |
| Client.QuarryClient.OnSetSlot | MinecraftQuarryClient.py:687-699 | a non-zero state id is stored; window -1 with slot -1 sets only the held item; otherwise the window id is set and the slot is written with Python indexing |
| Client.QuarryClient.OnWindowItems | MinecraftQuarryClient.py:848-850 | the inventory's bulk write, and its state-id rule |
| Client.QuarryClient.OnOpenWindow | MinecraftQuarryClient.py:861-863 | the window takes the id, type and title; for a valid type it takes the template's name, ranges and size (the smoker entry as written) and fresh empty slots; an invalid type keeps the slots, name, ranges and size; held item, confirmations, state id and selected slot never change |
| Client.QuarryClient.OnCloseWindow | MinecraftQuarryClient.py:1154-1155 | the window id becomes 0 whatever the packet says, and the slots are not touched |
| Client.QuarryClient.OnWindowConfirmation | MinecraftQuarryClient.py:1046-1053 | the window's confirmation table records the outcome |
| Client.QuarryClient.OnTimeUpdate | MinecraftQuarryClient.py:1068-1070 | the world age is stored as received, and the time of day is reduced into one day |
| Client.QuarryClient.OnVisiblePlayer | MinecraftQuarryClient.py:887-899 | a fresh entity is installed under the id, replacing any old one, with the spawn packet's fields and the player flag set; no other id changes |
| Client.QuarryClient.OnEntityPositionAndRotation | MinecraftQuarryClient.py:914-939 | the entity map never changes; a known entity moves by the deltas and then turns (in degrees), unless its position is unknown; an unknown id is ignored |
| Client.QuarryClient.OnEntityTeleport | MinecraftQuarryClient.py:941-952 | the entity map never changes; a known entity takes the absolute position, the raw rotation bytes and the ground flag |
| Client.QuarryClient.Exchange | MinecraftQuarryClient.py:1015-1016 | one exchange of held item and slot (`Exchanged`) exactly when the slot is readable; no change where reading it raises |
| Client.QuarryClient.SwitchSlots | MinecraftQuarryClient.py:1002-1044 | the slots, the held item and the completion flag become `Switched(old slots and held item, source, destination)` |

## Left out

- Networking, authentication and the Twisted reactor are left out. Packets arrive as already-decoded handler arguments, and sent packets are not modelled.
- The `quarry` buffer primitives (varints, strings, UUIDs, NBT, slots) are not part of this model. Layouts are lists of named, typed fields, not bytes.
- Slot contents are opaque: a cell holds either `None` or a packed value. Only the packing in `SlotsArray.__setitem__` (`pack_slot`) and the unpacking in `__getitem__` (`unpack_slot`) are taken to be inverses; neither is modelled.
- `Slot.from_bytes` and `Slot.to_bytes` are not modelled, and they are not inverses: `from_bytes` reads the item id before the presence flag (QuarryPlayer.py:112-113), while `to_bytes` writes the flag first (QuarryPlayer.py:124-128).
- Chunk and palette decoding, including the `world.chunks` calls that receive the multi-block change, is not part of this model. The source does not define `world.chunks`.
- Busy-waits and threads are left out:
  - the spin in `wait_action_id` (only its take-if-present step is modelled);
  - the pre-1.17 retry loops in `switch_slots`, which re-send a click until the server accepts it (the model treats each click as accepted);
  - the login and join spins.
- Window ids and action numbers are `nat`: `_fix_confirmations_length` never terminates for a negative index, because `range(len)` never contains one.
- Floating point is modelled as exact `real` arithmetic, with no IEEE rounding.
- Client.QuarryClient.OnTimeUpdate: the final callback reads `world.day_state`, which is never defined. That raises AttributeError after both fields are stored. Only the stored fields are modelled.
- Client.QuarryClient.OnWindowConfirmation: the apology packet sent for a rejected action is output, so it is left out.
- Login success is modelled only as its layout. Storing the UUID and the protocol-mode switch belong to the connection state, which is left out.
- The source has no unsupported-version error: below protocol 735 login success reads the UUID as a string.
- Entities.Entity.UpdateOption: the source's `setattr` accepts any attribute name. The model accepts only the fields the handlers pass.
- MultiBlockChange.DecodeBlocks: it takes records already read as unsigned values below 2^64. The sign handling of the library's varint is not modelled.
- The boolean read between the section position and the record count is discarded by the source and is not modelled.
- The `on_*` user callbacks, printing and chat dispatch are left out.
- Inventories.Window.GetItems: returns the raw cells of the slice. The source unpacks each of them, and a `None` cell in the slice raises; that failure is not modelled.
- Entities.FaceNamed: a name of another attribute of the `BlockFace` class (such as "mro" or "__doc__") makes `getattr` return that attribute, and the following `.value` raises AttributeError; the model gives TOP for it, as for any unknown name.
- Entities.HandNamed: likewise, a name of another attribute of the `Hand` class makes `.value` raise AttributeError; the model gives MAIN for it.
- Entities.Upper: only ASCII is modelled. Python's `str.upper` also maps non-ASCII letters, and can lengthen a string ('ß' becomes 'SS').
- `World.ticks_per_second` and `seconds_per_tick` only pace the sleeps in `break_block`, which are left out with the other waits.

## Findings

| source | as written | input that shows it | evidently intended | confidence | as-written member | corrected member |
|---|---|---|---|---|---|---|
| QuarryPlayer.py:433 | smoker's `main_inventory` is (2, 38) | a smoker window: slot 2 is both `output` and the first `main_inventory` slot | (3, 38), as in furnace and blast furnace | not executed | WindowTypes.SmokerAsWrittenOverlaps | WindowTypes.CorrectedSmokerWellFormed |
| QuarryPlayer.py:514-517 | `slots[lo:hi]` with the template's inclusive `hi` | `window["row_0"]` in generic_9x1 returns slots 0..7, not 0..8 | `slots[lo:hi + 1]` | not executed | Inventories.RowItemsAsWrittenDropsLastSlot | Inventories.MainInventoryItems |
| MinecraftQuarryClient.py:970 | `getattr(BlockFace, face, BlockFace.TOP)` on lower-case names such as "bottom" | `break_block(x, y, z, face="bottom")` sends TOP | upper-case the name first, as `use_item` does | not executed | Entities.LowerCaseNamesIgnored | Entities.FacesFoundByLowerCaseName |
| MinecraftQuarryClient.py:993 | `getattr(Hand, hand, Hand.MAIN)` on lower-case names | `place_block(..., hand="off")` sends MAIN | upper-case the name first | not executed | Entities.LowerCaseNamesIgnored | Entities.HandsFoundIgnoringCase |
