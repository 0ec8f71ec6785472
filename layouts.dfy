/**
 * The version-dependent field layouts of the packets the client reads and
 * writes (MinecraftQuarryClient.py). A layout is the list of fields in wire
 * order, each tagged with its name and with how the protocol library packs
 * it; the byte encodings themselves belong to that library. Each layout is
 * written as the source builds it: fixed fields, and fields a version test
 * lets in or keeps out.
 */
module Layouts {

  /** Protocol 735 (Minecraft 1.16): login success carries a binary UUID from here on. */
  const Version1_16: nat := 735

  /** Protocol 755 (Minecraft 1.17): state ids, carried items and the other 1.17 fields from here on. */
  const Version1_17: nat := 755

  /** How a field is packed: the struct codes 'B', 'b', 'h', '?', 'd', 'f', and the library's own codecs. */
  datatype Kind =
    | UnsignedByte | SignedByte | Short | Boolean | Double | Float
    | VarInt | Uuid128 | Text | Slot
    | SlotList       // `count` slots
    | IndexedSlots   // a varint count, then (short slot number, slot) pairs

  datatype FieldName =
    | WindowId | StateId | Count | Items | CarriedItem
    | SlotNumber | SlotData
    | X | Y | Z | Yaw | Pitch | Flags | TeleportId | DismountVehicle
    | PlayerUuid | DisplayName
    | Locale | ViewDistance | ChatMode | ChatColors | DisplayedSkinParts | MainHand | DisableTextFiltering
    | Button | ActionId | Mode | ChangedSlots | ClickedItem

  datatype Field = Field(name: FieldName, kind: Kind)

  /** A packet's fields in wire order. */
  datatype Layout = End | Then(field: Field, rest: Layout)

  /** `rest` preceded by `f` when the version test `open` holds, `rest` alone otherwise. */
  function Gate(open: bool, f: Field, rest: Layout): Layout {
    if open then Then(f, rest) else rest
  }

  /** The layout carries a field of that name. */
  predicate Carries(layout: Layout, name: FieldName) {
    layout.Then? && (layout.field.name == name || Carries(layout.rest, name))
  }

  /** The last field on the wire. */
  function Last(layout: Layout): Field
    requires layout.Then?
  {
    if layout.rest.End? then layout.field else Last(layout.rest)
  }

  function Length(layout: Layout): nat {
    if layout.End? then 0 else 1 + Length(layout.rest)
  }

  /** The layout without the fields whose names are in `names`, order kept. */
  function Without(layout: Layout, names: set<FieldName>): Layout {
    if layout.End? then End
    else if layout.field.name in names then Without(layout.rest, names)
    else Then(layout.field, Without(layout.rest, names))
  }

  /** `packet_window_items`: from 1.17 a state id, a varint count and the carried item; before, a short count. */
  function WindowItems(version: nat): (r: Layout)
    ensures r.Then? && r.field == Field(WindowId, UnsignedByte)
    ensures Carries(r, Count) && Carries(r, Items)
    ensures Length(r) == if version >= Version1_17 then 5 else 3
  {
    Then(Field(WindowId, UnsignedByte),
    Gate(version >= Version1_17, Field(StateId, VarInt),
    Then(if version >= Version1_17 then Field(Count, VarInt) else Field(Count, Short),
    Then(Field(Items, SlotList),
    Gate(version >= Version1_17, Field(CarriedItem, Slot),
    End)))))
  }

  /** `packet_set_slot`: a state id from 1.17 on. */
  function SetSlot(version: nat): (r: Layout)
    ensures r.Then? && r.field == Field(WindowId, SignedByte)
    ensures Carries(r, SlotNumber) && Carries(r, SlotData)
  {
    Then(Field(WindowId, SignedByte),
    Gate(version >= Version1_17, Field(StateId, VarInt),
    Then(Field(SlotNumber, Short),
    Then(Field(SlotData, Slot),
    End))))
  }

  /** `packet_player_position_and_look`: the dismount flag from 1.17 on, after the teleport id. */
  function PlayerPositionAndLook(version: nat): (r: Layout)
    ensures r.Then? && r.field == Field(X, Double)
    ensures Carries(r, Y) && Carries(r, Z) && Carries(r, Yaw) && Carries(r, Pitch)
    ensures Carries(r, Flags) && Carries(r, TeleportId)
  {
    Then(Field(X, Double), Then(Field(Y, Double), Then(Field(Z, Double),
    Then(Field(Yaw, Float), Then(Field(Pitch, Float),
    Then(Field(Flags, UnsignedByte),
    Then(Field(TeleportId, VarInt),
    Gate(version >= Version1_17, Field(DismountVehicle, UnsignedByte),
    End))))))))
  }

  /** `packet_login_success`: the player's UUID is 128 bits from 1.16 on and a string before. */
  function LoginSuccess(version: nat): (r: Layout)
    ensures Carries(r, PlayerUuid) && Carries(r, DisplayName)
    ensures !Carries(r, StateId)
  {
    Then(Field(PlayerUuid, if version >= Version1_16 then Uuid128 else Text),
    Then(Field(DisplayName, Text),
    End))
  }

  /** `send_client_settings`: the text-filtering flag is appended from 1.17 on. */
  function ClientSettings(version: nat): (r: Layout)
    ensures r.Then? && r.field == Field(Locale, Text)
    ensures Carries(r, ViewDistance) && Carries(r, ChatMode) && Carries(r, ChatColors)
    ensures Carries(r, DisplayedSkinParts) && Carries(r, MainHand)
  {
    Then(Field(Locale, Text), Then(Field(ViewDistance, SignedByte), Then(Field(ChatMode, VarInt),
    Then(Field(ChatColors, Boolean), Then(Field(DisplayedSkinParts, UnsignedByte), Then(Field(MainHand, VarInt),
    Gate(version >= Version1_17, Field(DisableTextFiltering, UnsignedByte),
    End)))))))
  }

  /**
   * `send_click_window`: a state id and the changed-slot list from 1.17 on,
   * an action number before it, and the clicked item always last.
   */
  function ClickWindow(version: nat): (r: Layout)
    ensures r.Then? && r.field == Field(WindowId, UnsignedByte)
    ensures Carries(r, SlotNumber) && Carries(r, Button) && Carries(r, Mode) && Carries(r, ClickedItem)
  {
    Then(Field(WindowId, UnsignedByte),
    Gate(version >= Version1_17, Field(StateId, VarInt),
    Then(Field(SlotNumber, Short),
    Then(Field(Button, SignedByte),
    Gate(version < Version1_17, Field(ActionId, Short),
    Then(Field(Mode, VarInt),
    Gate(version >= Version1_17, Field(ChangedSlots, IndexedSlots),
    Then(Field(ClickedItem, Slot),
    End))))))))
  }

  /**
   * Window items carries a state id and a trailing carried item exactly from
   * 1.17 on; its count is a varint from 1.17 on and a short before.
   */
  lemma WindowItemsVersions(version: nat)
    ensures Carries(WindowItems(version), StateId) <==> version >= Version1_17
    ensures Carries(WindowItems(version), CarriedItem) <==> version >= Version1_17
    ensures WindowItems(version).Then? && WindowItems(version).field == Field(WindowId, UnsignedByte)
    ensures WindowItems(version).rest.Then?
         && WindowItems(version).rest.field == if version >= Version1_17 then Field(StateId, VarInt) else Field(Count, Short)
    ensures version >= Version1_17 ==>
              WindowItems(version).rest.rest.Then? && WindowItems(version).rest.rest.field == Field(Count, VarInt)
    ensures Last(WindowItems(version))
         == if version >= Version1_17 then Field(CarriedItem, Slot) else Field(Items, SlotList)
  {
    if version >= Version1_17 {
    } else {
    }
  }

  /** Set slot carries a state id exactly from 1.17 on, between the window id and the slot number. */
  lemma SetSlotVersions(version: nat)
    ensures Carries(SetSlot(version), StateId) <==> version >= Version1_17
    ensures Length(SetSlot(version)) == if version >= Version1_17 then 4 else 3
    ensures SetSlot(version).Then? && SetSlot(version).field == Field(WindowId, SignedByte)
    ensures Last(SetSlot(version)) == Field(SlotData, Slot)
  {
    if version >= Version1_17 {
    } else {
    }
  }

  /** Player position and look ends with the dismount flag exactly from 1.17 on. */
  lemma PlayerPositionAndLookVersions(version: nat)
    ensures Carries(PlayerPositionAndLook(version), DismountVehicle) <==> version >= Version1_17
    ensures Length(PlayerPositionAndLook(version)) == if version >= Version1_17 then 8 else 7
    ensures Last(PlayerPositionAndLook(version))
         == if version >= Version1_17 then Field(DismountVehicle, UnsignedByte) else Field(TeleportId, VarInt)
  {
    if version >= Version1_17 {
    } else {
    }
  }

  /** Login success starts with a binary UUID exactly from 1.16 on, a string before, and ends with the display name. */
  lemma LoginSuccessVersions(version: nat)
    ensures Length(LoginSuccess(version)) == 2
    ensures LoginSuccess(version).Then?
         && LoginSuccess(version).field == Field(PlayerUuid, if version >= Version1_16 then Uuid128 else Text)
    ensures Last(LoginSuccess(version)) == Field(DisplayName, Text)
  {
    if version >= Version1_16 {
    } else {
    }
  }

  /** Client settings ends with the text-filtering flag exactly from 1.17 on. */
  lemma ClientSettingsVersions(version: nat)
    ensures Carries(ClientSettings(version), DisableTextFiltering) <==> version >= Version1_17
    ensures Length(ClientSettings(version)) == if version >= Version1_17 then 7 else 6
    ensures Last(ClientSettings(version))
         == if version >= Version1_17 then Field(DisableTextFiltering, UnsignedByte) else Field(MainHand, VarInt)
  {
    if version >= Version1_17 {
    } else {
    }
  }

  /**
   * Click window carries a state id and the changed-slot list exactly from
   * 1.17 on and an action number exactly before it; the window id comes
   * first and the clicked item last in every version.
   */
  lemma ClickWindowVersions(version: nat)
    ensures Carries(ClickWindow(version), StateId) <==> version >= Version1_17
    ensures Carries(ClickWindow(version), ChangedSlots) <==> version >= Version1_17
    ensures Carries(ClickWindow(version), ActionId) <==> version < Version1_17
    ensures ClickWindow(version).Then? && ClickWindow(version).field == Field(WindowId, UnsignedByte)
    ensures Last(ClickWindow(version)) == Field(ClickedItem, Slot)
  {
    if version >= Version1_17 {
    } else {
    }
  }

  /** Apart from its state id, count and carried item, window items is the same in every version. */
  lemma WindowItemsCommonFields(version: nat)
    ensures Without(WindowItems(version), {StateId, Count, CarriedItem})
         == Then(Field(WindowId, UnsignedByte), Then(Field(Items, SlotList), End))
  {
    if version >= Version1_17 {
    } else {
    }
  }

  /** Apart from the 1.17 state id, set slot is the same in every version. */
  lemma SetSlotCommonFields(version: nat)
    ensures Without(SetSlot(version), {StateId}) == SetSlot(0)
  {
    if version >= Version1_17 {
    } else {
    }
  }

  /** Apart from the 1.17 dismount flag, player position and look is the same in every version. */
  lemma PlayerPositionAndLookCommonFields(version: nat)
    ensures Without(PlayerPositionAndLook(version), {DismountVehicle}) == PlayerPositionAndLook(0)
  {
    if version >= Version1_17 {
    } else {
    }
  }

  /** Apart from the 1.17 text-filtering flag, client settings is the same in every version. */
  lemma ClientSettingsCommonFields(version: nat)
    ensures Without(ClientSettings(version), {DisableTextFiltering}) == ClientSettings(0)
  {
    if version >= Version1_17 {
    } else {
    }
  }

  /** Apart from the state id, the action number and the changed-slot list, click window is the same in every version. */
  lemma ClickWindowCommonFields(version: nat)
    ensures Without(ClickWindow(version), {StateId, ActionId, ChangedSlots})
         == Then(Field(WindowId, UnsignedByte), Then(Field(SlotNumber, Short), Then(Field(Button, SignedByte),
            Then(Field(Mode, VarInt), Then(Field(ClickedItem, Slot), End)))))
  {
    if version >= Version1_17 {
    } else {
    }
  }
}
