/**
 * Entities and the world that holds them (QuarryPlayer.py, classes Entity,
 * EntitiesObject and World), and the block-face and hand enumerations used by
 * outgoing packets.
 */
module Entities {
  import opened Wrappers

  /** A snapshot of every field of an entity. Positions are world units, with `None` until first set. */
  datatype EntityState = EntityState(
    entityId: Option<int>, uuid: Option<nat>, isPlayer: bool,
    x: Option<real>, y: Option<real>, z: Option<real>,
    yaw: Option<real>, pitch: Option<real>, onGround: bool,
    health: Option<real>, food: Option<int>, foodSaturation: Option<real>)

  /** The fields of a fresh `Entity`: nothing known, not a player, on the ground. */
  const Unknown: EntityState :=
    EntityState(None, None, false, None, None, None, None, None, true, None, None, None)

  /**
   * The keyword arguments of `update_option`; `None` stands both for an argument
   * passed as `None` and for one not passed, and in both cases means "keep".
   */
  datatype Update = Update(
    entityId: Option<int>, uuid: Option<nat>, isPlayer: Option<bool>,
    x: Option<real>, y: Option<real>, z: Option<real>,
    yaw: Option<real>, pitch: Option<real>, onGround: Option<bool>)

  const NoUpdate: Update := Update(None, None, None, None, None, None, None, None, None)

  /** `update_option(**kwargs)`: every named field whose value is not `None` takes that value. */
  function Applied(s: EntityState, u: Update): (r: EntityState)
    ensures u.entityId.Some? ==> r.entityId == u.entityId
    ensures u.uuid.Some? ==> r.uuid == u.uuid
    ensures u.isPlayer.Some? ==> r.isPlayer == u.isPlayer.value
    ensures u.x.Some? ==> r.x == u.x
    ensures u.y.Some? ==> r.y == u.y
    ensures u.z.Some? ==> r.z == u.z
    ensures u.yaw.Some? ==> r.yaw == u.yaw
    ensures u.pitch.Some? ==> r.pitch == u.pitch
    ensures u.onGround.Some? ==> r.onGround == u.onGround.value
    ensures u.entityId.None? ==> r.entityId == s.entityId
    ensures u.uuid.None? ==> r.uuid == s.uuid
    ensures u.isPlayer.None? ==> r.isPlayer == s.isPlayer
    ensures u.x.None? ==> r.x == s.x
    ensures u.y.None? ==> r.y == s.y
    ensures u.z.None? ==> r.z == s.z
    ensures u.yaw.None? ==> r.yaw == s.yaw
    ensures u.pitch.None? ==> r.pitch == s.pitch
    ensures u.onGround.None? ==> r.onGround == s.onGround
    ensures r.health == s.health && r.food == s.food && r.foodSaturation == s.foodSaturation
  {
    EntityState(
      Given(u.entityId, s.entityId), Given(u.uuid, s.uuid), GivenFlag(u.isPlayer, s.isPlayer),
      Given(u.x, s.x), Given(u.y, s.y), Given(u.z, s.z),
      Given(u.yaw, s.yaw), Given(u.pitch, s.pitch), GivenFlag(u.onGround, s.onGround),
      s.health, s.food, s.foodSaturation)
  }

  /** One optional field under `update_option`: the new value if one was given, else the old one. */
  function Given<T>(given: Option<T>, kept: Option<T>): (r: Option<T>)
    ensures given.Some? ==> r == given
    ensures given.None? ==> r == kept
  {
    if given.Some? then given else kept
  }

  /** One flag under `update_option`: the new value if one was given, else the old one. */
  function GivenFlag(given: Option<bool>, kept: bool): (r: bool)
    ensures given.Some? ==> r == given.value
    ensures given.None? ==> r == kept
  {
    if given.Some? then given.value else kept
  }

  /** An update of only `None` values leaves an entity as it was, and applying an update twice is applying it once. */
  lemma AppliedKeepsAndSettles(s: EntityState, u: Update)
    ensures Applied(s, NoUpdate) == s
    ensures Applied(Applied(s, u), u) == Applied(s, u)
    ensures Applied(s, u).health == s.health && Applied(s, u).food == s.food
    ensures Applied(s, u).foodSaturation == s.foodSaturation
  {
  }

  /** Two updates that name disjoint fields commute. */
  lemma DisjointUpdatesCommute(s: EntityState, u: Update, v: Update)
    requires u.x.None? || v.x.None?
    requires u.y.None? || v.y.None?
    requires u.z.None? || v.z.None?
    requires u.yaw.None? || v.yaw.None?
    requires u.pitch.None? || v.pitch.None?
    requires u.onGround.None? || v.onGround.None?
    requires u.entityId.None? || v.entityId.None?
    requires u.uuid.None? || v.uuid.None?
    requires u.isPlayer.None? || v.isPlayer.None?
    ensures Applied(Applied(s, u), v) == Applied(Applied(s, v), u)
  {
  }

  /**
   * The world-unit shift of a fixed-point delta, `d / 128 / 32`: the wire
   * carries 4096ths of a block, and a missing delta shifts by 0.
   */
  function DeltaShift(d: Option<int>): (r: real)
    ensures r * 4096.0 == if d.Some? then d.value as real else 0.0
  {
    if d.None? then 0.0 else d.value as real / 128.0 / 32.0
  }

  function Shifted(p: real, d: Option<int>): real {
    p + DeltaShift(d)
  }

  /**
   * `update_from_delta`: add the shift to x, then y, then z. An axis whose
   * coordinate is still `None` raises TypeError in the source, which stops the
   * update after the axes already done; the flag says whether all three were done.
   */
  function DeltaMoved(s: EntityState, dx: Option<int>, dy: Option<int>, dz: Option<int>): (r: (EntityState, bool))
    ensures r.1 <==> s.x.Some? && s.y.Some? && s.z.Some?
    ensures r.1 ==> r.0 == s.(x := Some(Shifted(s.x.value, dx)), y := Some(Shifted(s.y.value, dy)),
                              z := Some(Shifted(s.z.value, dz)))
    ensures !r.1 && s.x.Some? && s.y.None? ==> r.0 == s.(x := Some(Shifted(s.x.value, dx)))
    ensures !r.1 && (s.x.None? || s.y.Some?) ==>
              r.0 == s.(x := if s.x.Some? then Some(Shifted(s.x.value, dx)) else s.x,
                        y := if s.x.Some? then Some(Shifted(s.y.value, dy)) else s.y)
  {
    if s.x.None? then (s, false)
    else
      var s1 := s.(x := Some(s.x.value + DeltaShift(dx)));
      if s1.y.None? then (s1, false)
      else
        var s2 := s1.(y := Some(s1.y.value + DeltaShift(dy)));
        if s2.z.None? then (s2, false)
        else (s2.(z := Some(s2.z.value + DeltaShift(dz))), true)
  }

  function Negated(d: Option<int>): Option<int> {
    if d.Some? then Some(-d.value) else None
  }

  /** A delta move followed by the opposite delta move returns an entity to where it was. */
  lemma DeltaMoveUndone(s: EntityState, dx: Option<int>, dy: Option<int>, dz: Option<int>)
    requires s.x.Some? && s.y.Some? && s.z.Some?
    ensures DeltaMoved(DeltaMoved(s, dx, dy, dz).0, Negated(dx), Negated(dy), Negated(dz)) == (s, true)
  {
    assert DeltaShift(dx) + DeltaShift(Negated(dx)) == 0.0;
    assert DeltaShift(dy) + DeltaShift(Negated(dy)) == 0.0;
    assert DeltaShift(dz) + DeltaShift(Negated(dz)) == 0.0;
  }

  /** A raw delta of 4096 on one axis moves the entity by exactly one block along it. */
  lemma FullBlockDelta(s: EntityState)
    requires s.x.Some? && s.y.Some? && s.z.Some?
    ensures DeltaMoved(s, Some(4096), None, None).0.x == Some(s.x.value + 1.0)
    ensures DeltaMoved(s, Some(4096), None, None).0.y == s.y
    ensures DeltaMoved(s, Some(4096), None, None).0.z == s.z
  {
  }

  class Entity {
    var entityId: Option<int>
    var uuid: Option<nat>
    var isPlayer: bool
    var x: Option<real>
    var y: Option<real>
    var z: Option<real>
    var yaw: Option<real>
    var pitch: Option<real>
    var onGround: bool
    var health: Option<real>
    var food: Option<int>
    var foodSaturation: Option<real>

    function State(): EntityState
      reads this
    {
      EntityState(entityId, uuid, isPlayer, x, y, z, yaw, pitch, onGround, health, food, foodSaturation)
    }

    /** `Entity(client)`: no id, position or rotation yet, not a player, on the ground. */
    constructor ()
      ensures State() == Unknown
    {
      entityId, uuid, isPlayer := None, None, false;
      x, y, z := None, None, None;
      yaw, pitch, onGround := None, None, true;
      health, food, foodSaturation := None, None, None;
    }

    /** `update_option`: set each named field whose new value is not `None`; the rest keep their values. */
    method UpdateOption(u: Update)
      modifies this
      ensures State() == Applied(old(State()), u)
    {
      var next := Applied(State(), u);
      entityId, uuid, isPlayer := next.entityId, next.uuid, next.isPlayer;
      x, y, z, yaw, pitch := next.x, next.y, next.z, next.yaw, next.pitch;
      onGround := next.onGround;
    }

    /** `update_from_delta`: `+=` of the fixed-point shift on each axis in turn; false where the source raises. */
    method UpdateFromDelta(dx: Option<int>, dy: Option<int>, dz: Option<int>) returns (ok: bool)
      modifies this
      ensures (State(), ok) == DeltaMoved(old(State()), dx, dy, dz)
    {
      if x.None? { return false; }
      x := Some(x.value + DeltaShift(dx));
      if y.None? { return false; }
      y := Some(y.value + DeltaShift(dy));
      if z.None? { return false; }
      z := Some(z.value + DeltaShift(dz));
      ok := true;
    }
  }

  /** The world: the known entities by id, and the clock set by time updates. */
  class World {
    var entities: map<int, Entity>
    var age: Option<int>
    var timeOfDay: Option<int>

    constructor ()
      ensures entities == map[] && age == None && timeOfDay == None
    {
      entities := map[];
      age, timeOfDay := None, None;
    }
  }

  /** The face of a block an outgoing digging or placement packet names, by its wire value. */
  datatype BlockFace = Bottom | Top | North | South | West | East

  /** The hand an outgoing use or placement packet names, by its wire value. */
  datatype Hand = MainHand | OffHand

  function FaceValue(f: BlockFace): (v: nat)
    ensures v < 6
  {
    match f
    case Bottom => 0
    case Top => 1
    case North => 2
    case South => 3
    case West => 4
    case East => 5
  }

  /** `BlockFace(v)`: the member with wire value `v`; other values raise ValueError. */
  function FaceOf(v: int): (r: Option<BlockFace>)
    ensures r.Some? <==> 0 <= v < 6
    ensures r.Some? ==> FaceValue(r.value) == v
  {
    if v == 0 then Some(Bottom) else if v == 1 then Some(Top) else if v == 2 then Some(North)
    else if v == 3 then Some(South) else if v == 4 then Some(West) else if v == 5 then Some(East)
    else None
  }

  /** Every face survives the trip through its wire value. */
  lemma FaceValueRoundTrip(f: BlockFace)
    ensures FaceOf(FaceValue(f)) == Some(f)
  {
  }

  function HandValue(h: Hand): (v: nat)
    ensures v < 2
  {
    match h
    case MainHand => 0
    case OffHand => 1
  }

  function HandOf(v: int): (r: Option<Hand>)
    ensures r.Some? <==> 0 <= v < 2
    ensures r.Some? ==> HandValue(r.value) == v
  {
    if v == 0 then Some(MainHand) else if v == 1 then Some(OffHand) else None
  }

  /** Every hand survives the trip through its wire value. */
  lemma HandValueRoundTrip(h: Hand)
    ensures HandOf(HandValue(h)) == Some(h)
  {
  }

  /** The enumeration member names, as the Python classes declare them. */
  function FaceName(f: BlockFace): string {
    match f
    case Bottom => "BOTTOM"
    case Top => "TOP"
    case North => "NORTH"
    case South => "SOUTH"
    case West => "WEST"
    case East => "EAST"
  }

  function HandName(h: Hand): string {
    match h
    case MainHand => "MAIN"
    case OffHand => "OFF"
  }

  function UpperChar(c: char): char {
    if 'a' <= c <= 'z' then (c as int - 32) as char else c
  }

  /** Python's `str.upper` on ASCII letters. */
  function Upper(s: string): (r: string)
    ensures |r| == |s|
    ensures forall i :: 0 <= i < |s| ==> r[i] == UpperChar(s[i])
  {
    if s == [] then [] else [UpperChar(s[0])] + Upper(s[1..])
  }

  /** `getattr(BlockFace, name, BlockFace.TOP)`: the member spelled exactly `name`, else TOP. */
  function FaceNamed(name: string): (r: BlockFace)
    ensures forall f :: name == FaceName(f) ==> r == f
    ensures r != Top ==> name == FaceName(r)
  {
    if name == "BOTTOM" then Bottom else if name == "TOP" then Top else if name == "NORTH" then North
    else if name == "SOUTH" then South else if name == "WEST" then West else if name == "EAST" then East
    else Top
  }

  /** `getattr(Hand, name, Hand.MAIN)`: the member spelled exactly `name`, else MAIN. */
  function HandNamed(name: string): (r: Hand)
    ensures forall h :: name == HandName(h) ==> r == h
    ensures r != MainHand ==> name == HandName(r)
  {
    if name == "OFF" then OffHand else MainHand
  }

  /**
   * The lookup as `break_block`, `start_breaking_block`, `stop_breaking_block`
   * and `place_block` do it, on the lower-case names they take ("top", "main"):
   * no lower-case name matches a member, so every face comes out as TOP and
   * every hand as MAIN.
   */
  lemma LowerCaseNamesIgnored()
    ensures FaceNamed("bottom") == Top && FaceNamed("north") == Top && FaceNamed("east") == Top
    ensures HandNamed("off") == MainHand
  {
  }

  /** The lookup with the name upper-cased first, as `use_item` does for hands. */
  function FaceNamedIgnoringCase(name: string): BlockFace {
    FaceNamed(Upper(name))
  }

  function HandNamedIgnoringCase(name: string): Hand {
    HandNamed(Upper(name))
  }

  function LowerFaceName(f: BlockFace): string {
    match f
    case Bottom => "bottom"
    case Top => "top"
    case North => "north"
    case South => "south"
    case West => "west"
    case East => "east"
  }

  /** Upper-casing first, every face is found under its lower-case name. */
  lemma FacesFoundByLowerCaseName(f: BlockFace)
    ensures FaceNamedIgnoringCase(LowerFaceName(f)) == f
  {
    if f.Bottom? || f.Top? || f.North? {
      VerticalAndNorthUpperCased(f);
    } else {
      SouthWestEastUpperCased(f);
    }
  }

  lemma VerticalAndNorthUpperCased(f: BlockFace)
    requires f.Bottom? || f.Top? || f.North?
    ensures Upper(LowerFaceName(f)) == FaceName(f)
  {
    match f
    case Bottom => assert Upper("bottom") == "BOTTOM";
    case Top => assert Upper("top") == "TOP";
    case North => assert Upper("north") == "NORTH";
  }

  lemma SouthWestEastUpperCased(f: BlockFace)
    requires f.South? || f.West? || f.East?
    ensures Upper(LowerFaceName(f)) == FaceName(f)
  {
    match f
    case South => assert Upper("south") == "SOUTH";
    case West => assert Upper("west") == "WEST";
    case East => assert Upper("east") == "EAST";
  }

  /** Upper-casing first still finds every face under its member name. */
  lemma FacesFoundByMemberName(f: BlockFace)
    ensures FaceNamedIgnoringCase(FaceName(f)) == f
  {
    if f.Bottom? || f.Top? || f.North? {
      VerticalAndNorthKept(f);
    } else {
      SouthWestEastKept(f);
    }
  }

  lemma VerticalAndNorthKept(f: BlockFace)
    requires f.Bottom? || f.Top? || f.North?
    ensures Upper(FaceName(f)) == FaceName(f)
  {
    match f
    case Bottom => assert Upper("BOTTOM") == "BOTTOM";
    case Top => assert Upper("TOP") == "TOP";
    case North => assert Upper("NORTH") == "NORTH";
  }

  lemma SouthWestEastKept(f: BlockFace)
    requires f.South? || f.West? || f.East?
    ensures Upper(FaceName(f)) == FaceName(f)
  {
    match f
    case South => assert Upper("SOUTH") == "SOUTH";
    case West => assert Upper("WEST") == "WEST";
    case East => assert Upper("EAST") == "EAST";
  }

  /** Upper-casing first, every hand is found under its lower-case and its member name. */
  lemma HandsFoundIgnoringCase(h: Hand)
    ensures HandNamedIgnoringCase(if h == MainHand then "main" else "off") == h
    ensures HandNamedIgnoringCase(HandName(h)) == h
  {
    assert Upper("main") == "MAIN" && Upper("MAIN") == "MAIN";
    assert Upper("off") == "OFF" && Upper("OFF") == "OFF";
  }
}
