/**
 * The slot store of the client (QuarryPlayer.py, class SlotsArray):
 * a Python list of packed slot records whose length is fixed when it is
 * created, and whose writes swallow the IndexError of a bad index.
 */
module Slots {
  import opened Wrappers

  /** A slot cell as the store holds it: Python `None`, or the packed bytes of an item stack. */
  datatype SlotValue = NoSlot | Packed(bytes: seq<bv8>)

  /** A fresh cell holds the single byte 0, an absent item stack. */
  const EmptySlot: SlotValue := Packed([0])

  /** Python accepts `key` as an index of a list of length `n` when -n <= key < n. */
  predicate InRange(key: int, n: nat) {
    -(n as int) <= key < n
  }

  /** The cell a valid Python index designates: negative indices count from the end. */
  function Position(key: int, n: nat): (p: nat)
    requires InRange(key, n)
    ensures p < n
    ensures p == key || p == key + n
  {
    if key < 0 then key + n else key
  }

  /**
   * `list[key]` followed by `unpack_slot` succeeds: the key is a valid index and
   * the cell holds packed bytes; a `None` cell has nothing to unpack and raises.
   */
  predicate Readable(s: seq<SlotValue>, key: int) {
    InRange(key, |s|) && s[Position(key, |s|)].Packed?
  }

  /** `n` copies of the empty slot, the list `[b'\x00'] * n`. */
  function EmptySlots(n: nat): (r: seq<SlotValue>)
    ensures |r| == n
    ensures forall i :: 0 <= i < n ==> r[i] == EmptySlot
  {
    seq(n, _ => EmptySlot)
  }

  /**
   * The list after `list[key] = value` with any IndexError swallowed:
   * the length never changes, a valid key writes exactly one cell, and an
   * invalid key changes nothing.
   */
  function Assigned(s: seq<SlotValue>, key: int, value: SlotValue): (r: seq<SlotValue>)
    ensures |r| == |s|
    ensures InRange(key, |s|) ==> r[Position(key, |s|)] == value
    ensures forall j :: 0 <= j < |s| && !(InRange(key, |s|) && j == Position(key, |s|)) ==> r[j] == s[j]
  {
    if InRange(key, |s|) then s[Position(key, |s|) := value] else s
  }

  /** Of two writes to the same key, only the second is seen. */
  lemma AssignedLastWins(s: seq<SlotValue>, key: int, first: SlotValue, second: SlotValue)
    ensures Assigned(Assigned(s, key, first), key, second) == Assigned(s, key, second)
  {
  }

  /** A negative key in range writes the same cell as the key counted from the start. */
  lemma NegativeKeyCountsFromEnd(s: seq<SlotValue>, key: int, value: SlotValue)
    requires -|s| <= key < 0
    ensures Assigned(s, key, value) == Assigned(s, key + |s|, value)
    ensures Assigned(s, key, value)[|s| + key] == value
  {
  }

  /** Python's slice `s[lo:hi]`: bounds counted from the end when negative, then clamped to the list. */
  function Slice<T>(s: seq<T>, lo: int, hi: int): (r: seq<T>)
    ensures |r| <= |s|
    ensures 0 <= lo <= hi <= |s| ==> r == s[lo..hi]
    ensures 0 <= hi <= lo ==> r == []
  {
    var a := Clamp(lo, |s|);
    var b := Clamp(hi, |s|);
    if a <= b then s[a..b] else []
  }

  /** A slice bound normalised as Python does it. */
  function Clamp(i: int, n: nat): (c: nat)
    ensures c <= n
    ensures 0 <= i <= n ==> c == i
  {
    if i < 0 then (if i + n < 0 then 0 else i + n) else if i > n then n else i
  }

  /** A fixed-length array of slot cells. */
  class SlotsArray {
    const cells: array<SlotValue>

    /** `SlotsArray(size)`: `size` empty slots; a negative size gives an empty list. */
    constructor (size: int)
      ensures fresh(cells)
      ensures cells[..] == EmptySlots(if size < 0 then 0 else size)
    {
      cells := new SlotValue[if size < 0 then 0 else size](_ => EmptySlot);
    }

    function Length(): nat
      reads this
    {
      cells.Length
    }

    /** `__setitem__`: writes one cell, or nothing when the index is out of range. */
    method Set(key: int, value: SlotValue)
      modifies cells
      ensures cells[..] == Assigned(old(cells[..]), key, value)
    {
      if InRange(key, cells.Length) {
        cells[Position(key, cells.Length)] := value;
      }
    }

    /**
     * `__getitem__` on one index: the stored cell, or `None` where the source
     * raises, on an invalid index (IndexError) or on a `None` cell, which
     * `unpack_slot` cannot read.
     */
    method Get(key: int) returns (r: Option<SlotValue>)
      ensures r.Some? <==> Readable(cells[..], key)
      ensures r.Some? ==> r.value == cells[Position(key, cells.Length)] && r.value.Packed?
    {
      if InRange(key, cells.Length) && cells[Position(key, cells.Length)].Packed? {
        r := Some(cells[Position(key, cells.Length)]);
      } else {
        r := None;
      }
    }
  }
}
