/**
 * The RGB facade: colouring keys through the native RGB SDK. The native library
 * itself is not modelled; an `RgbKeyboard` records, in order, the native calls
 * its methods make, so that what the facade sends (and in particular the reset
 * it sends when the keyboard handle goes away) can be stated and proved.
 */
module Rgb {
  import opened Wooting

  /** How many bytes make up one colour: red, green and blue. */
  const Components: nat := 3

  /** The length of the flattened colour array: one colour per matrix cell. */
  const ArrayLength: nat := Components * Columns * Rows

  datatype Color = Color(red: byte, green: byte, blue: byte)

  /** The `k`-th byte of a colour in the flattened array: red, then green, then blue. */
  function Channel(color: Color, k: int): byte
    requires 0 <= k < Components
  {
    if k == 0 then color.red else if k == 1 then color.green else color.blue
  }

  /** Where the colour of the cell `(row, column)` starts in the flattened array: row-major, three bytes per cell. */
  function SlotStart(row: int, column: int): int
  {
    row * (Columns * Components) + column * Components
  }

  /** Where a key's colour starts in the flattened array. */
  function Offset(key: Key): (offset: nat)
    ensures offset % Components == 0
    ensures offset + Components <= ArrayLength
  {
    SlotStart(MatrixAddress(key).0, MatrixAddress(key).1)
  }

  /** Two cells of the matrix whose slots share a byte are the same cell. */
  lemma SlotsDisjoint(r1: int, c1: int, r2: int, c2: int, i: int)
    requires 0 <= c1 < Columns && 0 <= c2 < Columns
    requires SlotStart(r1, c1) <= i < SlotStart(r1, c1) + Components
    requires SlotStart(r2, c2) <= i < SlotStart(r2, c2) + Components
    ensures r1 == r2 && c1 == c2
  {
  }

  /** Distinct keys own disjoint three-byte slots of the flattened array. */
  lemma OffsetsDisjoint(k1: Key, k2: Key, i: int)
    requires Offset(k1) <= i < Offset(k1) + Components
    requires Offset(k2) <= i < Offset(k2) + Components
    ensures k1 == k2
  {
    var cell1, cell2 := MatrixAddress(k1), MatrixAddress(k2);
    SlotsDisjoint(cell1.0, cell1.1, cell2.0, cell2.1, i);
    assert cell1 == cell2;
    MatrixAddressInjective(k1, k2);
  }

  /**
   * Byte `i` of the array `array_set_full` builds from `entries`: the matching
   * channel of the last entry whose slot covers `i`, or zero when none does.
   */
  function FlattenedByte(entries: seq<(Key, Color)>, i: int): byte
    decreases |entries|
  {
    if entries == [] then 0
    else
      var (key, color) := entries[|entries| - 1];
      if Offset(key) <= i < Offset(key) + Components then Channel(color, i - Offset(key))
      else FlattenedByte(entries[..|entries| - 1], i)
  }

  /** The colour the last entry naming `key` gives it, if any entry does. */
  function LastColor(entries: seq<(Key, Color)>, key: Key): Option<Color>
    decreases |entries|
  {
    if entries == [] then None
    else if entries[|entries| - 1].0 == key then Some(entries[|entries| - 1].1)
    else LastColor(entries[..|entries| - 1], key)
  }

  /**
   * Builds the flattened colour array for `entries`: zero everywhere, then each
   * entry's colour written at its key's slot, in order.
   */
  method Flatten(entries: seq<(Key, Color)>) returns (flattened: array<byte>)
    ensures flattened.Length == ArrayLength
    ensures forall i :: 0 <= i < ArrayLength ==> flattened[i] == FlattenedByte(entries, i)
  {
    flattened := new byte[ArrayLength](_ => 0);
    for j := 0 to |entries|
      invariant flattened.Length == ArrayLength
      invariant forall i :: 0 <= i < ArrayLength ==> flattened[i] == FlattenedByte(entries[..j], i)
    {
      var (key, color) := entries[j];
      var (row, column) := MatrixAddress(key);
      var index := SlotStart(row, column);
      assert index == Offset(key);
      flattened[index] := color.red;
      flattened[index + 1] := color.green;
      flattened[index + 2] := color.blue;
      assert entries[..j + 1][..j] == entries[..j];
    }
    assert entries[..|entries|] == entries;
  }

  /** A key's slot holds the colour of the last entry naming it, or zeros when none does. */
  lemma {:induction false} LastEntryWins(entries: seq<(Key, Color)>, key: Key, k: int)
    requires 0 <= k < Components
    ensures LastColor(entries, key).Some? ==> FlattenedByte(entries, Offset(key) + k) == Channel(LastColor(entries, key).value, k)
    ensures LastColor(entries, key).None? ==> FlattenedByte(entries, Offset(key) + k) == 0
    decreases |entries|
  {
    if entries != [] {
      var (last, _) := entries[|entries| - 1];
      if last != key {
        if Offset(last) <= Offset(key) + k < Offset(last) + Components {
          OffsetsDisjoint(last, key, Offset(key) + k);
        }
        LastEntryWins(entries[..|entries| - 1], key, k);
      }
    }
  }

  /** A byte outside every entry's slot stays zero. */
  lemma {:induction false} UncoveredIsZero(entries: seq<(Key, Color)>, i: int)
    requires forall e :: e in entries ==> !(Offset(e.0) <= i < Offset(e.0) + Components)
    ensures FlattenedByte(entries, i) == 0
    decreases |entries|
  {
    if entries != [] {
      var rest := entries[..|entries| - 1];
      assert forall e :: e in rest ==> e in entries;
      UncoveredIsZero(rest, i);
    }
  }

  /** A matrix cell without a key always stays black in the flattened array. */
  lemma EmptyCellIsZero(entries: seq<(Key, Color)>, row: int, column: int, k: int)
    requires 0 <= row < Rows && 0 <= column < Columns && 0 <= k < Components
    requires KeyAt(row, column).None?
    ensures FlattenedByte(entries, SlotStart(row, column) + k) == 0
  {
    var i := SlotStart(row, column) + k;
    forall e | e in entries
      ensures !(Offset(e.0) <= i < Offset(e.0) + Components)
    {
      KeyAtMatrixAddress(e.0);
      assert MatrixAddress(e.0) != (row, column);
    }
    UncoveredIsZero(entries, i);
  }

  /** One call the facade makes into the native RGB library. */
  datatype RgbCall =
    | DirectSetKey(row: byte, column: byte, red: byte, green: byte, blue: byte)
    | DirectResetKey(row: byte, column: byte)
    | ArrayUpdateKeyboard
    | ArrayAutoUpdate(enabled: bool)
    | ArraySetSingle(row: byte, column: byte, red: byte, green: byte, blue: byte)
    | ArraySetFull(colors: seq<byte>)
    | Reset

  /**
   * A call the facade can make: every cell it names holds a key, and every full
   * colour array it hands over has exactly one colour per matrix cell.
   */
  predicate WellFormed(call: RgbCall)
  {
    match call
    case DirectSetKey(row, column, _, _, _) => KeyAt(row, column).Some?
    case DirectResetKey(row, column) => KeyAt(row, column).Some?
    case ArraySetSingle(row, column, _, _, _) => KeyAt(row, column).Some?
    case ArraySetFull(colors) => |colors| == ArrayLength
    case _ => true
  }

  /**
   * The handle to a connected keyboard. It carries no data of its own in the
   * library; here it carries, as ghost state, the calls made through it so far
   * and whether it has been dropped.
   */
  class RgbKeyboard {
    ghost var calls: seq<RgbCall>
    ghost var dropped: bool

    ghost predicate Valid()
      reads this
    {
      forall call :: call in calls ==> WellFormed(call)
    }

    /** The default handle: nothing sent yet. */
    constructor()
      ensures Valid() && calls == [] && !dropped
    {
      calls := [];
      dropped := false;
    }

    /** Sets one key's colour directly, bypassing the colour array. */
    method DirectSetKey(key: Key, red: byte, green: byte, blue: byte)
      requires Valid() && !dropped
      modifies this
      ensures Valid() && !dropped
      ensures calls == old(calls) + [RgbCall.DirectSetKey(MatrixAddress(key).0, MatrixAddress(key).1, red, green, blue)]
    {
      KeyAtMatrixAddress(key);
      var (row, column) := MatrixAddress(key);
      calls := calls + [RgbCall.DirectSetKey(row, column, red, green, blue)];
    }

    /** Resets one key's colour directly, bypassing the colour array. */
    method DirectResetKey(key: Key)
      requires Valid() && !dropped
      modifies this
      ensures Valid() && !dropped
      ensures calls == old(calls) + [RgbCall.DirectResetKey(MatrixAddress(key).0, MatrixAddress(key).1)]
    {
      KeyAtMatrixAddress(key);
      var (row, column) := MatrixAddress(key);
      calls := calls + [RgbCall.DirectResetKey(row, column)];
    }

    /** Applies the pending colour-array changes to the keyboard. */
    method ArrayUpdate()
      requires Valid() && !dropped
      modifies this
      ensures Valid() && !dropped
      ensures calls == old(calls) + [ArrayUpdateKeyboard]
    {
      calls := calls + [ArrayUpdateKeyboard];
    }

    /** Turns applying every colour-array change at once on or off. */
    method ArrayAutoUpdate(autoUpdate: bool)
      requires Valid() && !dropped
      modifies this
      ensures Valid() && !dropped
      ensures calls == old(calls) + [RgbCall.ArrayAutoUpdate(autoUpdate)]
    {
      calls := calls + [RgbCall.ArrayAutoUpdate(autoUpdate)];
    }

    /** Sets one key's colour in the colour array. */
    method ArraySetSingle(key: Key, red: byte, green: byte, blue: byte)
      requires Valid() && !dropped
      modifies this
      ensures Valid() && !dropped
      ensures calls == old(calls) + [RgbCall.ArraySetSingle(MatrixAddress(key).0, MatrixAddress(key).1, red, green, blue)]
    {
      KeyAtMatrixAddress(key);
      var (row, column) := MatrixAddress(key);
      calls := calls + [RgbCall.ArraySetSingle(row, column, red, green, blue)];
    }

    /**
     * Replaces the whole colour array: keys named in `entries` get the colour of
     * their last entry, every other cell is black.
     */
    method ArraySetFull(entries: seq<(Key, Color)>)
      requires Valid() && !dropped
      modifies this
      ensures Valid() && !dropped
      ensures |calls| == |old(calls)| + 1 && calls[..|old(calls)|] == old(calls)
      ensures calls[|old(calls)|].ArraySetFull? && |calls[|old(calls)|].colors| == ArrayLength
      ensures forall i :: 0 <= i < ArrayLength ==> calls[|old(calls)|].colors[i] == FlattenedByte(entries, i)
    {
      var flattened := Flatten(entries);
      calls := calls + [RgbCall.ArraySetFull(flattened[..])];
    }

    /** Restores the colours the keyboard had before the application changed them. */
    method ResetAll()
      requires Valid() && !dropped
      modifies this
      ensures Valid() && !dropped
      ensures calls == old(calls) + [Reset]
    {
      calls := calls + [Reset];
    }

    /**
     * Giving up the handle: whatever was sent before, the keyboard is reset and
     * auto-update is switched back off, in that order.
     */
    method Drop()
      requires Valid() && !dropped
      modifies this
      ensures Valid() && dropped
      ensures calls == old(calls) + [Reset, RgbCall.ArrayAutoUpdate(false)]
    {
      ResetAll();
      ArrayAutoUpdate(false);
      dropped := true;
    }
  }
}
