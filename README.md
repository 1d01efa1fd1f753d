# wooting-sdk, modelled in Dafny

This project models the Rust wrapper `wooting-sdk` around Wooting's native
analog and RGB keyboard libraries. It has three modules.

- `Wooting` (`wooting.dfy`) holds the physical `Key` enumeration and the tables
  defined over it: the display label of each key, the partial decode from a
  scan index byte to a key (`from_scan_index`), and the `(row, column)` cell
  of each key in the 6 × 21 LED matrix (`into_matrix_row_and_column`). It also
  holds the `WootingError` enumeration. Two inverse tables over matrix cells, `KeyAt` (the key at a
  cell) and `ScanIndexAt` (the lowest scan index of that key), do not exist in
  the library. `ScanIndexAt` only serves the proof of the exact set of decoded
  keys; `ScanIndexOf` reads it at a key's own cell. `KeyAt` does more. It serves
  the proof that the matrix address is injective. It is also how the model says
  "this cell holds a key": it defines the well-formed RGB calls, and so every
  `RgbKeyboard` contract, and it names the empty cells of `EmptyCellIsZero`.
  `KeyAtMatrixAddress` proves one direction: every key is found at its own cell.
  The reverse is not proved: that `KeyAt` finds a key only at that key's cell.
- `Analog` (`analog.dfy`) models the analog facade. `ReadAnalogKey` reads a
  single key. `ReadAnalogKeys` reads a batch of pressed keys. It is generic in
  the scan-index decode, as the library is generic in `K: FromScanIndex`.
- `Rgb` (`rgb.dfy`) models the RGB facade. `Flatten` is the in-place fill of
  the 378-byte colour array built by `array_set_full`. It is a method over an
  `array`, proved against the reference function `FlattenedByte`. The class
  `RgbKeyboard` records the native calls its methods make, in order. This
  lets the model state that dropping the handle resets the keyboard and then
  switches auto-update off.

The native libraries are not modelled. Their answers are passed in as parameters:
- the single-key analog reading is a function of the matrix cell, and the
  connectivity check is a boolean;
- the batch read is a function from the buffer length to what it wrote and
  its `i32` return code;
- the RGB calls are recorded as `RgbCall` values.

A panic in the library is the `Panicked` outcome.

The model follows the code where the code and its documentation disagree.
`read_analog_keys` accepts a count of 16. The documentation of
`InvalidBufferSize` (wooting-sdk/src/lib.rs:69-70) says the count must be less
than sixteen. The model accepts 16, as the guard at wooting-sdk/src/lib.rs:820 does.

The scan-index table is kept as written:
- index 45 decodes to `ISO1`;
- both 40 and 55 decode to `I`;
- no index decodes to `Backslash` or `Apostrophe`.

## Model

| member | source | states |
|---|---|---|
| Wooting.Label | wooting-sdk/src/lib.rs:356-476 | every key has a non-empty display label |
| Wooting.DivideLabel | wooting-sdk/src/lib.rs:401 | the numpad divide key is labelled with a single backslash, the same label as the backslash key (wooting-sdk/src/lib.rs:417) |
| Wooting.FromScanIndex | wooting-sdk/src/lib.rs:478-597 | the decode carries no contract of its own; its properties are the lemmas `DecodableIndices`, `CellScanIndex`, `ScanIndexRoundTrip`, `DecodedKeys` and `SharedScanIndices` below |
| Wooting.DecodableIndices | wooting-sdk/src/lib.rs:478-597 | a scan index decodes to no key exactly when it is 88, 89 or at least 111; no index decodes to `Backslash` or `Apostrophe` |
| Wooting.CellScanIndex | wooting-sdk/src/lib.rs:482-594 | at every matrix cell holding a key, the recorded scan index is missing exactly for `Backslash` and `Apostrophe`, and otherwise decodes back to that key |
| Wooting.ScanIndexRoundTrip | wooting-sdk/src/lib.rs:482-594 | every key other than `Backslash` and `Apostrophe` has a scan index that decodes back to it, and those two have none |
| Wooting.DecodedKeys | wooting-sdk/src/lib.rs:482-594 | a key is produced by the decode for some index if and only if it is neither `Backslash` nor `Apostrophe` |
| Wooting.SharedScanIndices | wooting-sdk/src/lib.rs:522-539 | index 45 decodes to `ISO1`, and indices 40 and 55 both decode to `I` |
| Wooting.MatrixAddress | wooting-sdk/src/lib.rs:599-716 | every key's cell lies inside the matrix: row below 6, column below 21 |
| Wooting.KeyAtMatrixAddress | wooting-sdk/src/lib.rs:603-714 | the key found at a key's cell is that key |
| Wooting.MatrixAddressInjective | wooting-sdk/src/lib.rs:603-714 | two keys with the same matrix cell are the same key |
| Analog.ReadAnalogKey | wooting-sdk/src/lib.rs:786-794 | the read fails with `Disconnected` if and only if the raw reading is zero and the keyboard is not connected; otherwise it returns the raw reading unchanged |
| Analog.FilledBuffer | wooting-sdk/src/lib.rs:824-831 | the buffer has the requested length; it starts with what the native call wrote, cut at that length, and every byte after that is zero |
| Analog.Chunks | wooting-sdk/src/lib.rs:838-839 | a buffer splits into `ceil(len / 2)` chunks; chunk `j` is bytes `2j` up to `2j + 2`, cut at the end of the buffer |
| Analog.ReadAnalogKeys | wooting-sdk/src/lib.rs:819-849 | a count of 0 or above 16 fails with `InvalidBufferSize`; otherwise the native read gets a buffer of `2n` bytes; return code -1 gives `Disconnected`, and only codes below -1 panic; any other code `ret` gives the decodable pairs among the first `min(ret, n)` pairs, in order |
| Analog.DecodePair | wooting-sdk/src/lib.rs:842-844 | a chunk gives at most one pair, none exactly when its scan index has no key, and otherwise the decoded key with the chunk's value |
| Analog.DecodeChunks | wooting-sdk/src/lib.rs:838-846 | a decode that returns reports at most one pair per chunk |
| Analog.DecodeChunksPanics | wooting-sdk/src/lib.rs:841-846 | decoding panics, at the `unreachable!` arm, exactly when some chunk is not two bytes long |
| Analog.DecodeChunksOfPairs | wooting-sdk/src/lib.rs:838-846 | on a buffer of even length, the `unreachable!` arm is never reached, and the chunk pipeline agrees with the reference reading `PairsDecoded` |
| Analog.PairsDecodedMembers | wooting-sdk/src/lib.rs:840-844 | a `(key, value)` pair is reported if and only if one of the first `count` buffer pairs has a scan index decoding to that key and carries that value |
| Analog.PairsDecodedLength | wooting-sdk/src/lib.rs:838-846 | at most `count` pairs are reported, and exactly `count` when every scan index among them decodes |
| Analog.BatchBounds | wooting-sdk/src/lib.rs:819-849 | a successful batch read of keys reports at most `min(ret, n)` pairs and never `Backslash` or `Apostrophe` |
| Rgb.Offset | wooting-sdk/src/lib.rs:1057-1058 | a key's slot starts at a multiple of 3, and its three bytes fit inside the 378-byte array (wooting-sdk/src/lib.rs:862-867) |
| Rgb.SlotsDisjoint | wooting-sdk/src/lib.rs:1057-1058 | two cells of the 21-column matrix whose three-byte slots share a byte are the same cell |
| Rgb.OffsetsDisjoint | wooting-sdk/src/lib.rs:1056-1061 | two keys whose slots share a byte are the same key |
| Rgb.Flatten | wooting-sdk/src/lib.rs:1054-1062 | the array has 378 bytes, and byte `i` is the matching channel of the last entry whose slot covers `i`, or zero |
| Rgb.LastEntryWins | wooting-sdk/src/lib.rs:1055-1061 | each channel of a key's slot holds that channel of the last entry naming the key, or zero when no entry names it |
| Rgb.UncoveredIsZero | wooting-sdk/src/lib.rs:1054 | a byte outside every listed key's slot stays zero |
| Rgb.EmptyCellIsZero | wooting-sdk/src/lib.rs:1054-1062 | the bytes of a matrix cell that holds no key are always zero |
| Rgb.RgbKeyboard.constructor | wooting-sdk/src/lib.rs:909-912 | the default handle has made no native call |
| Rgb.RgbKeyboard.DirectSetKey | wooting-sdk/src/lib.rs:926-937 | exactly one direct-set call is sent, at the key's matrix cell and with the given colour, and that cell holds a key |
| Rgb.RgbKeyboard.DirectResetKey | wooting-sdk/src/lib.rs:953-956 | exactly one direct-reset call is sent, at the key's matrix cell |
| Rgb.RgbKeyboard.ArrayUpdate | wooting-sdk/src/lib.rs:970-972 | exactly one array-update call is sent |
| Rgb.RgbKeyboard.ArrayAutoUpdate | wooting-sdk/src/lib.rs:994-996 | exactly one auto-update call is sent, with the given flag |
| Rgb.RgbKeyboard.ArraySetSingle | wooting-sdk/src/lib.rs:1017-1028 | exactly one set-single call is sent, at the key's matrix cell and with the given colour |
| Rgb.RgbKeyboard.ArraySetFull | wooting-sdk/src/lib.rs:1050-1064 | exactly one set-full call is sent; it carries 378 bytes, and byte `i` is `FlattenedByte(entries, i)` |
| Rgb.RgbKeyboard.ResetAll | wooting-sdk/src/lib.rs:1080-1082 | exactly one reset call is sent |
| Rgb.RgbKeyboard.Drop | wooting-sdk/src/lib.rs:1085-1093 | whatever was sent before, dropping sends exactly a reset and then auto-update off, in that order; every call sent stays well formed |

## Left out

- Native calls: the library's answers are parameters, or recorded `RgbCall` values. What the native libraries do with the calls is not part of this model.
- Rgb.RgbKeyboard.DirectSetKey: the `bool` the native call answers, which the Rust method returns, is not modelled. The method returns nothing.
- Rgb.RgbKeyboard.DirectResetKey: the `bool` the native call answers, which the Rust method returns, is not modelled. The method returns nothing.
- Rgb.RgbKeyboard.ArrayUpdate: the `bool` the native call answers, which the Rust method returns, is not modelled. The method returns nothing.
- Rgb.RgbKeyboard.ArraySetSingle: the `bool` the native call answers, which the Rust method returns, is not modelled. The method returns nothing.
- Rgb.RgbKeyboard.ArraySetFull: the `bool` the native call answers, which the Rust method returns, is not modelled. The method returns nothing.
- Rgb.RgbKeyboard.ResetAll: the `bool` the native call answers, which the Rust method returns, is not modelled. The method returns nothing.
- Analog.ReadAnalogKeys: the native call writes into a zeroed `Vec` in place. This is modelled on values, as `FilledBuffer`: the zeroed buffer overwritten from the start by what the native call wrote.
- `is_wooting_keyboard_connected` (analog and RGB) is a foreign call. Its answer is the `connected` parameter of `ReadAnalogKey`.
- The disconnect callbacks are not modelled: the static slots, the `extern "C"` trampolines and `set_disconnected_callback`. They exist for calls from native threads.
- `Display for WootingError` and the `Error` impl: fixed message text.
- Derived traits (`Clone`, `Debug`, `Hash`, ordering) are not modelled.
- The build scripts of the two `-sys` crates and the example programs are not part of this model.
- `read_analog_key` and the RGB methods accept any `K: IntoMatrixRowColumn`. The model takes `Key`, the only implementation in the library.
- Wooting.DecodableIndices: injectivity of the decode is not proved. The decode is injective apart from the shared pair 40/55 for `I`. Likewise, it is not proved that `KeyAt` returns a key only at that key's own cell. Both would need case splits too large for the verifier's resource bound.
- Wooting.Label: only the fact that every label is non-empty and the backslash labels are proved. The other label texts are transcribed without further properties.
