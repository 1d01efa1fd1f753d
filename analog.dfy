/**
 * The analog facade: reading how far keys are pressed. The native analog SDK is
 * not modelled; each operation receives what its native calls answer as
 * parameters.
 */
module Analog {
  import opened Wooting

  /**
   * A call that may abort the thread instead of returning: the source panics on
   * a return code the native contract rules out, and on a buffer chunk that is
   * not a (scan index, value) pair.
   */
  datatype Outcome<T> = Returned(result: T) | Panicked

  /** What one native batch read leaves behind: the bytes it wrote from the start of the buffer, and its return code. */
  datatype FullBufferRead = FullBufferRead(written: seq<byte>, ret: int32)

  /** The largest number of keys one batch read may ask for. */
  const MaxBatch: nat := 16

  function Min(a: int, b: int): int
  {
    if a < b then a else b
  }

  /**
   * Reads how far `key` is pressed. `readAnalog` is the native single-key read at
   * a matrix cell and `connected` the native connectivity check; a zero reading
   * is an error only when the keyboard reports that it is not connected.
   */
  function ReadAnalogKey(key: Key, readAnalog: (byte, byte) -> byte, connected: bool): (r: Result<byte>)
    ensures r.Err? <==> readAnalog(MatrixAddress(key).0, MatrixAddress(key).1) == 0 && !connected
    ensures r.Err? ==> r.error == Disconnected
    ensures r.Ok? ==> r.value == readAnalog(MatrixAddress(key).0, MatrixAddress(key).1)
  {
    var (row, column) := MatrixAddress(key);
    var ret := readAnalog(row, column);
    if ret == 0 && !connected then Err(Disconnected) else Ok(ret)
  }

  /**
   * The read buffer after the native call: `length` zero bytes, overwritten from
   * the start by what the native call wrote, never past the end.
   */
  function FilledBuffer(length: nat, written: seq<byte>): (buffer: seq<byte>)
    ensures |buffer| == length
    ensures buffer[..Min(length, |written|)] == written[..Min(length, |written|)]
    ensures forall i :: Min(length, |written|) <= i < length ==> buffer[i] == 0
  {
    seq(length, i requires 0 <= i < length => if i < |written| then written[i] else 0)
  }

  /**
   * Splits a buffer into consecutive chunks of two bytes; an odd-length buffer
   * ends with a chunk of one byte.
   */
  function Chunks(buffer: seq<byte>): (chunks: seq<seq<byte>>)
    ensures |chunks| == (|buffer| + 1) / 2
    ensures forall j :: 0 <= j < |chunks| ==> chunks[j] == buffer[2 * j .. Min(2 * j + 2, |buffer|)]
    decreases |buffer|
  {
    if |buffer| <= 2 then
      (if buffer == [] then [] else [buffer])
    else
      [buffer[..2]] + Chunks(buffer[2..])
  }

  /** The pair made of a decodable scan index and its value, or nothing for an unmapped index. */
  function DecodePair<K>(decode: byte -> Option<K>, scanIndex: byte, value: byte): (pairs: seq<(K, byte)>)
    ensures |pairs| <= 1
    ensures pairs == [] <==> decode(scanIndex).None?
    ensures pairs != [] ==> decode(scanIndex) == Some(pairs[0].0) && pairs[0].1 == value
  {
    match decode(scanIndex)
    case Some(key) => [(key, value)]
    case None => []
  }

  /**
   * Decodes chunks in order, dropping those whose scan index has no key; a chunk
   * that is not exactly two bytes long panics.
   */
  function DecodeChunks<K>(decode: byte -> Option<K>, chunks: seq<seq<byte>>): (r: Outcome<seq<(K, byte)>>)
    ensures r.Returned? ==> |r.result| <= |chunks|
  {
    if chunks == [] then Returned([])
    else if |chunks[0]| != 2 then Panicked
    else
      match DecodeChunks(decode, chunks[1..])
      case Panicked => Panicked
      case Returned(rest) => Returned(DecodePair(decode, chunks[0][0], chunks[0][1]) + rest)
  }

  /**
   * The reference reading of a batch: the decodable (key, value) pairs among the
   * first `count` pairs of `buffer`, in buffer order.
   */
  function PairsDecoded<K>(decode: byte -> Option<K>, buffer: seq<byte>, count: nat): seq<(K, byte)>
    requires 2 * count <= |buffer|
  {
    if count == 0 then []
    else PairsDecoded(decode, buffer, count - 1) + DecodePair(decode, buffer[2 * (count - 1)], buffer[2 * (count - 1) + 1])
  }

  /**
   * Reads the keys currently pressed, at most `n` of them, decoding scan indices
   * with `decode` (the key type's scan-index decode). `readFullBuffer` is the
   * native batch read: given the length of the buffer it is handed, it answers
   * what it wrote and its return code. A count outside 1..16 fails before the
   * native call; otherwise the buffer holds exactly `2 * n` bytes, a return code
   * of -1 means the keyboard is gone, one below -1 panics, and any other code
   * `ret` yields the decodable pairs among the first `min(ret, n)`.
   */
  function ReadAnalogKeys<K>(n: byte, decode: byte -> Option<K>, readFullBuffer: nat -> FullBufferRead): (r: Outcome<Result<seq<(K, byte)>>>)
    ensures n == 0 || n > MaxBatch ==> r == Returned(Err(InvalidBufferSize))
    ensures 1 <= n <= MaxBatch ==>
      var read := readFullBuffer(2 * n);
      && (read.ret == -1 <==> r == Returned(Err(Disconnected)))
      && (read.ret < -1 <==> r == Panicked)
      && (read.ret >= 0 ==>
            r == Returned(Ok(PairsDecoded(decode, FilledBuffer(2 * n, read.written), Min(read.ret, n)))))
  {
    if n == 0 || n > MaxBatch then
      Returned(Err(InvalidBufferSize))
    else
      var bufferLength := n * 2;
      var read := readFullBuffer(bufferLength);
      var buffer := FilledBuffer(bufferLength, read.written);
      if read.ret == -1 then
        Returned(Err(Disconnected))
      else if read.ret < -1 then
        Panicked
      else
        var chunks := Chunks(buffer);
        var taken := chunks[..Min(read.ret, |chunks|)];
        DecodeChunksOfPairs(decode, buffer, Min(read.ret, n));
        assert taken == Chunks(buffer)[..Min(read.ret, n)];
        match DecodeChunks(decode, taken)
        case Panicked => Panicked
        case Returned(pairs) => Returned(Ok(pairs))
  }

  /** Decoding panics exactly when some chunk is not a two-byte pair: the `unreachable!` arm. */
  lemma {:induction false} DecodeChunksPanics<K>(decode: byte -> Option<K>, chunks: seq<seq<byte>>)
    ensures DecodeChunks(decode, chunks).Panicked? <==> exists j :: 0 <= j < |chunks| && |chunks[j]| != 2
  {
    if chunks != [] && |chunks[0]| == 2 {
      DecodeChunksPanics(decode, chunks[1..]);
      if exists j :: 0 <= j < |chunks| && |chunks[j]| != 2 {
        var j :| 0 <= j < |chunks| && |chunks[j]| != 2;
        assert chunks[1..][j - 1] == chunks[j];
      }
    }
  }

  /** Decoding one more well-formed chunk appends its pair, if any. */
  lemma {:induction false} DecodeChunksSnoc<K>(decode: byte -> Option<K>, chunks: seq<seq<byte>>, chunk: seq<byte>)
    requires DecodeChunks(decode, chunks).Returned? && |chunk| == 2
    ensures DecodeChunks(decode, chunks + [chunk]) == Returned(DecodeChunks(decode, chunks).result + DecodePair(decode, chunk[0], chunk[1]))
  {
    var pair := DecodePair(decode, chunk[0], chunk[1]);
    if chunks == [] {
      assert [] + [chunk] == [chunk];
      assert [chunk][1..] == [];
      assert pair + [] == [] + pair;
    } else {
      var rest := DecodeChunks(decode, chunks[1..]).result;
      var head := DecodePair(decode, chunks[0][0], chunks[0][1]);
      assert (chunks + [chunk])[0] == chunks[0];
      assert (chunks + [chunk])[1..] == chunks[1..] + [chunk];
      DecodeChunksSnoc(decode, chunks[1..], chunk);
      assert head + (rest + pair) == (head + rest) + pair;
    }
  }

  /**
   * On a buffer of whole pairs, decoding the first `count` chunks never reaches
   * the unreachable arm and agrees with the reference reading.
   */
  lemma {:induction false} DecodeChunksOfPairs<K>(decode: byte -> Option<K>, buffer: seq<byte>, count: nat)
    requires |buffer| % 2 == 0 && 2 * count <= |buffer|
    ensures DecodeChunks(decode, Chunks(buffer)[..count]) == Returned(PairsDecoded(decode, buffer, count))
  {
    var chunks := Chunks(buffer);
    if count == 0 {
      assert chunks[..0] == [];
    } else {
      DecodeChunksOfPairs(decode, buffer, count - 1);
      assert chunks[..count] == chunks[..count - 1] + [chunks[count - 1]];
      assert chunks[count - 1] == buffer[2 * (count - 1) .. 2 * (count - 1) + 2];
      DecodeChunksSnoc(decode, chunks[..count - 1], chunks[count - 1]);
    }
  }

  /**
   * A pair is reported exactly when one of the first `count` pairs of the
   * buffer carries a scan index that decodes to its key, together with its value.
   */
  lemma {:induction false} PairsDecodedMembers<K>(decode: byte -> Option<K>, buffer: seq<byte>, count: nat, key: K, value: byte)
    requires 2 * count <= |buffer|
    ensures (key, value) in PairsDecoded(decode, buffer, count) <==>
      exists j :: 0 <= j < count && decode(buffer[2 * j]) == Some(key) && buffer[2 * j + 1] == value
  {
    if count > 0 {
      PairsDecodedMembers(decode, buffer, count - 1, key, value);
      var last := count - 1;
      if (key, value) in DecodePair(decode, buffer[2 * last], buffer[2 * last + 1]) {
        assert decode(buffer[2 * last]) == Some(key) && buffer[2 * last + 1] == value;
      }
    }
  }

  /**
   * At most `count` pairs are reported, and exactly `count` when every scan index
   * among them decodes.
   */
  lemma {:induction false} PairsDecodedLength<K>(decode: byte -> Option<K>, buffer: seq<byte>, count: nat)
    requires 2 * count <= |buffer|
    ensures |PairsDecoded(decode, buffer, count)| <= count
    ensures (forall j :: 0 <= j < count ==> decode(buffer[2 * j]).Some?) ==> |PairsDecoded(decode, buffer, count)| == count
  {
    if count > 0 {
      PairsDecodedLength(decode, buffer, count - 1);
      var last := count - 1;
      if decode(buffer[2 * last]).Some? {
        assert |DecodePair(decode, buffer[2 * last], buffer[2 * last + 1])| == 1;
      }
    }
  }

  /**
   * A batch read of keys reports at most `min(ret, n)` of them, and never
   * `Backslash` or `Apostrophe`.
   */
  lemma BatchBounds(n: byte, readFullBuffer: nat -> FullBufferRead)
    requires ReadAnalogKeys(n, FromScanIndex, readFullBuffer).Returned?
    requires ReadAnalogKeys(n, FromScanIndex, readFullBuffer).result.Ok?
    ensures var pairs := ReadAnalogKeys(n, FromScanIndex, readFullBuffer).result.value;
      && |pairs| <= Min(readFullBuffer(2 * n).ret, n)
      && forall p :: p in pairs ==> p.0 != Backslash && p.0 != Apostrophe
  {
    var read := readFullBuffer(2 * n);
    var buffer := FilledBuffer(2 * n, read.written);
    var count := Min(read.ret, n);
    var pairs := PairsDecoded(FromScanIndex, buffer, count);
    PairsDecodedLength(FromScanIndex, buffer, count);
    forall p | p in pairs
      ensures p.0 != Backslash && p.0 != Apostrophe
    {
      PairsDecodedMembers(FromScanIndex, buffer, count, p.0, p.1);
      var j :| 0 <= j < count && FromScanIndex(buffer[2 * j]) == Some(p.0) && buffer[2 * j + 1] == p.1;
      DecodableIndices(buffer[2 * j]);
    }
  }
}
