/**
 * The opened data file, seen as an immutable byte image with a cursor.
 * `f.seek(offset)` moves the cursor anywhere, past the end included;
 * `f.read(n)` returns at most `n` bytes and is short only at the end of the file.
 */
module FileImage {
  import opened Bytes

  function Min(a: nat, b: nat): nat { if a <= b then a else b }

  /** The bytes `f.read(n)` returns when the cursor is at `pos`. */
  function ReadAt(data: seq<u8>, pos: nat, n: nat): (r: seq<u8>)
    ensures |r| <= n
  {
    if pos >= |data| then [] else data[pos .. Min(pos + n, |data|)]
  }

  /**
   * A read returns all `n` bytes when they lie in the file; otherwise it returns
   * the rest of the file, which is empty when the cursor is past the end.
   */
  lemma ReadAtShape(data: seq<u8>, pos: nat, n: nat)
    ensures |ReadAt(data, pos, n)| == n <==> n == 0 || pos + n <= |data|
    ensures pos + n <= |data| ==> ReadAt(data, pos, n) == data[pos .. pos + n]
    ensures pos + n > |data| ==> ReadAt(data, pos, n) == if pos <= |data| then data[pos..] else []
  {
  }

  /** Two reads in a row return what one read of the combined length returns. */
  lemma ReadAtSplit(data: seq<u8>, pos: nat, n: nat, m: nat)
    ensures ReadAt(data, pos, n) + ReadAt(data, pos + |ReadAt(data, pos, n)|, m) == ReadAt(data, pos, n + m)
  {
    var first := ReadAt(data, pos, n);
    if pos < |data| && |first| == n && pos + n < |data| {
      assert data[pos .. pos + n] + data[pos + n .. Min(pos + n + m, |data|)]
          == data[pos .. Min(pos + n + m, |data|)];
    }
  }

  /** A binary file opened for reading: its contents and the current position. */
  class FileReader {
    const data: seq<u8>
    var pos: nat

    constructor (data: seq<u8>)
      ensures this.data == data && pos == 0
    {
      this.data := data;
      pos := 0;
    }

    /** `f.seek(offset)`. */
    method Seek(offset: nat)
      modifies this
      ensures pos == offset
    {
      pos := offset;
    }

    /** `f.read(n)`: the cursor moves past the bytes returned. */
    method Read(n: nat) returns (chunk: seq<u8>)
      modifies this
      ensures chunk == ReadAt(data, old(pos), n)
      ensures pos == old(pos) + |chunk|
    {
      chunk := ReadAt(data, pos, n);
      pos := pos + |chunk|;
    }
  }
}
