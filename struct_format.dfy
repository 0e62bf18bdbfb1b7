/**
 * Python's `struct` module in native mode ('@', the default when a format
 * has no byte-order prefix), fixed to little-endian byte order with the usual
 * x86/x64 alignment: every item starts at the next multiple of its own
 * alignment, and no padding is added after the last item.
 */
module StructFormat {
  import opened Bytes
  import opened Wrappers

  /** One item of a format string: `B`, `H`, `I`, `f` and `Ns`. */
  datatype Code =
    | UChar        // B: unsigned char
    | UShort       // H: unsigned short
    | UInt         // I: unsigned int
    | Float        // f: float, kept as its raw 32-bit pattern
    | Chars(n: nat) // Ns: a byte string of length N

  /** A 32-bit float as the bit pattern found in the file; its IEEE-754 value is not modelled. */
  datatype Float32 = Float32(bits: u32)

  /** What `struct.unpack` yields for one item. */
  datatype Value =
    | IntValue(n: nat)
    | FloatValue(f: Float32)
    | BytesValue(bytes: seq<u8>)

  function Size(c: Code): nat {
    match c
    case UChar => 1
    case UShort => 2
    case UInt => 4
    case Float => 4
    case Chars(n) => n
  }

  function Alignment(c: Code): (a: nat)
    ensures a >= 1
  {
    match c
    case UChar => 1
    case UShort => 2
    case UInt => 4
    case Float => 4
    case Chars(_) => 1
  }

  /** The offset of an item of kind `c` placed at or after `at`: `at` rounded up to the alignment of `c`. */
  function Start(c: Code, at: nat): (p: nat)
    ensures at <= p
  {
    match c
    case UChar => at
    case Chars(_) => at
    case UShort => (at + 1) / 2 * 2
    case UInt => (at + 3) / 4 * 4
    case Float => (at + 3) / 4 * 4
  }

  /** `Start` is the first offset at or after `at` that is a multiple of the alignment. */
  lemma StartIsAlignedUp(c: Code, at: nat)
    ensures Start(c, at) % Alignment(c) == 0
    ensures at <= Start(c, at) < at + Alignment(c)
    ensures forall q :: at <= q < Start(c, at) ==> q % Alignment(c) != 0
  {
    match c
    case UChar =>
    case Chars(_) =>
    case UShort =>
    case UInt =>
    case Float =>
  }

  /** `n` copies of `c`, as in the format `"nI"`. */
  function Repeat(n: nat, c: Code): (fmt: seq<Code>)
    ensures |fmt| == n && forall k :: 0 <= k < n ==> fmt[k] == c
  {
    seq(n, _ => c)
  }

  /** Where item `k` of `fmt` would go if all items before it are placed: the end of item `k - 1`. */
  function EndOf(fmt: seq<Code>, k: nat): nat
    requires k <= |fmt|
    decreases k, 0
  {
    if k == 0 then 0 else Start(fmt[k - 1], EndOf(fmt, k - 1)) + Size(fmt[k - 1])
  }

  /** The byte offset of item `k`: the end of the item before it, rounded up to its alignment. */
  function Offset(fmt: seq<Code>, k: nat): (p: nat)
    requires k < |fmt|
    decreases k, 1
  {
    Start(fmt[k], EndOf(fmt, k))
  }

  /** `struct.calcsize`: the end of the last item (no trailing padding in native mode). */
  function CalcSize(fmt: seq<Code>): nat {
    EndOf(fmt, |fmt|)
  }

  /** A format's size is where its last item ends: native mode adds no padding after it. */
  lemma CalcSizeEnd(fmt: seq<Code>)
    requires |fmt| > 0
    ensures CalcSize(fmt) == Offset(fmt, |fmt| - 1) + Size(fmt[|fmt| - 1])
  {
  }

  /** One step of computing a layout: item `k` goes at the aligned end of item `k - 1`. */
  lemma EndOfStep(fmt: seq<Code>, k: nat, c: Code, at: nat, next: nat)
    requires k < |fmt| && fmt[k] == c && EndOf(fmt, k) == at && Start(c, at) + Size(c) == next
    ensures EndOf(fmt, k + 1) == next
  {
  }

  /** Placing more items never moves the end backwards. */
  lemma {:induction false} EndOfMonotone(fmt: seq<Code>, j: nat, k: nat)
    requires j <= k <= |fmt|
    ensures EndOf(fmt, j) <= EndOf(fmt, k)
    decreases k - j
  {
    if j < k {
      EndOfMonotone(fmt, j, k - 1);
    }
  }

  /** Every item lies inside the `struct.calcsize` bytes of its format. */
  lemma ItemInside(fmt: seq<Code>, k: nat)
    requires k < |fmt|
    ensures Offset(fmt, k) + Size(fmt[k]) <= CalcSize(fmt)
  {
    EndOfMonotone(fmt, k + 1, |fmt|);
  }

  /** The value an item of kind `c` may decode to. */
  predicate Fits(c: Code, v: Value) {
    match c
    case Chars(n) => v.BytesValue? && |v.bytes| == n
    case Float => v.FloatValue?
    case _ => v.IntValue? && v.n < Pow256(Size(c))
  }

  /** The item of kind `c` stored at offset `p` of `data`. */
  function UnpackItem(c: Code, data: seq<u8>, p: nat): (v: Value)
    requires p + Size(c) <= |data|
    ensures Fits(c, v)
  {
    var chunk := data[p .. p + Size(c)];
    match c
    case Chars(_) => BytesValue(chunk)
    case Float => Pow256Four(); FloatValue(Float32(LittleEndian(chunk) as u32))
    case _ => IntValue(LittleEndian(chunk))
  }

  /** The items `k..` of `fmt` unpacked from `data`. */
  function UnpackFrom(fmt: seq<Code>, data: seq<u8>, k: nat): (vs: seq<Value>)
    requires k <= |fmt| && |data| == CalcSize(fmt)
    ensures |vs| == |fmt| - k
    decreases |fmt| - k
  {
    if k == |fmt| then []
    else
      ItemInside(fmt, k);
      [UnpackItem(fmt[k], data, Offset(fmt, k))] + UnpackFrom(fmt, data, k + 1)
  }

  /** `struct.unpack(fmt, data)` on a buffer known to have the right size. */
  function UnpackExact(fmt: seq<Code>, data: seq<u8>): (vs: seq<Value>)
    requires |data| == CalcSize(fmt)
    ensures |vs| == |fmt|
  {
    UnpackFrom(fmt, data, 0)
  }

  lemma {:induction false} UnpackFromAt(fmt: seq<Code>, data: seq<u8>, k: nat, j: nat)
    requires k <= j < |fmt| && |data| == CalcSize(fmt)
    ensures Offset(fmt, j) + Size(fmt[j]) <= |data|
    ensures UnpackFrom(fmt, data, k)[j - k] == UnpackItem(fmt[j], data, Offset(fmt, j))
    decreases j - k
  {
    ItemInside(fmt, j);
    if k < j {
      UnpackFromAt(fmt, data, k + 1, j);
    }
  }

  /** Item `k` of the unpacked tuple is the item of kind `fmt[k]` stored at its layout offset. */
  lemma UnpackAt(fmt: seq<Code>, data: seq<u8>, k: nat)
    requires k < |fmt| && |data| == CalcSize(fmt)
    ensures Offset(fmt, k) + Size(fmt[k]) <= |data|
    ensures UnpackExact(fmt, data)[k] == UnpackItem(fmt[k], data, Offset(fmt, k))
  {
    UnpackFromAt(fmt, data, 0, k);
  }

  /** Every unpacked item is a value of its code's kind and range. */
  lemma UnpackFits(fmt: seq<Code>, data: seq<u8>, k: nat)
    requires k < |fmt| && |data| == CalcSize(fmt)
    ensures Fits(fmt[k], UnpackExact(fmt, data)[k])
  {
    UnpackAt(fmt, data, k);
  }

  /** `struct.unpack(fmt, data)`: raises struct.error unless `data` has exactly the format size. */
  function Unpack(fmt: seq<Code>, data: seq<u8>): (r: Result<seq<Value>>)
    ensures r.Ok? <==> |data| == CalcSize(fmt)
    ensures r.Err? ==> r.error == UnpackSizeMismatch(CalcSize(fmt), |data|)
  {
    if |data| != CalcSize(fmt) then Err(UnpackSizeMismatch(CalcSize(fmt), |data|))
    else Ok(UnpackExact(fmt, data))
  }

  /** The items of `"nI"` are packed with no gaps: item `k` ends at offset `4(k + 1)`. */
  lemma {:induction false} RepeatUIntEnd(n: nat, k: nat)
    requires k <= n
    ensures EndOf(Repeat(n, UInt), k) == 4 * k
  {
    if k > 0 {
      RepeatUIntEnd(n, k - 1);
      var at := 4 * (k - 1);
      assert at % 4 == 0;
      assert Start(UInt, at) == at;
      assert Repeat(n, UInt)[k - 1] == UInt;
    }
  }

  /** The format `"nI"` is `4n` bytes and item `k` sits at offset `4k`. */
  lemma RepeatUIntLayout(n: nat)
    ensures forall k :: 0 <= k < n ==> Offset(Repeat(n, UInt), k) == 4 * k
    ensures CalcSize(Repeat(n, UInt)) == 4 * n
  {
    forall k | 0 <= k < n
      ensures Offset(Repeat(n, UInt), k) == 4 * k
    {
      RepeatUIntEnd(n, k);
    }
    RepeatUIntEnd(n, n);
  }
}
