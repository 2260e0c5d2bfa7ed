/**
 * `bytes_to_float` and `float_to_bytes` of the floating-point adder
 * stand-in. IEEE-754 arithmetic itself is not modelled: a `FloatUnit`
 * bundles the operations the code borrows from Python, as uninterpreted
 * functions over an abstract float type `F`.
 */
module FloatConv {
  import opened Wrappers
  import opened PyExceptions
  import opened ByteCodec

  /** The four bytes of a single-precision value, as `struct` packs them. */
  type Bytes4 = s: seq<byte> | |s| == 4 witness [0, 0, 0, 0]

  datatype FloatUnit<!F> = FloatUnit(
    /** `struct.unpack(">f", bs)[0]`: the float whose big-endian single-precision pattern is `bs` */
    unpack: Bytes4 -> F,
    /** `struct.pack(">f", x)`: rounds to single precision; None where it raises OverflowError */
    pack: F -> Option<Bytes4>,
    /** Python float addition */
    add: (F, F) -> F,
    /** `float(i)` */
    fromInt: int -> F)
  {
    /** The IEEE-754 fact the testbench relies on: integers below `n` pack and unpack exactly. */
    ghost predicate ExactBelow(n: nat) {
      forall i {:trigger fromInt(i)} :: 0 <= i < n ==>
        pack(fromInt(i)).Some? && unpack(pack(fromInt(i)).value) == fromInt(i)
    }
  }

  /** The two byte orders both conversions accept (`assert byteorder in {"big", "little"}`). */
  predicate ValidByteOrder(byteorder: string) {
    byteorder in {"big", "little"}
  }

  /** The bytes in big-endian order: reversed when they were given little-endian. */
  function InBigOrder(bs: seq<byte>, byteorder: string): seq<byte> {
    if byteorder == "little" then Reverse(bs) else bs
  }

  /** `bytes_to_float(num, byteorder="big")`. */
  function BytesToFloat<F>(ops: FloatUnit<F>, num: seq<byte>, byteorder: string := "big"): Result<F, Exception> {
    if !ValidByteOrder(byteorder) then Failure(AssertionError)
    else if |num| != 4 then Failure(StructError)
    else Success(ops.unpack(InBigOrder(num, byteorder)))
  }

  /** `float_to_bytes(num, byteorder="big")`. */
  function FloatToBytes<F>(ops: FloatUnit<F>, num: F, byteorder: string := "big"): (r: Result<seq<byte>, Exception>)
    ensures !ValidByteOrder(byteorder) ==> r == Failure(AssertionError)
    ensures ValidByteOrder(byteorder) ==> (r.Success? <==> ops.pack(num).Some?)
    ensures ValidByteOrder(byteorder) && ops.pack(num).None? ==> r == Failure(OverflowError)
    ensures r.Success? ==> |r.value| == 4
  {
    if !ValidByteOrder(byteorder) then Failure(AssertionError)
    else
      var bits := ops.pack(num);
      if bits.None? then Failure(OverflowError)
      else Success(InBigOrder(bits.value, byteorder))
  }

  /** Little-endian conversion reads the same value as big-endian conversion of the reversed bytes. */
  lemma LittleIsReversedBig<F>(ops: FloatUnit<F>, num: seq<byte>)
    ensures BytesToFloat(ops, num, "little") == BytesToFloat(ops, Reverse(num), "big")
  {}

  /**
   * A float that single precision represents exactly survives
   * `bytes_to_float(float_to_bytes(x, order), order)`, in both byte orders.
   */
  lemma FloatRoundTrip<F>(ops: FloatUnit<F>, x: F, byteorder: string)
    requires ValidByteOrder(byteorder)
    requires ops.pack(x).Some? && ops.unpack(ops.pack(x).value) == x
    ensures FloatToBytes(ops, x, byteorder).Success?
    ensures BytesToFloat(ops, FloatToBytes(ops, x, byteorder).value, byteorder) == Success(x)
  {
    ReverseReverse(ops.pack(x).value);
  }

  /**
   * Four bytes that packing reproduces survive
   * `float_to_bytes(bytes_to_float(b, order), order)`.
   */
  lemma BytesRoundTrip<F>(ops: FloatUnit<F>, num: seq<byte>, byteorder: string)
    requires ValidByteOrder(byteorder) && |num| == 4
    requires var bs := InBigOrder(num, byteorder); ops.pack(ops.unpack(bs)) == Some(bs)
    ensures BytesToFloat(ops, num, byteorder).Success?
    ensures FloatToBytes(ops, BytesToFloat(ops, num, byteorder).value, byteorder) == Success(num)
  {
    ReverseReverse(num);
  }
}
