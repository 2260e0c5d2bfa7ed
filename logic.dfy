/**
 * Four-valued simulator signals (cocotb's BinaryValue): each bit is 0, 1,
 * x (unknown) or z (high impedance), and a signal is read most significant
 * bit first, as its `binstr` shows it.
 */
module Logic {
  import opened Wrappers
  import opened PyExceptions
  import opened ByteCodec

  datatype Bit = Zero | One | X | Z

  /** A signal value, most significant bit first. */
  type Word = seq<Bit>

  predicate Resolved(b: Bit) { b == Zero || b == One }

  /** No bit of `w` is x or z. */
  predicate IsResolved(w: Word) {
    forall i :: 0 <= i < |w| ==> Resolved(w[i])
  }

  function Repeat(b: Bit, n: nat): (w: Word)
    ensures |w| == n
    ensures forall i :: 0 <= i < n ==> w[i] == b
  {
    if n == 0 then [] else Repeat(b, n - 1) + [b]
  }

  /** A signal is resolved exactly when neither an x nor a z occurs in it. */
  lemma ResolvedIff(w: Word)
    ensures IsResolved(w) <==> X !in w && Z !in w
  {
    if !IsResolved(w) {
      var i :| 0 <= i < |w| && !Resolved(w[i]);
      assert w[i] in w;
    }
  }

  /** The 32-bit all-`z` value the adder drives for an indeterminate result. */
  const HighImp32: Word := Repeat(Z, 32)

  /**
   * The integer value of a signal (`BinaryValue.integer`). With
   * COCOTB_RESOLVE_X at its default, any x or z bit raises ValueError.
   */
  function ToInt(w: Word): (r: Result<nat, Exception>)
    ensures r.Success? <==> IsResolved(w)
    ensures r.Failure? ==> r.error == ValueError
    decreases |w|
  {
    if w == [] then Success(0)
    else
      var hi := ToInt(w[..|w| - 1]);
      var last := w[|w| - 1];
      if hi.Failure? then hi
      else if last == Zero then Success(2 * hi.value)
      else if last == One then Success(2 * hi.value + 1)
      else Failure(ValueError)
  }

  /** `handle == n` in cocotb: the signal is resolved to an integer first. */
  function EqualsInt(w: Word, n: nat): (r: Result<bool, Exception>)
    ensures r.Success? <==> IsResolved(w)
  {
    var v := ToInt(w);
    if v.Success? then Success(v.value == n) else Failure(v.error)
  }

  /** A resolved signal equals 0 exactly when every one of its bits is 0. */
  lemma {:induction false} ZeroIffAllZero(w: Word)
    requires IsResolved(w)
    ensures EqualsInt(w, 0) == Success(true) <==> forall i :: 0 <= i < |w| ==> w[i] == Zero
    decreases |w|
  {
    if w != [] {
      var init := w[..|w| - 1];
      assert IsResolved(init) by {
        forall i | 0 <= i < |init| ensures Resolved(init[i]) { assert init[i] == w[i]; }
      }
      ZeroIffAllZero(init);
      if forall i :: 0 <= i < |w| ==> w[i] == Zero {
        assert forall i :: 0 <= i < |init| ==> init[i] == Zero by {
          forall i | 0 <= i < |init| ensures init[i] == Zero { assert init[i] == w[i]; }
        }
      } else {
        var j :| 0 <= j < |w| && w[j] != Zero;
        if j < |w| - 1 {
          assert init[j] == w[j];
        }
      }
    }
  }

  /** A one-bit signal equals 1 exactly when its bit is 1. */
  lemma OneBitEqualsOne(b: Bit)
    ensures EqualsInt([b], 1) == Success(true) <==> b == One
    ensures EqualsInt([b], 1).Failure? <==> !Resolved(b)
  {
    assert [b][..0] == [];
    assert ToInt([b][..0]) == Success(0);
  }

  // ---- bytes as bits (BinaryValue.buff and BinaryValue(bytes)) ----

  function Pow2(k: nat): (p: nat)
    ensures p >= 1
  {
    if k == 0 then 1 else 2 * Pow2(k - 1)
  }

  /** The `width`-bit binary digits of `n`, most significant first. */
  function BitsOf(n: nat, width: nat): (w: Word)
    ensures |w| == width && IsResolved(w)
  {
    if width == 0 then [] else BitsOf(n / 2, width - 1) + [if n % 2 == 1 then One else Zero]
  }

  /** Writing a number in `width` bits and resolving the signal gives the number back. */
  lemma {:induction false} ToIntBitsOf(n: nat, width: nat)
    requires n < Pow2(width)
    ensures ToInt(BitsOf(n, width)) == Success(n)
  {
    if width > 0 {
      var w := BitsOf(n, width);
      assert w[..width - 1] == BitsOf(n / 2, width - 1);
      ToIntBitsOf(n / 2, width - 1);
    }
  }

  /** A resolved signal of `k` bits has an integer value below `2^k`. */
  lemma {:induction false} ToIntBound(w: Word)
    requires IsResolved(w)
    ensures ToInt(w).Success? && ToInt(w).value < Pow2(|w|)
    decreases |w|
  {
    if w != [] {
      var init := w[..|w| - 1];
      assert IsResolved(init) by {
        forall i | 0 <= i < |init| ensures Resolved(init[i]) { assert init[i] == w[i]; }
      }
      ToIntBound(init);
    }
  }

  /** Writing the value of a resolved signal back in as many bits gives the signal. */
  lemma {:induction false} BitsOfToInt(w: Word)
    requires IsResolved(w)
    ensures ToInt(w).Success? && BitsOf(ToInt(w).value, |w|) == w
    decreases |w|
  {
    if w != [] {
      var init := w[..|w| - 1];
      assert IsResolved(init) by {
        forall i | 0 <= i < |init| ensures Resolved(init[i]) { assert init[i] == w[i]; }
      }
      BitsOfToInt(init);
      assert Resolved(w[|w| - 1]);
      assert w == init + [w[|w| - 1]];
    }
  }

  /** The eight bits of a byte, most significant first. */
  function BitsOfByte(b: byte): (w: Word)
    ensures |w| == 8 && IsResolved(w)
  {
    BitsOf(b as nat, 8)
  }

  /** The byte whose bits, most significant first, are `w`. */
  function ByteOfBits(w: Word): byte
    requires |w| == 8 && IsResolved(w)
  {
    ToIntBound(w);
    assert Pow2(8) == 256;
    ToInt(w).value as byte
  }

  lemma ByteRoundTrip(b: byte)
    ensures ByteOfBits(BitsOfByte(b)) == b
  {
    assert Pow2(8) == 256;
    ToIntBitsOf(b as nat, 8);
  }

  lemma BitsRoundTrip(w: Word)
    requires |w| == 8 && IsResolved(w)
    ensures BitsOfByte(ByteOfBits(w)) == w
  {
    BitsOfToInt(w);
  }

  /** `BinaryValue(bytes).binstr`: the bytes' bits, first byte first. */
  function BitsOfBytes(bs: seq<byte>): (w: Word)
    ensures |w| == 8 * |bs|
    ensures IsResolved(w)
  {
    if bs == [] then [] else BitsOfByte(bs[0]) + BitsOfBytes(bs[1..])
  }

  /** `BinaryValue.buff` of a resolved signal whose width is a multiple of 8 (big-endian). */
  function BytesOfBits(w: Word): (bs: seq<byte>)
    requires |w| % 8 == 0 && IsResolved(w)
    ensures 8 * |bs| == |w|
  {
    if w == [] then []
    else
      assert IsResolved(w[..8]) && IsResolved(w[8..]) by {
        assert forall i :: 0 <= i < 8 ==> w[..8][i] == w[i];
        assert forall i :: 0 <= i < |w| - 8 ==> w[8..][i] == w[i + 8];
      }
      [ByteOfBits(w[..8])] + BytesOfBits(w[8..])
  }

  /** Reading back the bytes a signal was built from gives those bytes. */
  lemma {:induction false} BytesOfBitsOfBytes(bs: seq<byte>)
    ensures BytesOfBits(BitsOfBytes(bs)) == bs
  {
    if bs != [] {
      var w := BitsOfBytes(bs);
      assert w[..8] == BitsOfByte(bs[0]);
      assert w[8..] == BitsOfBytes(bs[1..]);
      ByteRoundTrip(bs[0]);
      BytesOfBitsOfBytes(bs[1..]);
    }
  }

  /** Rebuilding a resolved signal from its bytes gives the signal back. */
  lemma {:induction false} BitsOfBytesOfBits(w: Word)
    requires |w| % 8 == 0 && IsResolved(w)
    ensures BitsOfBytes(BytesOfBits(w)) == w
    decreases |w|
  {
    if w != [] {
      assert IsResolved(w[..8]) && IsResolved(w[8..]) by {
        assert forall i :: 0 <= i < 8 ==> w[..8][i] == w[i];
        assert forall i :: 0 <= i < |w| - 8 ==> w[8..][i] == w[i + 8];
      }
      BitsRoundTrip(w[..8]);
      BitsOfBytesOfBits(w[8..]);
      assert w == w[..8] + w[8..];
    }
  }
}
