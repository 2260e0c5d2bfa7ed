/**
 * Python's integer/byte conversions used by the testbenches:
 * `int.to_bytes` and `int.from_bytes` (the latter through the memory
 * model's `read_word`).
 */
module ByteCodec {

  /** A Python `bytes` element. */
  newtype byte = b: int | 0 <= b < 256

  function Reverse<T>(s: seq<T>): (r: seq<T>)
    ensures |r| == |s|
    ensures forall i :: 0 <= i < |s| ==> r[i] == s[|s| - 1 - i]
  {
    if s == [] then [] else Reverse(s[1..]) + [s[0]]
  }

  lemma ReverseReverse<T>(s: seq<T>)
    ensures Reverse(Reverse(s)) == s
  {
    assert forall i :: 0 <= i < |s| ==> Reverse(Reverse(s))[i] == s[i];
  }

  function Pow256(n: nat): (p: nat)
    ensures p >= 1
  {
    if n == 0 then 1 else 256 * Pow256(n - 1)
  }

  /** `int.from_bytes(bs, "little")`. */
  function FromLittle(bs: seq<byte>): nat {
    if bs == [] then 0 else bs[0] as nat + 256 * FromLittle(bs[1..])
  }

  /** `n.to_bytes(len, "little")`, defined for the `n` that fit in `len` bytes. */
  function ToLittle(n: nat, len: nat): (bs: seq<byte>)
    requires n < Pow256(len)
    ensures |bs| == len
  {
    if len == 0 then [] else [(n % 256) as byte] + ToLittle(n / 256, len - 1)
  }

  /** `n.to_bytes(len, "big")`. */
  function ToBig(n: nat, len: nat): (bs: seq<byte>)
    requires n < Pow256(len)
    ensures |bs| == len
  {
    Reverse(ToLittle(n, len))
  }

  /** Every `len`-byte sequence denotes a number that fits in `len` bytes. */
  lemma {:induction false} FromLittleBound(bs: seq<byte>)
    ensures FromLittle(bs) < Pow256(|bs|)
  {
    if bs != [] {
      FromLittleBound(bs[1..]);
    }
  }

  lemma {:induction false} LittleRoundTrip(n: nat, len: nat)
    requires n < Pow256(len)
    ensures FromLittle(ToLittle(n, len)) == n
  {
    if len > 0 {
      LittleRoundTrip(n / 256, len - 1);
      var bs := ToLittle(n, len);
      assert bs[1..] == ToLittle(n / 256, len - 1);
      assert bs[0] as nat == n % 256;
    }
  }

  lemma DivModByte(lo: nat, hi: nat)
    requires lo < 256
    ensures (lo + 256 * hi) % 256 == lo && (lo + 256 * hi) / 256 == hi
  {}

  lemma {:induction false} LittleBytesRoundTrip(bs: seq<byte>)
    ensures FromLittle(bs) < Pow256(|bs|) && ToLittle(FromLittle(bs), |bs|) == bs
  {
    FromLittleBound(bs);
    if bs != [] {
      FromLittleBound(bs[1..]);
      LittleBytesRoundTrip(bs[1..]);
      var n := FromLittle(bs);
      DivModByte(bs[0] as nat, FromLittle(bs[1..]));
      assert (n % 256) as byte == bs[0];
      assert ToLittle(n, |bs|) == [bs[0]] + ToLittle(FromLittle(bs[1..]), |bs| - 1);
    }
  }

  /**
   * Reading a word little-endian and writing it back big-endian
   * (`read_word(a, ws=4).to_bytes(4, "big")`) reverses the stored bytes.
   */
  lemma LittleReadBigWrite(bs: seq<byte>)
    ensures FromLittle(bs) < Pow256(|bs|) && ToBig(FromLittle(bs), |bs|) == Reverse(bs)
  {
    FromLittleBound(bs);
    LittleBytesRoundTrip(bs);
  }
}
