/**
 * The simulated AXI memories the testbenches attach to the kernel's
 * master ports (`AxiRam(..., size=4*32)`): a byte array the testbench
 * writes directly and reads back as little-endian words.
 */
module AxiRamModel {
  import opened ByteCodec

  /** A fresh memory of `n` bytes, all zero. */
  function Zeros(n: nat): (m: seq<byte>)
    ensures |m| == n
    ensures forall j :: 0 <= j < n ==> m[j] == 0
  {
    if n == 0 then [] else Zeros(n - 1) + [0]
  }

  /** `write(addr, data)`: the bytes of `data` stored from `addr` on. */
  function Write(mem: seq<byte>, addr: nat, data: seq<byte>): seq<byte>
    requires addr + |data| <= |mem|
  {
    mem[..addr] + data + mem[addr + |data|..]
  }

  /** A write stores `data` at `addr` and leaves every other byte as it was. */
  lemma WriteEffect(mem: seq<byte>, addr: nat, data: seq<byte>)
    requires addr + |data| <= |mem|
    ensures |Write(mem, addr, data)| == |mem|
    ensures forall j :: 0 <= j < |data| ==> Write(mem, addr, data)[addr + j] == data[j]
    ensures forall j :: 0 <= j < |mem| && !(addr <= j < addr + |data|) ==> Write(mem, addr, data)[j] == mem[j]
  {}

  /** `read_word(addr, ws=4)`: the four bytes from `addr` on, as a little-endian unsigned integer. */
  function ReadWord(mem: seq<byte>, addr: nat): nat
    requires addr + 4 <= |mem|
  {
    FromLittle(mem[addr..addr + 4])
  }

  /** The four bytes of word `i` of a memory laid out as 32-bit words. */
  function WordAt(mem: seq<byte>, i: nat): seq<byte>
    requires 4 * i + 4 <= |mem|
  {
    mem[4 * i..4 * i + 4]
  }

  /** Writing four bytes at word `i`'s address replaces that word and no other. */
  lemma {:induction false} WriteWordEffect(mem: seq<byte>, i: nat, data: seq<byte>)
    requires |data| == 4 && 4 * i + 4 <= |mem|
    ensures |Write(mem, 4 * i, data)| == |mem|
    ensures WordAt(Write(mem, 4 * i, data), i) == data
    ensures forall j :: 0 <= j && 4 * j + 4 <= |mem| && j != i ==>
      WordAt(Write(mem, 4 * i, data), j) == WordAt(mem, j)
  {
    var m := Write(mem, 4 * i, data);
    WriteEffect(mem, 4 * i, data);
    assert WordAt(m, i) == data by {
      forall k | 0 <= k < 4 ensures WordAt(m, i)[k] == data[k] {
        assert WordAt(m, i)[k] == m[4 * i + k];
      }
    }
    forall j | 0 <= j && 4 * j + 4 <= |mem| && j != i
      ensures WordAt(m, j) == WordAt(mem, j)
    {
      assert j < i || i < j;
      forall k | 0 <= k < 4 ensures WordAt(m, j)[k] == WordAt(mem, j)[k] {
        assert WordAt(m, j)[k] == m[4 * j + k];
        assert !(4 * i <= 4 * j + k < 4 * i + 4);
      }
    }
  }

  /** `read_word(4 * i)` reads word `i`. */
  lemma ReadWordAt(mem: seq<byte>, i: nat)
    requires 4 * i + 4 <= |mem|
    ensures ReadWord(mem, 4 * i) == FromLittle(WordAt(mem, i))
    ensures ReadWord(mem, 4 * i) < Pow256(4)
  {
    FromLittleBound(WordAt(mem, i));
  }

  /** A word reads 0 exactly when its four bytes are 0. */
  lemma {:induction false} ZeroWordIff(bs: seq<byte>)
    requires |bs| == 4
    ensures FromLittle(bs) == 0 <==> bs == [0, 0, 0, 0]
  {
    LittleBytesRoundTrip(bs);
    LittleBytesRoundTrip([0, 0, 0, 0]);
  }
}
