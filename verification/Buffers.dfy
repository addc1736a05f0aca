/** The message buffers of src/buffer_out.cpp, src/buffer_out_impl.hpp and their reading twins. */
module Buffers {

  newtype byte = x: int | 0 <= x < 256

  const WORD_BYTES: nat := 8
  const WORD: nat := 0x1_0000_0000_0000_0000

  /** The n low bytes of a number, lowest first: how a size_t lies in memory. */
  function Le(x: nat, n: nat): (r: seq<byte>)
    ensures |r| == n
  {
    if n == 0 then [] else [(x % 256) as byte] + Le(x / 256, n - 1)
  }

  function FromLe(s: seq<byte>): nat {
    if s == [] then 0 else s[0] as int + 256 * FromLe(s[1..])
  }

  function Pow256(n: nat): nat {
    if n == 0 then 1 else 256 * Pow256(n - 1)
  }

  lemma {:induction false} LeRoundTrip(x: nat, n: nat)
    requires x < Pow256(n)
    ensures FromLe(Le(x, n)) == x
  {
    if n > 0 {
      LeRoundTrip(x / 256, n - 1);
      assert Le(x, n)[1..] == Le(x / 256, n - 1);
    }
  }

  function Word(x: nat): (r: seq<byte>)
    ensures |r| == WORD_BYTES
  {
    Le(x, WORD_BYTES)
  }

  /** A size_t read back is the one written. */
  lemma WordRoundTrip(x: nat)
    requires x < WORD
    ensures FromLe(Word(x)) == x
  {
    assert Pow256(8) == 256 * Pow256(7) == 256 * 256 * Pow256(6) == 256 * 256 * 256 * Pow256(5);
    assert Pow256(5) == 256 * Pow256(4) == 256 * 256 * Pow256(3) == 256 * 256 * 256 * Pow256(2);
    assert Pow256(2) == 256 * Pow256(1) == 65536;
    LeRoundTrip(x, 8);
  }

  class CBufferOut {
    const begin: array<byte>
    var count: nat

    ghost predicate Valid()
      reads this
    {
      count <= begin.Length
    }

    /** What has been written so far. */
    ghost function Written(): seq<byte>
      requires Valid()
      reads this, begin
    {
      begin[..count]
    }

    constructor (size: nat)
      ensures Valid() && fresh(begin) && begin.Length == size && count == 0
    {
      begin := new byte[size];
      count := 0;
    }

    function Remain(): int
      reads this
    {
      begin.Length - count
    }

    /** put: all of data if it fits, else nothing. */
    method Put(data: seq<byte>) returns (ret: bool)
      requires Valid()
      modifies this, begin
      ensures Valid() && ret == (|data| <= old(Remain()))
      ensures Written() == if ret then old(Written()) + data else old(Written())
    {
      if count + |data| <= begin.Length {
        ghost var before := begin[..count];
        for i := 0 to |data|
          invariant count == old(count) && begin[..count] == before
          invariant begin[count..count + i] == data[..i]
        {
          begin[count + i] := data[i];
        }
        count := count + |data|;
        ret := true;
      } else {
        ret := false;
      }
    }

    /** advance: skips n bytes if they fit. */
    method Advance(n: nat) returns (ret: bool)
      requires Valid()
      modifies this
      ensures Valid() && ret == (n <= old(Remain()))
      ensures count == if ret then old(count) + n else old(count)
    {
      if count + n <= begin.Length {
        count := count + n;
        ret := true;
      } else {
        ret := false;
      }
    }
  }

  class CBufferIn {
    const begin: array<byte>
    const size: nat
    var count: nat

    ghost predicate Valid()
      reads this
    {
      count <= size <= begin.Length
    }

    /** What is left to read. */
    ghost function Rest(): seq<byte>
      requires Valid()
      reads this, begin
    {
      begin[count..size]
    }

    /** Reads the first size bytes of a block of memory. */
    constructor (begin: array<byte>, size: nat)
      requires size <= begin.Length
      ensures Valid() && this.begin == begin && Rest() == begin[..size]
    {
      this.begin, this.size := begin, size;
      count := 0;
    }

    /** get: n bytes if there are as many, else nothing. */
    method Get(n: nat) returns (ret: bool, data: seq<byte>)
      requires Valid()
      modifies this
      ensures Valid() && ret == (n <= |old(Rest())|)
      ensures ret ==> data == old(Rest())[..n] && Rest() == old(Rest())[n..]
      ensures !ret ==> data == [] && Rest() == old(Rest())
    {
      data := [];
      if count + n <= size {
        for i := 0 to n
          invariant data == begin[count..count + i]
        {
          data := data + [begin[count + i]];
        }
        count := count + n;
        ret := true;
      } else {
        ret := false;
      }
    }
  }
}
