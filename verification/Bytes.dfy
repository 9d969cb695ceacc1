/** Bytes, and the little-endian 16-bit size field that starts every frame. */
module Bytes {
  newtype Byte = x: int | 0 <= x < 256

  /** sizeof(MsgHeader): the header is one packed uint16_t. */
  const HEADER_SIZE: nat := 2

  const UINT16: nat := 65536

  function Min(a: nat, b: nat): nat {
    if a <= b then a else b
  }

  /** The value of the uint16_t stored little-endian in the first two bytes. */
  function SizeField(b: seq<Byte>): nat
    requires |b| >= HEADER_SIZE
  {
    b[0] as nat + 256 * (b[1] as nat)
  }

  /** Concatenation of a list of byte strings. */
  function Concat(parts: seq<seq<Byte>>): seq<Byte> {
    if parts == [] then [] else parts[0] + Concat(parts[1..])
  }

  lemma ConcatCons(first: seq<Byte>, rest: seq<seq<Byte>>)
    ensures Concat([first] + rest) == first + Concat(rest)
  {
    assert ([first] + rest)[1..] == rest;
  }

  lemma {:induction false} ConcatAppend(a: seq<seq<Byte>>, b: seq<seq<Byte>>)
    ensures Concat(a + b) == Concat(a) + Concat(b)
  {
    if a == [] {
      assert a + b == b;
    } else {
      ConcatAppend(a[1..], b);
      assert (a + b)[1..] == a[1..] + b;
      Reassociate(a[0], Concat(a[1..]), Concat(b));
    }
  }

  lemma EmptyRight<T>(a: seq<T>)
    ensures a + [] == a
  {
  }

  lemma Reassociate<T>(a: seq<T>, b: seq<T>, c: seq<T>)
    ensures a + (b + c) == a + b + c
  {
  }
}
