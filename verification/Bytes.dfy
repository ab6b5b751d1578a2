/** Bytes and little-endian numbers, as the browser's `DataView` reads and writes them. */
module Bytes {
  type byte = bv8

  /** The byte with the given value. */
  function ByteOf(v: nat): (b: byte)
    requires v < 256
    ensures b as nat == v
  {
    if v == 0 then 0 else
    var below := ByteOf(v - 1);
    NextByte(below);
    below + 1
  }

  lemma NextByte(b: byte)
    requires b as nat < 255
    ensures (b + 1) as nat == b as nat + 1
  {
  }

  lemma SameByte(a: byte, b: byte)
    requires a as nat == b as nat
    ensures a == b
  {
  }

  lemma ByteOfNat(b: byte)
    ensures ByteOf(b as nat) == b
  {
    SameByte(ByteOf(b as nat), b);
  }

  /** The codes of a text. */
  function Ascii(text: string): (s: seq<byte>)
    requires forall i :: 0 <= i < |text| ==> text[i] as nat < 128
    ensures |s| == |text|
  {
    if text == [] then [] else [ByteOf(text[0] as nat)] + Ascii(text[1..])
  }

  lemma ByteIs(v: nat, b: byte)
    requires v < 256 && b as nat == v
    ensures ByteOf(v) == b
  {
    ByteOfNat(b);
  }

  lemma {:induction false} AsciiIs(text: string, s: seq<byte>)
    requires |s| == |text| && forall i :: 0 <= i < |text| ==> text[i] as nat < 128 && s[i] as nat == text[i] as nat
    ensures Ascii(text) == s
  {
    hide ByteOf;
    if text != [] {
      ByteIs(text[0] as nat, s[0]);
      AsciiIs(text[1..], s[1..]);
      assert s == [s[0]] + s[1..];
    }
  }

  function Pow256(n: nat): (p: nat)
    ensures p >= 1
  {
    if n == 0 then 1 else 256 * Pow256(n - 1)
  }

  /** The number a little-endian read of `s` returns. */
  function FromLe(s: seq<byte>): (v: nat)
    ensures v < Pow256(|s|)
  {
    if s == [] then 0 else s[0] as nat + 256 * FromLe(s[1..])
  }

  /** The `n` bytes a little-endian write of `v` stores. */
  function ToLe(v: nat, n: nat): (s: seq<byte>)
    ensures |s| == n
  {
    if n == 0 then [] else [ByteOf(v % 256)] + ToLe(v / 256, n - 1)
  }

  lemma {:induction false} WriteThenRead(v: nat, n: nat)
    requires v < Pow256(n)
    ensures FromLe(ToLe(v, n)) == v
  {
    if n > 0 {
      WriteThenRead(v / 256, n - 1);
      assert ToLe(v, n)[1..] == ToLe(v / 256, n - 1);
    }
  }

  lemma LowDigit(v: nat, low: nat, rest: nat)
    requires v == low + 256 * rest && low < 256
    ensures v % 256 == low && v / 256 == rest
  {
  }

  lemma {:induction false} ReadThenWrite(s: seq<byte>)
    ensures ToLe(FromLe(s), |s|) == s
  {
    hide ByteOf;
    if s != [] {
      ByteOfNat(s[0]);
      LowDigit(FromLe(s), s[0] as nat, FromLe(s[1..]));
      ReadThenWrite(s[1..]);
      assert s == [s[0]] + s[1..];
    }
  }

  /** The sum the source computes with `reduce`: how many body bytes a lacing table announces. */
  function Sum(lacing: seq<byte>): nat {
    if lacing == [] then 0 else lacing[0] as nat + Sum(lacing[1..])
  }

  lemma {:induction false} SumAppend(a: seq<byte>, b: seq<byte>)
    ensures Sum(a + b) == Sum(a) + Sum(b)
  {
    if a == [] {
      assert a + b == b;
    } else {
      SumAppend(a[1..], b);
      assert (a + b)[1..] == a[1..] + b;
    }
  }

  lemma Tail<T>(s: seq<T>, at: nat, i: nat, j: nat)
    requires i <= j && at + j <= |s|
    ensures s[at..][i..j] == s[at + i..at + j]
    ensures s[at..][i..] == s[at + i..]
  {
  }

  lemma Window<T>(s: seq<T>, at: nat, n: nat, i: nat, j: nat)
    requires at + n <= |s| && i <= j <= n
    ensures s[at..at + n][i..j] == s[at + i..at + j]
  {
    var w := s[at..at + n];
    forall k | 0 <= k < j - i
      ensures w[i..j][k] == s[at + i..at + j][k]
    {
      assert w[i..j][k] == w[i + k] == s[at + i + k];
    }
    assert w[i..j] == s[at + i..at + j];
  }

  function Flatten(parts: seq<seq<byte>>): seq<byte> {
    if parts == [] then [] else parts[0] + Flatten(parts[1..])
  }

  lemma {:induction false} FlattenAppend(a: seq<seq<byte>>, b: seq<seq<byte>>)
    ensures Flatten(a + b) == Flatten(a) + Flatten(b)
  {
    if a == [] {
      assert a + b == b;
    } else {
      FlattenAppend(a[1..], b);
      assert (a + b)[1..] == a[1..] + b;
      assert (a + b)[0] == a[0];
      assert a[0] + (Flatten(a[1..]) + Flatten(b)) == (a[0] + Flatten(a[1..])) + Flatten(b);
    }
  }
}
