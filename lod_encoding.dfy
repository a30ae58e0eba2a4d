/**
 * How index values sit in an index byte buffer: 16-bit indices keep the low
 * 16 bits of the value (`static_cast<unsigned short>`), and each index
 * occupies `indexSize` bytes, least significant byte first (the byte order of
 * the x86 targets the engine runs on).
 */
module LodEncoding {
  import opened LodTypes

  /** The value a `static_cast` to the index type keeps. */
  function Narrow(v: u32, indexSize: nat): (r: u32)
    ensures indexSize == 2 ==> r < 0x1_0000 && (v < 0x1_0000 ==> r == v)
    ensures indexSize != 2 ==> r == v
  {
    if indexSize == 2 then v % 0x1_0000 else v
  }

  /** The bytes one index occupies in a buffer of the given width. */
  function EncodeIndex(v: u32, indexSize: nat): (r: seq<byte>)
    requires IsIndexSize(indexSize)
    ensures |r| == indexSize
  {
    var n := Narrow(v, indexSize);
    if indexSize == 2 then [n % 0x100, n / 0x100 % 0x100]
    else [n % 0x100, n / 0x100 % 0x100, n / 0x1_0000 % 0x100, n / 0x100_0000 % 0x100]
  }

  /** The unsigned value of a little-endian byte string. */
  function DecodeIndex(b: seq<byte>): nat
  {
    if b == [] then 0 else b[0] + 0x100 * DecodeIndex(b[1..])
  }

  lemma DecodeTwo(a: byte, b: byte)
    ensures DecodeIndex([a, b]) == a + 0x100 * b
  {
    assert [a, b][1..] == [b];
    assert [b][1..] == [];
    assert DecodeIndex([b]) == b + 0x100 * DecodeIndex([]);
  }

  lemma DecodeFour(a: byte, b: byte, c: byte, d: byte)
    ensures DecodeIndex([a, b, c, d]) == a + 0x100 * (b + 0x100 * (c + 0x100 * d))
  {
    assert [a, b, c, d][1..] == [b, c, d];
    assert [b, c, d][1..] == [c, d];
    DecodeTwo(c, d);
  }

  lemma DecodeEncodeIndex(v: u32, indexSize: nat)
    requires IsIndexSize(indexSize)
    ensures DecodeIndex(EncodeIndex(v, indexSize)) == Narrow(v, indexSize)
  {
    var n := Narrow(v, indexSize);
    if indexSize == 2 {
      DecodeTwo(n % 0x100, n / 0x100 % 0x100);
      assert n / 0x100 % 0x100 == n / 0x100;
    } else {
      DecodeFour(n % 0x100, n / 0x100 % 0x100, n / 0x1_0000 % 0x100, n / 0x100_0000 % 0x100);
      var q1, q2, q3 := n / 0x100, n / 0x1_0000, n / 0x100_0000;
      assert q2 == q1 / 0x100 && q3 == q2 / 0x100;
      assert q3 % 0x100 == q3;
      assert q2 % 0x100 + 0x100 * q3 == q2;
      assert q1 % 0x100 + 0x100 * q2 == q1;
      assert n % 0x100 + 0x100 * q1 == n;
    }
  }

  /** The bytes of a run of indices, one after the other. */
  function EncodeIndices(vs: seq<u32>, indexSize: nat): (r: seq<byte>)
    requires IsIndexSize(indexSize)
    ensures |r| == |vs| * indexSize
  {
    if vs == [] then []
    else EncodeIndices(vs[..|vs| - 1], indexSize) + EncodeIndex(vs[|vs| - 1], indexSize)
  }

  /** The index values stored in a buffer of the given width. */
  function DecodeIndices(bytes: seq<byte>, indexSize: nat): (r: seq<nat>)
    requires IsIndexSize(indexSize)
    requires |bytes| % indexSize == 0
    ensures |r| == |bytes| / indexSize
    decreases |bytes|
  {
    if |bytes| == 0 then []
    else [DecodeIndex(bytes[..indexSize])] + DecodeIndices(bytes[indexSize..], indexSize)
  }

  lemma {:induction false} EncodeIndicesAppend(a: seq<u32>, b: seq<u32>, indexSize: nat)
    requires IsIndexSize(indexSize)
    ensures EncodeIndices(a + b, indexSize) == EncodeIndices(a, indexSize) + EncodeIndices(b, indexSize)
    decreases |b|
  {
    if b == [] {
      assert a + b == a;
    } else {
      var b' := b[..|b| - 1];
      assert (a + b)[..|a + b| - 1] == a + b';
      EncodeIndicesAppend(a, b', indexSize);
    }
  }

  lemma EncodeIndicesCons(v: u32, vs: seq<u32>, indexSize: nat)
    requires IsIndexSize(indexSize)
    ensures EncodeIndices([v] + vs, indexSize) == EncodeIndex(v, indexSize) + EncodeIndices(vs, indexSize)
  {
    EncodeIndicesAppend([v], vs, indexSize);
    assert [v][..0] == [];
  }

  lemma EncodedLength(vs: seq<u32>, indexSize: nat)
    requires IsIndexSize(indexSize)
    ensures |EncodeIndices(vs, indexSize)| % indexSize == 0
    ensures |EncodeIndices(vs, indexSize)| / indexSize == |vs|
  {
    var n := |vs|;
    assert (n * indexSize) % indexSize == 0 && (n * indexSize) / indexSize == n;
  }

  /** Decoding what was encoded gives back every index, narrowed to the buffer's width. */
  lemma {:induction false} DecodeEncodeIndices(vs: seq<u32>, indexSize: nat)
    requires IsIndexSize(indexSize)
    ensures |EncodeIndices(vs, indexSize)| % indexSize == 0
    ensures |DecodeIndices(EncodeIndices(vs, indexSize), indexSize)| == |vs|
    ensures forall k :: 0 <= k < |vs| ==>
              DecodeIndices(EncodeIndices(vs, indexSize), indexSize)[k] == Narrow(vs[k], indexSize)
    decreases |vs|
  {
    EncodedLength(vs, indexSize);
    if vs != [] {
      var e := EncodeIndices(vs, indexSize);
      var head := EncodeIndex(vs[0], indexSize);
      var rest := EncodeIndices(vs[1..], indexSize);
      EncodeIndicesCons(vs[0], vs[1..], indexSize);
      assert [vs[0]] + vs[1..] == vs;
      assert e == head + rest;
      assert e[..indexSize] == head;
      assert e[indexSize..] == rest;
      DecodeEncodeIndex(vs[0], indexSize);
      DecodeEncodeIndices(vs[1..], indexSize);
      var d := DecodeIndices(e, indexSize);
      var drest := DecodeIndices(rest, indexSize);
      assert d == [DecodeIndex(head)] + drest;
      forall k | 0 <= k < |vs|
        ensures d[k] == Narrow(vs[k], indexSize)
      {
        if k > 0 {
          assert d[k] == drest[k - 1];
          assert vs[1..][k - 1] == vs[k];
        }
      }
    }
  }
}
