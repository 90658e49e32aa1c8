/** The two-level counter of the publisher and its 8-byte little-endian wire form.
    Unsigned words are numbers: a right shift by 8*i is a division by 256^i, a mask
    with 0xFF a remainder, and an `or` into bits that are still zero an addition. */
module CounterCodec {
  import opened Arithmetic

  const UINT32: nat := 0x1_0000_0000

  function Pow256(n: nat): (p: nat)
    ensures p > 0
  {
    if n == 0 then 1 else 256 * Pow256(n - 1)
  }

  function Pack(major: nat, minor: nat): nat
  {
    major * UINT32 + minor
  }

  function ExtractMajor(value: nat): nat
  {
    value / UINT32
  }

  function ExtractMinor(value: nat): nat
  {
    value % UINT32
  }

  function ByteAt(value: nat, i: nat): Byte
  {
    value / Pow256(i) % 256
  }

  function Bytes(value: nat): seq<Byte>
  {
    seq(8, i requires 0 <= i < 8 => ByteAt(value, i))
  }

  /** The value gathered from the first `n` bytes. */
  function Gather(bytes: seq<Byte>, n: nat): nat
    requires n <= |bytes|
  {
    if n == 0 then 0 else Gather(bytes, n - 1) + bytes[n - 1] * Pow256(n - 1)
  }

  lemma ByteTimes(b: Byte, p: nat)
    ensures 0 <= b * p <= 255 * p
  {
  }

  /** The bits gathered so far stay below the next byte, so adding it is or-ing it in. */
  lemma {:induction false} GatherBound(bytes: seq<Byte>, n: nat)
    requires n <= |bytes|
    ensures Gather(bytes, n) < Pow256(n)
  {
    if n > 0 {
      GatherBound(bytes, n - 1);
      ByteTimes(bytes[n - 1], Pow256(n - 1));
    }
  }

  lemma Distribute(a: nat, b: nat, p: nat)
    ensures (a * 256 + b) * p == a * (256 * p) + b * p
  {
  }

  lemma SplitByte(v: nat, p: nat)
    requires p > 0
    ensures v % (256 * p) == v % p + v / p % 256 * p
  {
    var q := v / p;
    var a, b := q / 256, q % 256;
    Distribute(a, b, p);
    ByteTimes(b, p);
    assert v == q * p + v % p;
    DivModUnique(v, 256 * p, a, b * p + v % p);
  }

  lemma {:induction false} GatherPrefix(value: nat, n: nat)
    requires n <= 8
    ensures Gather(Bytes(value), n) == value % Pow256(n)
  {
    if n > 0 {
      GatherPrefix(value, n - 1);
      SplitByte(value, Pow256(n - 1));
    }
  }

  lemma Pow256Of8()
    ensures Pow256(4) == UINT32 && Pow256(8) == UINT32 * UINT32
  {
    assert Pow256(2) == 0x1_0000;
    assert Pow256(4) == 0x1_0000_0000;
    assert Pow256(6) == 0x1_0000_0000_0000;
  }

  /** Decoding undoes encoding for all pairs of 32-bit fields. */
  lemma CodecRoundTrip(major: nat, minor: nat)
    requires major < UINT32 && minor < UINT32
    ensures var value := Gather(Bytes(Pack(major, minor)), 8);
            ExtractMajor(value) == major && ExtractMinor(value) == minor
  {
    GatherPrefix(Pack(major, minor), 8);
    Pow256Of8();
  }

  /** The wire form, byte by byte: the minor field first, each field from its lowest byte. */
  lemma WireForm(major: nat, minor: nat)
    requires major < UINT32 && minor < UINT32
    ensures Bytes(Pack(major, minor)) ==
              [minor % 256, minor / 0x100 % 256, minor / 0x1_0000 % 256, minor / 0x100_0000 % 256,
               major % 256, major / 0x100 % 256, major / 0x1_0000 % 256, major / 0x100_0000 % 256]
  {
    Powers();
    var v := Pack(major, minor);
    LowBytes(major, minor);
    HighBytes(major, minor);
    var expected := [minor % 256, minor / 0x100 % 256, minor / 0x1_0000 % 256, minor / 0x100_0000 % 256,
                     major % 256, major / 0x100 % 256, major / 0x1_0000 % 256, major / 0x100_0000 % 256];
    forall i | 0 <= i < 8 ensures Bytes(v)[i] == expected[i] {
      assert Bytes(v)[i] == ByteAt(v, i);
    }
  }

  lemma Powers()
    ensures Pow256(0) == 1 && Pow256(1) == 0x100 && Pow256(2) == 0x1_0000 && Pow256(3) == 0x100_0000
    ensures Pow256(4) == 0x1_0000_0000 && Pow256(5) == 0x100_0000_0000
    ensures Pow256(6) == 0x1_0000_0000_0000 && Pow256(7) == 0x100_0000_0000_0000
  {
    assert Pow256(1) == 0x100;
    assert Pow256(3) == 0x100_0000;
    assert Pow256(5) == 0x100_0000_0000;
  }

  lemma LowBytes(major: nat, minor: nat)
    requires minor < UINT32
    ensures var v := Pack(major, minor);
            && v % 256 == minor % 256 && v / 0x100 % 256 == minor / 0x100 % 256
            && v / 0x1_0000 % 256 == minor / 0x1_0000 % 256 && v / 0x100_0000 % 256 == minor / 0x100_0000 % 256
  {
    var v := Pack(major, minor);
    AddMultiple(major * 0x100_0000, minor);
    assert v / 0x100 == major * 0x100_0000 + minor / 0x100;
    AddMultiple(major * 0x1_0000, minor / 0x100);
    assert v / 0x1_0000 == major * 0x1_0000 + minor / 0x1_0000;
    AddMultiple(major * 0x100, minor / 0x1_0000);
    assert v / 0x100_0000 == major * 0x100 + minor / 0x100_0000;
    AddMultiple(major, minor / 0x100_0000);
  }

  lemma AddMultiple(k: nat, x: nat)
    ensures (k * 256 + x) % 256 == x % 256
  {
  }

  lemma HighBytes(major: nat, minor: nat)
    requires minor < UINT32
    ensures var v := Pack(major, minor);
            && v / 0x1_0000_0000 == major && v / 0x100_0000_0000 == major / 0x100
            && v / 0x1_0000_0000_0000 == major / 0x1_0000 && v / 0x100_0000_0000_0000 == major / 0x100_0000
  {
  }

  lemma GatherIs(bytes: seq<Byte>)
    requires |bytes| >= 8
    ensures Gather(bytes, 8) ==
              (bytes[0] as int) + (bytes[1] as int) * 0x100 + (bytes[2] as int) * 0x1_0000
              + (bytes[3] as int) * 0x100_0000 + (bytes[4] as int) * 0x1_0000_0000
              + (bytes[5] as int) * 0x100_0000_0000 + (bytes[6] as int) * 0x1_0000_0000_0000
              + (bytes[7] as int) * 0x100_0000_0000_0000
  {
    Powers();
    assert Gather(bytes, 1) == (bytes[0] as int);
    assert Gather(bytes, 3) == Gather(bytes, 1) + (bytes[1] as int) * 0x100 + (bytes[2] as int) * 0x1_0000;
    assert Gather(bytes, 5) == Gather(bytes, 3) + (bytes[3] as int) * 0x100_0000 + (bytes[4] as int) * 0x1_0000_0000;
    assert Gather(bytes, 7) ==
           Gather(bytes, 5) + (bytes[5] as int) * 0x100_0000_0000 + (bytes[6] as int) * 0x1_0000_0000_0000;
  }

  method ExtractValue(bytes: seq<Byte>) returns (value: nat)
    requires |bytes| >= 8
    ensures value == Gather(bytes, 8) && value < UINT32 * UINT32
    ensures value ==
              (bytes[0] as int) + (bytes[1] as int) * 0x100 + (bytes[2] as int) * 0x1_0000
              + (bytes[3] as int) * 0x100_0000 + (bytes[4] as int) * 0x1_0000_0000
              + (bytes[5] as int) * 0x100_0000_0000 + (bytes[6] as int) * 0x1_0000_0000_0000
              + (bytes[7] as int) * 0x100_0000_0000_0000
  {
    value := 0;
    for i := 0 to 8
      invariant value == Gather(bytes, i) && value < Pow256(i)
    {
      GatherBound(bytes, i + 1);
      value := value + bytes[i] * Pow256(i);
    }
    Pow256Of8();
    GatherIs(bytes);
  }

  class Counter {
    var major: nat
    var minor: nat

    ghost predicate Valid()
      reads this
    {
      major < UINT32 && minor < UINT32
    }

    constructor ()
      ensures Valid() && major == 0 && minor == 0
    {
      major, minor := 0, 0;
    }

    method IncrementMajor()
      requires Valid()
      modifies this
      ensures Valid() && major == (old(major) + 1) % UINT32 && minor == 0
    {
      major := (major + 1) % UINT32;
      minor := 0;
    }

    method IncrementMinor()
      requires Valid()
      modifies this
      ensures Valid() && minor == (old(minor) + 1) % UINT32 && major == old(major)
    {
      minor := (minor + 1) % UINT32;
    }

    /** The published bytes decode to exactly the counter's two fields. */
    method PublishValue() returns (bytes: seq<Byte>)
      requires Valid()
      ensures |bytes| == 8
      ensures ExtractMajor(Gather(bytes, 8)) == major && ExtractMinor(Gather(bytes, 8)) == minor
      ensures bytes == [minor % 256, minor / 0x100 % 256, minor / 0x1_0000 % 256, minor / 0x100_0000 % 256,
                        major % 256, major / 0x100 % 256, major / 0x1_0000 % 256, major / 0x100_0000 % 256]
    {
      var value := Pack(major, minor);
      var buffer := new Byte[8];
      for i := 0 to 8
        invariant forall k :: 0 <= k < i ==> buffer[k] == ByteAt(value, k)
      {
        buffer[i] := value / Pow256(i) % 256;
      }
      bytes := buffer[..];
      assert bytes == Bytes(value);
      CodecRoundTrip(major, minor);
      WireForm(major, minor);
    }
  }
}
