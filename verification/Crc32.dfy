/** The reflected CRC-32 of section 8 of RFC 1952, computed bit by bit. */
module Crc32 {
  type Byte = bv8

  const POLYNOMIAL: bv32 := 0xedb88320
  const MASK: bv32 := 0xffffffff

  function BitStep(crc: bv32): bv32 {
    (crc >> 1) ^ (POLYNOMIAL & (0 - (crc & 1)))
  }

  function BitSteps(crc: bv32, count: nat): bv32 {
    if count == 0 then crc else BitStep(BitSteps(crc, count - 1))
  }

  function ByteStep(crc: bv32, byte: Byte): bv32 {
    BitSteps(crc ^ (byte as bv32), 8)
  }

  /** The register after the bytes have been shifted in. */
  function Register(bytes: seq<Byte>): bv32 {
    if bytes == [] then MASK else ByteStep(Register(bytes[..|bytes| - 1]), bytes[|bytes| - 1])
  }

  function Checksum(bytes: seq<Byte>): bv32 {
    Register(bytes) ^ MASK
  }

  /** The inner loop: eight bit steps. */
  method ShiftByte(register: bv32) returns (crc: bv32)
    ensures crc == BitSteps(register, 8)
  {
    crc := register;
    for bit := 0 to 8
      invariant crc == BitSteps(register, bit)
    {
      crc := (crc >> 1) ^ (POLYNOMIAL & (0 - (crc & 1)));
    }
  }

  method ComputeChecksum(bytes: seq<Byte>) returns (sum: bv32)
    ensures sum == Checksum(bytes)
  {
    var crc := MASK;
    for i := 0 to |bytes|
      invariant crc == Register(bytes[..i])
    {
      crc := ShiftByte(crc ^ (bytes[i] as bv32));
      assert bytes[..i + 1][..i] == bytes[..i];
    }
    assert bytes[..|bytes|] == bytes;
    sum := crc ^ MASK;
  }

  // ----- every step can be undone -----

  /** The polynomial's top bit tells which branch a bit step took. */
  function BitUnstep(crc: bv32): bv32 {
    if crc & 0x80000000 != 0 then ((crc ^ POLYNOMIAL) << 1) | 1 else crc << 1
  }

  lemma BitUnstepUndoes(crc: bv32)
    ensures BitUnstep(BitStep(crc)) == crc
  {
  }

  lemma {:induction false} BitStepsInjective(a: bv32, b: bv32, count: nat)
    requires BitSteps(a, count) == BitSteps(b, count)
    ensures a == b
  {
    if count != 0 {
      BitUnstepUndoes(BitSteps(a, count - 1));
      BitUnstepUndoes(BitSteps(b, count - 1));
      BitStepsInjective(a, b, count - 1);
    }
  }

  /** A byte step is injective in the register and in the byte. */
  lemma ByteStepInjective(a: bv32, x: Byte, b: bv32, y: Byte)
    requires ByteStep(a, x) == ByteStep(b, y)
    ensures a == b <==> x == y
  {
    BitStepsInjective(a ^ (x as bv32), b ^ (y as bv32), 8);
    XorCancels(a, x, b, y);
  }

  lemma XorCancels(a: bv32, x: Byte, b: bv32, y: Byte)
    requires a ^ (x as bv32) == b ^ (y as bv32)
    ensures a == b <==> x == y
  {
  }

  /** The two sequences have the same length and differ at the position and nowhere else. */
  ghost predicate DifferAt(a: seq<Byte>, b: seq<Byte>, p: nat) {
    && |a| == |b| && p < |a| && a[p] != b[p]
    && (forall i :: 0 <= i < |a| && i != p ==> a[i] == b[i])
  }

  lemma {:induction false} OneByteChangesRegister(a: seq<Byte>, b: seq<Byte>, p: nat)
    requires DifferAt(a, b, p)
    ensures Register(a) != Register(b)
    decreases |a|
  {
    var n := |a| - 1;
    if p == n {
      assert a[..n] == b[..n];
    } else {
      OneByteChangesRegister(a[..n], b[..n], p);
    }
    if Register(a) == Register(b) {
      ByteStepInjective(Register(a[..n]), a[n], Register(b[..n]), b[n]);
    }
  }

  /** Changing one byte changes the checksum. */
  lemma OneByteChangesChecksum(a: seq<Byte>, b: seq<Byte>, p: nat)
    requires DifferAt(a, b, p)
    ensures Checksum(a) != Checksum(b)
  {
    OneByteChangesRegister(a, b, p);
    var x, y := Register(a), Register(b);
    assert x ^ MASK == y ^ MASK ==> x == y;
  }
}
