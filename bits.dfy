/** The firmware header's bit macros (`bitval`, `setbit`, `clrbit`, `readbit`)
    over one 8-bit AVR I/O register.

    The C macros compute `1 << bit` in `int` and store the result back into an
    8-bit register, so only the low eight bits ever matter; the model works on
    `bv8` directly. A register is a value here: `setbit(reg, b)` becomes
    `reg := SetBit(reg, b)` at the call site. */
module Bits {

  /** The position of a bit inside an 8-bit register. */
  type BitIndex = k: nat | k < 8

  /** 2 to the power k, the numeric weight of bit k. */
  function Pow2(k: nat): (r: nat)
    ensures r > 0
  {
    if k == 0 then 1 else 2 * Pow2(k - 1)
  }

  /** Bit k of the register holds a one. This is the reference reading of a
      register that all the macros below are specified against. */
  predicate IsSet(reg: bv8, k: BitIndex) {
    (reg >> k) & 1 == 1
  }

  /** The two registers agree on every bit except possibly bit b. */
  predicate SameExcept(reg: bv8, reg': bv8, b: BitIndex) {
    forall k: BitIndex :: k != b ==> IsSet(reg, k) == IsSet(reg', k)
  }

  /** `bitval(bit)`: the mask with bit b alone set. */
  function BitVal(b: BitIndex): (r: bv8)
    ensures IsSet(r, b)
    ensures forall k: BitIndex :: k != b ==> !IsSet(r, k)
  {
    1 << b
  }

  /** `setbit(reg, bit)`: bit b forced on, every other bit kept. */
  function SetBit(reg: bv8, b: BitIndex): (r: bv8)
    ensures IsSet(r, b)
    ensures SameExcept(r, reg, b)
  {
    forall k: BitIndex | k != b
      ensures IsSet(reg | BitVal(b), k) == IsSet(reg, k)
    {
      OrKeepsOtherBit(reg, b, k);
    }
    reg | BitVal(b)
  }

  /** `clrbit(reg, bit)`: bit b forced off, every other bit kept. */
  function ClrBit(reg: bv8, b: BitIndex): (r: bv8)
    ensures !IsSet(r, b)
    ensures SameExcept(r, reg, b)
  {
    forall k: BitIndex | k != b
      ensures IsSet(reg & !BitVal(b), k) == IsSet(reg, k)
    {
      AndNotKeepsOtherBit(reg, b, k);
    }
    reg & !BitVal(b)
  }

  lemma OrKeepsOtherBit(reg: bv8, b: BitIndex, k: BitIndex)
    requires k != b
    ensures IsSet(reg | BitVal(b), k) == IsSet(reg, k)
  {
  }

  lemma AndNotKeepsOtherBit(reg: bv8, b: BitIndex, k: BitIndex)
    requires k != b
    ensures IsSet(reg & !BitVal(b), k) == IsSet(reg, k)
  {
  }

  /** `readbit(reg, bit)`: the value of bit b, as a number 0 or 1. */
  function ReadBit(reg: bv8, b: BitIndex): (r: bv8)
    ensures r == 0 || r == 1
    ensures r == 1 <==> IsSet(reg, b)
  {
    (reg & BitVal(b)) >> b
  }

  /** Applying `setbit` twice gives the register of applying it once. */
  lemma SetBitIdempotent(reg: bv8, b: BitIndex)
    ensures SetBit(SetBit(reg, b), b) == SetBit(reg, b)
  {
  }

  /** Applying `clrbit` twice gives the register of applying it once. */
  lemma ClrBitIdempotent(reg: bv8, b: BitIndex)
    ensures ClrBit(ClrBit(reg, b), b) == ClrBit(reg, b)
  {
  }

  /** On one bit the last write wins: `setbit` after `clrbit` is `setbit`
      alone, and `clrbit` after `setbit` is `clrbit` alone. */
  lemma LastWriteWins(reg: bv8, b: BitIndex)
    ensures SetBit(ClrBit(reg, b), b) == SetBit(reg, b)
    ensures ClrBit(SetBit(reg, b), b) == ClrBit(reg, b)
  {
  }

  /** The mask `bitval(b)` has the numeric value 2^b. */
  lemma BitValWeight(b: BitIndex)
    ensures BitVal(b) as int == Pow2(b)
  {
    assert Pow2(1) == 2 && Pow2(2) == 4 && Pow2(3) == 8;
    assert Pow2(4) == 16 && Pow2(5) == 32 && Pow2(6) == 64 && Pow2(7) == 128;
    if b == 0 {} else if b == 1 {} else if b == 2 {} else if b == 3 {}
    else if b == 4 {} else if b == 5 {} else if b == 6 {} else {}
  }

  lemma OrOfClearBitIsSum(x: bv8, b: BitIndex)
    requires !IsSet(x, b)
    ensures (x | BitVal(b)) as int == x as int + BitVal(b) as int
  {
  }

  /** A set bit, once cleared, can be put back with an or. */
  lemma RestoreClearedBit(reg: bv8, b: BitIndex)
    requires IsSet(reg, b)
    ensures ClrBit(reg, b) | BitVal(b) == reg
  {
  }

  /** Numerically, `setbit` adds 2^b to the register's unsigned value when
      bit b was clear, and leaves it alone when it was set. */
  lemma SetBitValue(reg: bv8, b: BitIndex)
    ensures SetBit(reg, b) as int == reg as int + (if IsSet(reg, b) then 0 else Pow2(b))
  {
    BitValWeight(b);
    if !IsSet(reg, b) {
      OrOfClearBitIsSum(reg, b);
    } else {
      assert SetBit(reg, b) == reg;
    }
  }

  /** Numerically, `clrbit` subtracts 2^b from the register's unsigned value
      when bit b was set, and leaves it alone when it was clear. */
  lemma ClrBitValue(reg: bv8, b: BitIndex)
    ensures ClrBit(reg, b) as int == reg as int - (if IsSet(reg, b) then Pow2(b) else 0)
  {
    BitValWeight(b);
    if IsSet(reg, b) {
      RestoreClearedBit(reg, b);
      OrOfClearBitIsSum(ClrBit(reg, b), b);
    } else {
      assert ClrBit(reg, b) == reg;
    }
  }
}
