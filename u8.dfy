/** Unsigned 8-bit values as the emulator uses them: bytes, the two nibbles
    of an instruction byte, and the two kinds of addition it performs. */
module U8 {

  /** A Rust `u8`. */
  type Byte = x: int | 0 <= x < 256

  /** A 4-bit value: an opcode, an address or an immediate literal. */
  type Nibble = x: int | 0 <= x < 16

  datatype Option<T> = None | Some(value: T)

  /** `a >> n` on an unsigned value: drop the `n` lowest bits. */
  function ShiftRight(a: nat, n: nat): nat
    decreases n
  {
    if n == 0 then a else ShiftRight(a / 2, n - 1)
  }

  /** `a & b` on unsigned values, bit by bit from the lowest. */
  function BitAnd(a: nat, b: nat): nat
    decreases a
  {
    if a == 0 || b == 0 then 0
    else 2 * BitAnd(a / 2, b / 2) + (if a % 2 == 1 && b % 2 == 1 then 1 else 0)
  }

  /** Shifting right by four divides by 16. */
  lemma ShiftRightByFour(a: nat)
    ensures ShiftRight(a, 4) == a / 16
  {
    assert ShiftRight(a, 4) == a / 2 / 2 / 2 / 2;
  }

  /** Masking with an odd mask keeps the lowest bit and masks the rest
      with the mask's upper bits. */
  lemma BitAndOddMask(a: nat, b: nat)
    requires b % 2 == 1
    ensures BitAnd(a, b) == 2 * BitAnd(a / 2, b / 2) + a % 2
  {
  }

  // The remainder modulo 4, 8 and 16 from the lowest bit and the rest.

  lemma RemainderFour(a: nat)
    ensures a % 4 == 2 * ((a / 2) % 2) + a % 2
  {
  }

  lemma RemainderEight(a: nat)
    ensures a % 8 == 2 * ((a / 2) % 4) + a % 2
  {
  }

  lemma RemainderSixteen(a: nat)
    ensures a % 16 == 2 * ((a / 2) % 8) + a % 2
  {
  }

  /** Masking with 3 keeps the remainder modulo 4. */
  lemma BitAndThree(a: nat)
    ensures BitAnd(a, 3) == a % 4
  {
    BitAndOddMask(a, 3);
    BitAndOddMask(a / 2, 1);
    RemainderFour(a);
  }

  /** Masking with 7 keeps the remainder modulo 8. */
  lemma BitAndSeven(a: nat)
    ensures BitAnd(a, 7) == a % 8
  {
    BitAndOddMask(a, 7);
    BitAndThree(a / 2);
    RemainderEight(a);
  }

  /** Masking with 15 keeps the remainder modulo 16. */
  lemma BitAndFifteen(a: nat)
    ensures BitAnd(a, 15) == a % 16
  {
    BitAndOddMask(a, 15);
    BitAndSeven(a / 2);
    RemainderSixteen(a);
  }

  /** The opcode: the high nibble of the instruction byte, the number of
      whole sixteens in it. */
  function HighNibble(instr: Byte): (op: Nibble)
    ensures 16 * op <= instr < 16 * op + 16
  {
    instr / 16
  }

  /** The operand: the low nibble of the instruction byte, what is left
      above the whole sixteens. */
  function LowNibble(instr: Byte): (k: Nibble)
    ensures instr == 16 * HighNibble(instr) + k
  {
    instr % 16
  }

  /** The opcode is `instruction >> 4`. */
  lemma HighNibbleIsShift(instr: Byte)
    ensures HighNibble(instr) == ShiftRight(instr, 4)
  {
    ShiftRightByFour(instr);
  }

  /** The operand is `instruction & 15`. */
  lemma LowNibbleIsMask(instr: Byte)
    ensures LowNibble(instr) == BitAnd(instr, 15)
  {
    BitAndFifteen(instr);
  }

  /** The instruction byte with opcode `op` and operand `k`. */
  function Encode(op: Nibble, k: Nibble): Byte
  {
    16 * op + k
  }

  /** The two nibbles together give back the byte they came from. */
  lemma EncodeDecode(instr: Byte)
    ensures Encode(HighNibble(instr), LowNibble(instr)) == instr
  {
  }

  /** Decoding an encoded instruction gives back its opcode and operand. */
  lemma DecodeEncode(op: Nibble, k: Nibble)
    ensures HighNibble(Encode(op, k)) == op && LowNibble(Encode(op, k)) == k
  {
  }

  /** `(Wrapping(a) + Wrapping(b)).0`: addition modulo 256. */
  function WrappingAdd(a: Byte, b: Byte): (r: Byte)
    ensures r == a + b || r == a + b - 256
  {
    (a + b) % 256
  }

  /** `a.checked_add(b)`: the sum, or `None` when it does not fit in a `u8`. */
  function CheckedAdd(a: Byte, b: Byte): (r: Option<Byte>)
    ensures r.Some? <==> a + b < 256
    ensures r.Some? ==> r.value == a + b
  {
    if a + b <= 255 then Some(a + b) else None
  }

  /** The wrapped sum is the sum exactly when the checked sum exists. */
  lemma CheckedAgreesWithWrapping(a: Byte, b: Byte)
    ensures CheckedAdd(a, b).Some? <==> WrappingAdd(a, b) == a + b
    ensures CheckedAdd(a, b).None? <==> a + b > 255
    ensures CheckedAdd(a, b).None? ==> WrappingAdd(a, b) == a + b - 256
  {
  }
}
