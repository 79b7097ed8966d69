/**
 * `insn_length` of the s390x KVM selftests: the length in bytes of an
 * instruction, from its first opcode byte. The two leftmost bits of the
 * opcode are the instruction-length code of the z/Architecture Principles
 * of Operation (chapter 5, instruction formats): 00 one halfword, 01 and 10
 * two, 11 three.
 */
module S390Insn {

  /**
   * `((((int)code + 64) >> 7) + 1) << 1` on an `unsigned char`: the operand
   * of each shift is non-negative, so `>> 7` is division by 128 and `<< 1`
   * doubling.
   */
  function InsnLength(code: nat): (r: int)
    requires code < 0x100
    ensures r == 2 || r == 4 || r == 6
    ensures code < 0x40 ==> r == 2
    ensures 0x40 <= code < 0xC0 ==> r == 4
    ensures 0xC0 <= code ==> r == 6
  {
    (((code + 64) / 128) + 1) * 2
  }

  /** The number of halfwords an instruction-length code stands for. */
  function Halfwords(ilc: nat): (r: nat)
    requires ilc < 4
    ensures 1 <= r <= 3
  {
    if ilc == 0 then 1 else if ilc == 3 then 3 else 2
  }

  /** The length is the halfword count of the code in the top two bits. */
  lemma InsnLengthIsIlc(code: nat)
    requires code < 0x100
    ensures InsnLength(code) == 2 * Halfwords(code / 64)
  {
  }

  /** Only the top two bits of the opcode matter. */
  lemma InsnLengthTopBits(c1: nat, c2: nat)
    requires c1 < 0x100 && c2 < 0x100 && c1 / 64 == c2 / 64
    ensures InsnLength(c1) == InsnLength(c2)
  {
    InsnLengthIsIlc(c1);
    InsnLengthIsIlc(c2);
  }
}
