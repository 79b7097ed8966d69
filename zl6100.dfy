/**
 * The ZL6100-family PMBus driver: conversion between milli-units and the
 * PMBus linear data format (section 7.1 of the PMBus Power System Management
 * Protocol Specification Part II, a 5-bit two's-complement exponent N above
 * an 11-bit two's-complement mantissa Y, value Y * 2^N), the remapping of
 * the virtual VMON registers onto the manufacturer registers with the
 * 90% and 110% warn-limit scaling, the VMON status bit translation, and the
 * device-id match of probe.
 *
 * Bus transfers are not part of this model: a register read is an oracle
 * function from register to the value or negative error the PMBus core
 * would return, and a write is the register and word the driver hands on.
 * pmbus.h is not part of this model either: register codes and status bits
 * are those of the PMBus command table and the STATUS_VOUT layout.
 */
module Zl6100 {
  import opened Wrappers
  import opened Errno
  import Bits

  // ---------------------------------------------------------------- integers

  /** Conversion of any integer to `s16`: the value congruent to it modulo 2^16 in [-2^15, 2^15). */
  function S16(w: int): (r: int)
    ensures -0x8000 <= r < 0x8000
    ensures (r - w) % 0x1_0000 == 0
  {
    var u := w % 0x1_0000;
    if u >= 0x8000 then u - 0x1_0000 else u
  }

  /** C's `/` on signed integers: truncation toward zero. */
  function CDiv(a: int, d: nat): (r: int)
    requires d > 0
    ensures 0 <= a ==> r * d <= a < r * d + d
    ensures a < 0 ==> r * d - d < a <= r * d
  {
    if a >= 0 then a / d else -((-a) / d)
  }

  /** `a / d` in unbounded integers, for a non-negative `a`, lies within one divisor below `a`. */
  lemma DivFloor(a: nat, d: nat)
    requires d > 0
    ensures (a / d) * d <= a < (a / d) * d + d
  {
  }

  /** `DIV_ROUND_CLOSEST(x, d)` for a signed `x` and a positive `d`: the nearest integer, halves away from zero. */
  function RoundClosest(x: int, d: nat): (r: int)
    requires d > 0
    ensures -(d as int) <= 2 * (x - r * d) <= d
    ensures x > 0 ==> 2 * (x - r * d) < d
    ensures x <= 0 ==> -(d as int) < 2 * (x - r * d)
  {
    var h := d / 2;
    if x > 0 then
      DivFloor(x + h, d);
      CDiv(x + h, d)
    else
      DivFloor(h - x, d);
      assert CDiv(x - h, d) * d == -(((h - x) / d) * d);
      CDiv(x - h, d)
  }

  function Abs(x: int): nat
  {
    if x < 0 then -x else x
  }

  // ---------------------------------------------------------------- linear format

  /** `l >> 11` on an `s16`: the exponent N, an arithmetic shift. */
  function Exponent(l: int): (e: int)
    requires -0x8000 <= l < 0x8000
    ensures -16 <= e <= 15
  {
    l / 0x800
  }

  /** `((s16)((l & 0x7ff) << 5)) >> 5`: the low 11 bits, sign-extended, the mantissa Y. */
  function Mantissa(l: int): (m: int)
    requires -0x8000 <= l < 0x8000
    ensures -0x400 <= m < 0x400
    ensures (m - l) % 0x800 == 0
  {
    var low := l % 0x800;
    if low >= 0x400 then low - 0x800 else low
  }

  /** The two fields make up the word: N above the 11 mantissa bits. */
  lemma FieldsSplit(l: int)
    requires -0x8000 <= l < 0x8000
    ensures l == Exponent(l) * 0x800 + Mantissa(l) % 0x800
  {
  }

  /**
   * `zl6100_l2d`: Y * 1000 shifted left by N, or arithmetically right by
   * -N: exactly Y * 1000 * 2^N when N >= 0, and its floor otherwise.
   */
  function L2d(l: int): (r: int)
    requires -0x8000 <= l < 0x8000
    ensures Exponent(l) >= 0 ==> r == Mantissa(l) * 1000 * Bits.Pow2(Exponent(l))
    ensures Exponent(l) < 0 ==>
              r * Bits.Pow2(-Exponent(l)) <= Mantissa(l) * 1000 < (r + 1) * Bits.Pow2(-Exponent(l))
  {
    var e := Exponent(l);
    var v := Mantissa(l) * 1000;
    if e >= 0 then v * Bits.Pow2(e) else v / Bits.Pow2(-e)
  }

  /** `(mantissa & 0x7ff) | ((exponent << 11) & 0xf800)`: the two fields packed into a u16. */
  function Pack(m: int, e: int): (r: nat)
    ensures r < 0x1_0000
  {
    m % 0x800 + (e % 32) * 0x800
  }

  /** Unpacking a packed word returns both fields. */
  lemma PackFields(m: int, e: int)
    requires -0x400 <= m < 0x400 && -16 <= e < 16
    ensures Exponent(S16(Pack(m, e))) == e
    ensures Mantissa(S16(Pack(m, e))) == m
  {
    var w := Pack(m, e);
    if e >= 0 {
      assert w == m % 0x800 + e * 0x800;
      assert S16(w) == w;
    } else {
      assert w == m % 0x800 + (e + 32) * 0x800;
      assert S16(w) == m % 0x800 + e * 0x800;
    }
  }

  const MaxMantissa: nat := 1023 * 1000
  const MinMantissa: nat := 511 * 1000

  /** The first loop of `zl6100_d2l`: halve the value while it is too large for 10 bits and N < 15. */
  function Reduce(v: nat, e: int): (r: (nat, int))
    requires -15 <= e <= 15
    ensures e <= r.1 <= 15
    ensures r.1 < 15 ==> r.0 < MaxMantissa
    ensures r.1 > e ==> r.0 >= MaxMantissa / 2
    ensures r.1 == e ==> r.0 == v
    decreases 15 - e
  {
    if v >= MaxMantissa && e < 15 then Reduce(v / 2, e + 1) else (v, e)
  }

  /** The second loop: double the value while it is below 511000 and N > -15. */
  function Grow(v: nat, e: int): (r: (nat, int))
    requires -15 <= e <= 15
    ensures -15 <= r.1 <= e
    ensures r.1 > -15 ==> r.0 >= MinMantissa
    ensures r.1 < e ==> r.0 < 2 * MinMantissa
    ensures r.1 == e ==> r.0 == v
    decreases e + 15
  {
    if v < MinMantissa && e > -15 then Grow(v * 2, e - 1) else (v, e)
  }

  /** Halving k times is division by 2^k. */
  lemma {:induction false} ReduceValue(v: nat, e: int)
    requires -15 <= e <= 15
    ensures Reduce(v, e).0 == v / Bits.Pow2(Reduce(v, e).1 - e)
    decreases 15 - e
  {
    if v >= MaxMantissa && e < 15 {
      ReduceValue(v / 2, e + 1);
      var k := Reduce(v, e).1 - (e + 1);
      Bits.DivDiv(v, 2, Bits.Pow2(k));
      assert Bits.Pow2(k + 1) == 2 * Bits.Pow2(k);
    }
  }

  /** Doubling k times is multiplication by 2^k. */
  lemma {:induction false} GrowValue(v: nat, e: int)
    requires -15 <= e <= 15
    ensures Grow(v, e).0 == v * Bits.Pow2(e - Grow(v, e).1)
    decreases e + 15
  {
    if v < MinMantissa && e > -15 {
      GrowValue(v * 2, e - 1);
      DoubleScale(v, (e - 1) - Grow(v, e).1);
    }
  }

  lemma DoubleScale(v: nat, k: nat)
    ensures (v * 2) * Bits.Pow2(k) == v * Bits.Pow2(k + 1)
  {
    var pk := Bits.Pow2(k);
    assert Bits.Pow2(k + 1) == 2 * pk;
    assert (v * 2) * pk == v * (2 * pk);
  }

  /** The normalised value and exponent of a nonzero magnitude `a`. */
  function Normalize(a: nat): (r: (nat, int))
    ensures -15 <= r.1 <= 15
    ensures r.1 < 15 ==> r.0 < MaxMantissa
    ensures r.1 > -15 ==> r.0 >= MinMantissa
  {
    var r1 := Reduce(a, 0);
    Grow(r1.0, r1.1)
  }

  function Clamp(m: int): int
  {
    if m > 0x3ff then 0x3ff else m
  }

  /** The mantissa d2l keeps for a normalised value: rounded to units, in an `s16`, clamped to 0x3ff, signed. */
  function D2lMantissa(v: nat, negative: bool): int
  {
    var m1 := Clamp(S16(RoundClosest(v, 1000)));
    if negative then S16(-m1) else m1
  }

  lemma SignedMantissa(v: nat, negative: bool, m1: int)
    requires m1 == Clamp(S16(RoundClosest(v, 1000)))
    ensures D2lMantissa(v, negative) == if negative then S16(-m1) else m1
  {
  }

  /** The word `zl6100_d2l` returns. */
  function Linear(val: int): (r: nat)
    ensures r < 0x1_0000
  {
    if val == 0 then 0
    else
      var n := Normalize(Abs(val));
      Pack(D2lMantissa(n.0, val < 0), n.1)
  }

  lemma LinearOf(val: int, v: nat, e: int)
    requires val != 0 && (v, e) == Normalize(Abs(val))
    ensures Linear(val) == Pack(D2lMantissa(v, val < 0), e)
  {
  }

  /**
   * `zl6100_d2l` with its two loops. `val` is a `long`; its negation is
   * taken in unbounded integers.
   */
  method D2l(val: int) returns (w: nat)
    ensures w == Linear(val)
  {
    if val == 0 {
      return 0;
    }
    var exponent := 0;
    var negative := false;
    var v: nat := Abs(val);
    if val < 0 {
      negative := true;
    }
    while v >= MaxMantissa && exponent < 15
      invariant 0 <= exponent <= 15
      invariant Reduce(v, exponent) == Reduce(Abs(val), 0)
      decreases 15 - exponent
    {
      exponent := exponent + 1;
      v := v / 2;
    }
    assert Reduce(v, exponent) == (v, exponent);
    ghost var e1 := exponent;
    while v < MinMantissa && exponent > -15
      invariant -15 <= exponent <= e1
      invariant Grow(v, exponent) == Normalize(Abs(val))
      decreases exponent + 15
    {
      exponent := exponent - 1;
      v := v * 2;
    }
    assert (v, exponent) == Normalize(Abs(val));
    var mantissa := S16(RoundClosest(v, 1000));
    if mantissa > 0x3ff {
      mantissa := 0x3ff;
    }
    ghost var m1 := mantissa;
    assert m1 == Clamp(S16(RoundClosest(v, 1000)));
    if negative {
      mantissa := S16(-mantissa);
    }
    SignedMantissa(v, negative, m1);
    assert mantissa == D2lMantissa(v, val < 0);
    LinearOf(val, v, exponent);
    w := Pack(mantissa, exponent);
  }

  /** The normalised value is the magnitude scaled by 2^-N. */
  lemma NormalizeValue(a: nat)
    ensures var n := Normalize(a);
            n.0 == (if n.1 >= 0 then a / Bits.Pow2(n.1) else a * Bits.Pow2(-n.1))
  {
    if Reduce(a, 0).1 > 0 {
      NormalizeReduced(a);
    } else {
      NormalizeGrown(a);
    }
  }

  /** A value that needed halving is not doubled again. */
  lemma NormalizeReduced(a: nat)
    requires Reduce(a, 0).1 > 0
    ensures Normalize(a) == Reduce(a, 0)
    ensures Normalize(a).0 == a / Bits.Pow2(Normalize(a).1)
  {
    ReduceValue(a, 0);
    assert Reduce(a, 0).0 >= MinMantissa;
  }

  /** A value that needed no halving is only doubled. */
  lemma NormalizeGrown(a: nat)
    requires Reduce(a, 0).1 <= 0
    ensures Normalize(a) == Grow(a, 0)
    ensures Normalize(a).0 == a * Bits.Pow2(-Normalize(a).1)
  {
    GrowValue(a, 0);
  }

  /** The mantissa of the word: the rounded value, clamped, with the sign, unless rounding overflowed `s16`. */
  lemma PackedMantissa(v: nat, e: int, negative: bool)
    requires -15 <= e <= 15 && RoundClosest(v, 1000) < 0x8000
    ensures Exponent(S16(Pack(D2lMantissa(v, negative), e))) == e
    ensures Mantissa(S16(Pack(D2lMantissa(v, negative), e))) ==
            (if negative then -1 else 1) * Min(RoundClosest(v, 1000), 0x3ff)
  {
    var m1 := Min(RoundClosest(v, 1000), 0x3ff);
    assert 0 <= RoundClosest(v, 1000);
    assert D2lMantissa(v, negative) == (if negative then -m1 else m1);
    PackFields(D2lMantissa(v, negative), e);
  }

  /**
   * What `zl6100_d2l` promises for a nonzero value: the exponent is in
   * [-15, 15]; the value scaled by 2^-N lies in [511000, 1023000) unless N
   * sits at an end of that range; and unless rounding that value overflows
   * the `s16` mantissa, the mantissa is it rounded to units, clamped to
   * 0x3ff, with the sign of the input.
   */
  lemma LinearNormalized(val: int)
    requires val != 0
    ensures var l := S16(Linear(val));
            var e := Exponent(l);
            var q := if e >= 0 then Abs(val) / Bits.Pow2(e) else Abs(val) * Bits.Pow2(-e);
            -15 <= e <= 15 &&
            (e < 15 ==> q < MaxMantissa) &&
            (e > -15 ==> q >= MinMantissa) &&
            (RoundClosest(q, 1000) < 0x8000 ==>
               Mantissa(l) == (if val < 0 then -1 else 1) * Min(RoundClosest(q, 1000), 0x3ff))
  {
    var n := Normalize(Abs(val));
    var v, e := n.0, n.1;
    NormalizeValue(Abs(val));
    LinearOf(val, v, e);
    PackExponent(D2lMantissa(v, val < 0), e);
    if RoundClosest(v, 1000) < 0x8000 {
      PackedMantissa(v, e, val < 0);
    }
  }

  /** Packing keeps the exponent whatever the mantissa. */
  lemma PackExponent(m: int, e: int)
    requires -16 <= e < 16
    ensures Exponent(S16(Pack(m, e))) == e
  {
    var m' := m % 0x800 - (if m % 0x800 >= 0x400 then 0x800 else 0);
    PackFields(m', e);
    assert Pack(m, e) == Pack(m', e);
  }

  function Min(a: int, b: int): int
  {
    if a < b then a else b
  }

  /** Only 0 converts to the word 0. */
  lemma LinearZero(val: int)
    ensures Linear(val) == 0 <==> val == 0
  {
    if val != 0 {
      LinearNormalized(val);
      var l := S16(Linear(val));
      if Exponent(l) == 0 {
        var r := RoundClosest(Abs(val), 1000);
        assert Abs(val) / Bits.Pow2(0) == Abs(val);
        assert 0 < r < 0x400;
      }
      assert Exponent(l) != 0 || Mantissa(l) != 0;
      assert S16(0) == 0;
    }
  }

  // ---------------------------------------------------------------- warn-limit scaling

  /** The two roundings of an OV limit, by 10/9 on write and by 9/10 on read, bring it back exactly. */
  lemma OvScaleInverse(x: int)
    ensures RoundClosest(RoundClosest(x * 10, 9) * 9, 10) == x
  {
    var y := RoundClosest(x * 10, 9);
    var z := RoundClosest(y * 9, 10);
    assert 20 * (x - z) == 2 * (x * 10 - y * 9) + 2 * (y * 9 - z * 10);
  }

  /** The two roundings of a UV limit, by 10/11 on write and 11/10 on read, bring it back within one milli-unit, which 5 shows is needed. */
  lemma UvScaleNearInverse(x: int)
    ensures -1 <= RoundClosest(RoundClosest(x * 10, 11) * 11, 10) - x <= 1
    ensures RoundClosest(RoundClosest(5 * 10, 11) * 11, 10) == 6
  {
    var y := RoundClosest(x * 10, 11);
    var z := RoundClosest(y * 11, 10);
    assert 20 * (x - z) == 2 * (x * 10 - y * 11) + 2 * (y * 11 - z * 10);
  }

  // ---------------------------------------------------------------- registers

  /** The `enum chips` of the driver. */
  datatype Chip = Zl2004 | Zl2005 | Zl2006 | Zl2008 | Zl2105 | Zl2106 | Zl6100 | Zl6105
                | Zl8802 | Zl9101 | Zl9117 | Zls1003 | Zls4009

  /** The virtual registers of the PMBus core the driver knows; all lie at or above PMBUS_VIRT_BASE. */
  datatype Virt = ReadVmon | VmonOvWarnLimit | VmonOvFaultLimit | VmonUvWarnLimit | VmonUvFaultLimit
                | StatusVmon | OtherVirt(n: nat)

  /** A register number: a PMBus command code below PMBUS_VIRT_BASE, or a virtual register. */
  datatype Reg = Cmd(code: nat) | V(v: Virt)

  predicate WfReg(r: Reg)
  {
    r.Cmd? ==> r.code < 0x100
  }

  const VoutOvWarnLimit: nat := 0x42
  const VoutUvWarnLimit: nat := 0x43
  const IoutOcWarnLimit: nat := 0x4a
  const StatusMfrSpecific: nat := 0x80
  const MfrVmonOvFaultLimit: nat := 0xf5
  const MfrVmonUvFaultLimit: nat := 0xf6
  const MfrReadVmon: nat := 0xf7

  /** The ZL2005's unreliable limit registers. */
  predicate Zl2005Hidden(chip: Chip, reg: Reg)
  {
    chip == Zl2005 && reg in {Cmd(VoutOvWarnLimit), Cmd(VoutUvWarnLimit), Cmd(IoutOcWarnLimit)}
  }

  /** The VMON registers the driver maps onto manufacturer registers. */
  predicate VmonWord(reg: Reg)
  {
    reg in {V(ReadVmon), V(VmonOvWarnLimit), V(VmonOvFaultLimit), V(VmonUvWarnLimit), V(VmonUvFaultLimit)}
  }

  /** The first switch of `zl6100_read_word_data`: the register actually read, or none for -ENXIO. */
  function ReadWordTarget(chip: Chip, pages: nat, page: int, reg: Reg): (r: Option<nat>)
    requires WfReg(reg)
    ensures r.None? <==> page >= pages || Zl2005Hidden(chip, reg) || (reg.V? && !VmonWord(reg))
    ensures r.Some? && reg.Cmd? ==> r.value == reg.code
    ensures r.Some? && reg in {V(VmonOvWarnLimit), V(VmonOvFaultLimit)} ==> r.value == MfrVmonOvFaultLimit
    ensures r.Some? && reg in {V(VmonUvWarnLimit), V(VmonUvFaultLimit)} ==> r.value == MfrVmonUvFaultLimit
    ensures r.Some? && reg == V(ReadVmon) ==> r.value == MfrReadVmon
  {
    if page >= pages then None
    else if Zl2005Hidden(chip, reg) then None
    else match reg
      case V(ReadVmon) => Some(MfrReadVmon)
      case V(VmonOvWarnLimit) => Some(MfrVmonOvFaultLimit)
      case V(VmonOvFaultLimit) => Some(MfrVmonOvFaultLimit)
      case V(VmonUvWarnLimit) => Some(MfrVmonUvFaultLimit)
      case V(VmonUvFaultLimit) => Some(MfrVmonUvFaultLimit)
      case V(_) => None
      case Cmd(c) => Some(c)
  }

  /**
   * `zl6100_read_word_data`, with `read` the word `pmbus_read_word_data`
   * returns for a page, phase and register (negative on error). The warn limits are read
   * from the fault registers and scaled by 9/10 and 11/10.
   */
  function ReadWord(chip: Chip, pages: nat, page: int, phase: int, reg: Reg, read: (int, int, nat) -> int): (r: int)
    requires WfReg(reg)
    ensures ReadWordTarget(chip, pages, page, reg).None? ==> r == -ENXIO
    ensures reg.Cmd? && ReadWordTarget(chip, pages, page, reg).Some? ==> r == read(page, phase, reg.code)
    ensures reg == V(ReadVmon) && ReadWordTarget(chip, pages, page, reg).Some? ==> r == read(page, phase, MfrReadVmon)
    ensures reg == V(VmonOvFaultLimit) && ReadWordTarget(chip, pages, page, reg).Some? ==>
              r == read(page, phase, MfrVmonOvFaultLimit)
    ensures reg == V(VmonUvFaultLimit) && ReadWordTarget(chip, pages, page, reg).Some? ==>
              r == read(page, phase, MfrVmonUvFaultLimit)
  {
    match ReadWordTarget(chip, pages, page, reg)
    case None => -ENXIO
    case Some(vreg) =>
      var ret := read(page, phase, vreg);
      if ret < 0 then ret
      else if reg == V(VmonOvWarnLimit) then Linear(RoundClosest(L2d(S16(ret)) * 9, 10))
      else if reg == V(VmonUvWarnLimit) then Linear(RoundClosest(L2d(S16(ret)) * 11, 10))
      else ret
  }

  /** The OV warn limit reads as 9/10 of the OV fault limit, and fails exactly when that read fails. */
  lemma OvWarnReadScalesFault(chip: Chip, pages: nat, page: int, phase: int, read: (int, int, nat) -> int)
    ensures var f := ReadWord(chip, pages, page, phase, V(VmonOvFaultLimit), read);
            var w := ReadWord(chip, pages, page, phase, V(VmonOvWarnLimit), read);
            (f < 0 ==> w == f) && (f >= 0 ==> w == Linear(RoundClosest(L2d(S16(f)) * 9, 10)))
  {
  }

  /** The UV warn limit reads as 11/10 of the UV fault limit, and fails exactly when that read fails. */
  lemma UvWarnReadScalesFault(chip: Chip, pages: nat, page: int, phase: int, read: (int, int, nat) -> int)
    ensures var f := ReadWord(chip, pages, page, phase, V(VmonUvFaultLimit), read);
            var w := ReadWord(chip, pages, page, phase, V(VmonUvWarnLimit), read);
            (f < 0 ==> w == f) && (f >= 0 ==> w == Linear(RoundClosest(L2d(S16(f)) * 11, 10)))
  {
  }

  /** What `zl6100_write_word_data` hands to `pmbus_write_word_data`, and whether it cleared the cache first. */
  datatype WordWrite = WordWrite(vreg: nat, word: nat, clearCache: bool)

  /**
   * `zl6100_write_word_data`: the warn limits are written to the fault
   * registers scaled by 10/9 and 10/11; every VMON limit write clears the
   * cache; other virtual registers give -ENXIO.
   */
  function WriteWord(pages: nat, page: int, reg: Reg, word: nat): (r: Option<WordWrite>)
    requires WfReg(reg) && word < 0x1_0000
    ensures r.None? <==> page >= pages || (reg.V? && reg !in {V(VmonOvWarnLimit), V(VmonOvFaultLimit),
                                                             V(VmonUvWarnLimit), V(VmonUvFaultLimit)})
    ensures r.Some? ==> r.value.word < 0x1_0000 && (r.value.clearCache <==> reg.V?)
    ensures r.Some? && reg.Cmd? ==> r.value == WordWrite(reg.code, word, false)
    ensures r.Some? && reg == V(VmonOvFaultLimit) ==> r.value == WordWrite(MfrVmonOvFaultLimit, word, true)
    ensures r.Some? && reg == V(VmonUvFaultLimit) ==> r.value == WordWrite(MfrVmonUvFaultLimit, word, true)
    ensures r.Some? && reg == V(VmonOvWarnLimit) ==>
              r.value.vreg == MfrVmonOvFaultLimit &&
              exists y :: r.value.word == Linear(y) && RoundClosest(y * 9, 10) == L2d(S16(word))
    ensures r.Some? && reg == V(VmonUvWarnLimit) ==>
              r.value.vreg == MfrVmonUvFaultLimit &&
              exists y :: r.value.word == Linear(y) && -1 <= RoundClosest(y * 11, 10) - L2d(S16(word)) <= 1
  {
    if page >= pages then None
    else match reg
      case V(VmonOvWarnLimit) =>
        OvScaleInverse(L2d(S16(word)));
        Some(WordWrite(MfrVmonOvFaultLimit, Linear(RoundClosest(L2d(S16(word)) * 10, 9)), true))
      case V(VmonOvFaultLimit) => Some(WordWrite(MfrVmonOvFaultLimit, word, true))
      case V(VmonUvWarnLimit) =>
        UvScaleNearInverse(L2d(S16(word)));
        Some(WordWrite(MfrVmonUvFaultLimit, Linear(RoundClosest(L2d(S16(word)) * 10, 11)), true))
      case V(VmonUvFaultLimit) => Some(WordWrite(MfrVmonUvFaultLimit, word, true))
      case V(_) => None
      case Cmd(c) => Some(WordWrite(c, word, false))
  }

  /** A warn limit goes to the register its read comes from. */
  lemma WarnWriteTarget(chip: Chip, pages: nat, page: int, word: nat, reg: Reg)
    requires word < 0x1_0000 && reg in {V(VmonOvWarnLimit), V(VmonUvWarnLimit)}
    requires !(page >= pages)
    ensures WriteWord(pages, page, reg, word).Some?
    ensures ReadWordTarget(chip, pages, page, reg) == Some(WriteWord(pages, page, reg, word).value.vreg)
  {
  }

  // ---------------------------------------------------------------- status

  /** The MFR_SPECIFIC status bits of VMON. */
  const VmonUvWarning: nat := 0x20
  const VmonOvWarning: nat := 0x10
  const VmonUvFault: nat := 0x02
  const VmonOvFault: nat := 0x01

  /** The STATUS_VOUT bits they are reported as. */
  const PbVoltageUvFault: nat := 0x10
  const PbVoltageUvWarning: nat := 0x20
  const PbVoltageOvWarning: nat := 0x40
  const PbVoltageOvFault: nat := 0x80

  /** `x & mask` is nonzero, for a one-bit mask. */
  predicate Has(x: nat, mask: nat)
    requires mask > 0
  {
    (x / mask) % 2 == 1
  }

  /** The status `zl6100_read_byte_data` builds from the MFR_SPECIFIC byte. */
  function VmonStatus(ret: nat): (status: nat)
    ensures status < 0x100 && status % 0x10 == 0
    ensures Has(status, PbVoltageUvWarning) <==> Has(ret, VmonUvWarning)
    ensures Has(status, PbVoltageOvWarning) <==> Has(ret, VmonOvWarning)
    ensures Has(status, PbVoltageUvFault) <==> Has(ret, VmonUvFault)
    ensures Has(status, PbVoltageOvFault) <==> Has(ret, VmonOvFault)
  {
    (if Has(ret, VmonUvWarning) then PbVoltageUvWarning else 0) +
    (if Has(ret, VmonOvWarning) then PbVoltageOvWarning else 0) +
    (if Has(ret, VmonUvFault) then PbVoltageUvFault else 0) +
    (if Has(ret, VmonOvFault) then PbVoltageOvFault else 0)
  }

  /**
   * `zl6100_read_byte_data`, with `readByte` the byte `pmbus_read_byte_data`
   * returns for a page and register: VMON status comes from page 0's
   * MFR_SPECIFIC status, translated; everything else passes through.
   */
  function ReadByte(pages: nat, page: int, reg: Reg, readByte: (int, Reg) -> int): (r: int)
    ensures page >= pages ==> r == -ENXIO
    ensures page < pages && reg != V(StatusVmon) ==> r == readByte(page, reg)
    ensures page < pages && reg == V(StatusVmon) && readByte(0, Cmd(StatusMfrSpecific)) >= 0 ==>
              r == VmonStatus(readByte(0, Cmd(StatusMfrSpecific)))
  {
    if page >= pages then -ENXIO
    else if reg == V(StatusVmon) then
      var ret := readByte(0, Cmd(StatusMfrSpecific));
      if ret < 0 then ret else VmonStatus(ret)
    else readByte(page, reg)
  }

  // ---------------------------------------------------------------- probe

  /** `zl6100_id`, in table order. */
  const IdTable: seq<(string, Chip)> := [
    ("bmr450", Zl2005), ("bmr451", Zl2005), ("bmr462", Zl2008), ("bmr463", Zl2008),
    ("bmr464", Zl2008), ("bmr465", Zls4009), ("bmr466", Zls1003), ("bmr467", Zls4009),
    ("bmr469", Zl8802), ("zl2004", Zl2004), ("zl2005", Zl2005), ("zl2006", Zl2006),
    ("zl2008", Zl2008), ("zl2105", Zl2105), ("zl2106", Zl2106), ("zl6100", Zl6100),
    ("zl6105", Zl6105), ("zl8802", Zl8802), ("zl9101", Zl9101), ("zl9117", Zl9117),
    ("zls1003", Zls1003), ("zls4009", Zls4009)
  ]

  /** ASCII `tolower`. */
  function Lower(c: char): char
  {
    if 'A' <= c <= 'Z' then (c as int + 32) as char else c
  }

  /** `!strncasecmp(name, id, strlen(name))`: `name` is a prefix of `id`, ignoring ASCII case. */
  predicate CasePrefix(name: string, id: string)
  {
    |name| <= |id| && forall k :: 0 <= k < |name| ==> Lower(name[k]) == Lower(id[k])
  }

  /**
   * The match loop of `zl6100_probe`: the first table entry whose name is a
   * case-insensitive prefix of the device id read from the chip.
   */
  method MatchId(id: string) returns (r: Option<nat>)
    ensures r.Some? ==> r.value < |IdTable| && CasePrefix(IdTable[r.value].0, id)
    ensures r.Some? ==> forall j :: 0 <= j < r.value ==> !CasePrefix(IdTable[j].0, id)
    ensures r.None? ==> forall j :: 0 <= j < |IdTable| ==> !CasePrefix(IdTable[j].0, id)
  {
    var i := 0;
    while i < |IdTable|
      invariant i <= |IdTable|
      invariant forall j :: 0 <= j < i ==> !CasePrefix(IdTable[j].0, id)
    {
      if CasePrefix(IdTable[i].0, id) {
        return Some(i);
      }
      i := i + 1;
    }
    return None;
  }

  /** The chips that report an extra voltage as VMON: ZL2004, ZL8802, ZL9101M, ZL9117M and ZLS4009. */
  predicate HasVmon(chip: Chip)
  {
    chip == Zl2004 || chip == Zl8802 || chip == Zl9101 || chip == Zl9117 || chip == Zls4009
  }

  /** `info->pages`: two for the dual-output ZL8802, one otherwise. */
  function Pages(chip: Chip): (n: nat)
    ensures n == 2 <==> chip == Zl8802
    ensures 1 <= n <= 2
  {
    if chip == Zl8802 then 2 else 1
  }

  /** What probe settles before it reads the configuration registers: the chip, its pages, and VMON support. */
  datatype Identity = Identity(chip: Chip, pages: nat, vmon: bool)

  /**
   * The identification part of `zl6100_probe`: -ENODEV without SMBus word
   * and block reads, the error of a failed device-id read, -ENODEV for an
   * unknown id, -ENOMEM for a failed allocation.
   */
  method Identify(functional: bool, idStatus: int, id: string, allocOk: bool) returns (err: int, r: Option<Identity>)
    ensures !functional ==> err == -ENODEV && r.None?
    ensures functional && idStatus < 0 ==> err == idStatus && r.None?
    ensures functional && idStatus >= 0 && (forall j :: 0 <= j < |IdTable| ==> !CasePrefix(IdTable[j].0, id)) ==>
              (err == -ENODEV && r.None?)
    ensures functional && idStatus >= 0 && (exists j :: 0 <= j < |IdTable| && CasePrefix(IdTable[j].0, id)) ==>
              (if allocOk then err == 0 && r.Some? else err == -ENOMEM && r.None?)
    ensures r.Some? <==> err == 0
    ensures r.Some? ==>
              (functional && idStatus >= 0 && allocOk &&
               exists i :: 0 <= i < |IdTable| && CasePrefix(IdTable[i].0, id) && IdTable[i].1 == r.value.chip &&
                           (forall j :: 0 <= j < i ==> !CasePrefix(IdTable[j].0, id)))
    ensures r.Some? ==> r.value.pages == Pages(r.value.chip) && (r.value.vmon <==> HasVmon(r.value.chip))
  {
    if !functional {
      return -ENODEV, None;
    }
    if idStatus < 0 {
      return idStatus, None;
    }
    var mid := MatchId(id);
    if mid.None? {
      return -ENODEV, None;
    }
    if !allocOk {
      return -ENOMEM, None;
    }
    var chip := IdTable[mid.value].1;
    err, r := 0, Some(Identity(chip, Pages(chip), HasVmon(chip)));
  }

  /** The `PMBUS_HAVE_*` capabilities probe sets for a page. */
  datatype Func = HaveVin | HaveStatusInput | HaveVout | HaveStatusVout | HaveIout | HaveStatusIout | HaveTemp | HaveStatusTemp
                | HaveTemp2 | HaveTemp3 | HaveVmon | HaveStatusVmon | HaveIin

  const BaseFuncs: set<Func> := {HaveVin, HaveStatusInput, HaveVout, HaveStatusVout, HaveIout, HaveStatusIout, HaveTemp, HaveStatusTemp}

  const Zl6100MfrXtempEnable: nat := 0x80
  const Zl8802MfrTmonEnable: nat := 0x1000
  const Zl8802MfrXtempEnable2: nat := 0x02
  const Zl8802MfrPhasesMask: nat := 0x07

  /** The page count and per-page capabilities probe hands to the PMBus core, or the error it returns. */
  datatype Caps = CapsErr(err: int) | Caps(pages: nat, func0: set<Func>, func1: set<Func>)

  /**
   * The configuration part of `zl6100_probe`. The register reads are
   * inputs: `ddcConfig`, `globalConfig` and `mfrConfig` the words read from
   * ZL8802_MFR_DDC_CONFIG, ZL8802_MFR_USER_GLOBAL_CONFIG and
   * ZL6100_MFR_CONFIG, and for page i of the ZL8802 `pageStatus[i]` the
   * result of selecting it and `userConfig[i]` the word read from
   * ZL8802_MFR_USER_CONFIG there. A negative value is an error, returned
   * as it is.
   */
  method Capabilities(chip: Chip, ddcConfig: int, pageStatus: seq<int>, userConfig: seq<int>,
                      globalConfig: int, mfrConfig: int) returns (r: Caps)
    requires |pageStatus| == 2 && |userConfig| == 2
    ensures chip != Zl8802 && mfrConfig < 0 ==> r == CapsErr(mfrConfig)
    ensures chip == Zl8802 && ddcConfig < 0 ==> r == CapsErr(ddcConfig)
    ensures chip == Zl8802 && ddcConfig >= 0 && pageStatus[0] < 0 ==> r == CapsErr(pageStatus[0])
    ensures chip == Zl8802 && ddcConfig >= 0 && pageStatus[0] >= 0 && userConfig[0] < 0 ==> r == CapsErr(userConfig[0])
    ensures chip == Zl8802 && ddcConfig >= 0 && pageStatus[0] >= 0 && userConfig[0] >= 0 && pageStatus[1] < 0 ==>
              r == CapsErr(pageStatus[1])
    ensures chip == Zl8802 && ddcConfig >= 0 && pageStatus[0] >= 0 && userConfig[0] >= 0 && pageStatus[1] >= 0 &&
            userConfig[1] < 0 ==>
              r == CapsErr(userConfig[1])
    ensures chip == Zl8802 && ddcConfig >= 0 && (forall i :: 0 <= i < 2 ==> pageStatus[i] >= 0 && userConfig[i] >= 0) &&
            globalConfig < 0 ==>
              r == CapsErr(globalConfig)
    ensures (chip != Zl8802 ==> mfrConfig >= 0) &&
            (chip == Zl8802 ==> ddcConfig >= 0 && globalConfig >= 0 &&
                                (forall i :: 0 <= i < 2 ==> pageStatus[i] >= 0 && userConfig[i] >= 0)) ==>
              r.Caps?
    ensures r.CapsErr? ==> r.err < 0
    ensures r.Caps? ==> r.pages == Pages(chip)
    ensures r.Caps? ==> BaseFuncs <= r.func0 && (HaveVmon in r.func0 <==> HasVmon(chip)) &&
                        (HaveStatusVmon in r.func0 <==> HasVmon(chip)) && (HaveIin in r.func0 <==> chip == Zl8802)
    ensures r.Caps? && chip != Zl8802 ==>
              mfrConfig >= 0 && r.func1 == {} && HaveTemp3 !in r.func0 &&
              (HaveTemp2 in r.func0 <==> Has(mfrConfig, Zl6100MfrXtempEnable))
    ensures r.Caps? && chip == Zl8802 ==>
              ddcConfig >= 0 && globalConfig >= 0 &&
              (forall i :: 0 <= i < 2 ==> pageStatus[i] >= 0 && userConfig[i] >= 0) &&
              (HaveTemp2 in r.func0 <==> Has(userConfig[0], Zl8802MfrXtempEnable2)) &&
              (HaveTemp3 in r.func0 <==> Has(globalConfig, Zl8802MfrTmonEnable)) &&
              r.func1 == (if ddcConfig % (Zl8802MfrPhasesMask + 1) != 0 then {HaveIout, HaveStatusIout}
                          else {HaveVout, HaveStatusVout, HaveIout, HaveStatusIout}) +
                         (if Has(userConfig[1], Zl8802MfrXtempEnable2) then {HaveTemp2} else {})
  {
    var pages := 1;
    var func0 := BaseFuncs;
    var func1: set<Func> := {};
    if HasVmon(chip) {
      func0 := func0 + {HaveVmon, HaveStatusVmon};
    }
    if chip == Zl8802 {
      pages := 2;
      func0 := func0 + {HaveIin};
      if ddcConfig < 0 {
        return CapsErr(ddcConfig);
      }
      if ddcConfig % (Zl8802MfrPhasesMask + 1) != 0 {
        func1 := func1 + {HaveIout, HaveStatusIout};
      } else {
        func1 := {HaveVout, HaveStatusVout, HaveIout, HaveStatusIout};
      }
      var i := 0;
      while i < 2
        invariant 0 <= i <= 2
        invariant forall j :: 0 <= j < i ==> pageStatus[j] >= 0 && userConfig[j] >= 0
        invariant HaveVmon in func0 <==> HasVmon(chip)
        invariant HaveStatusVmon in func0 <==> HasVmon(chip)
        invariant BaseFuncs + {HaveIin} <= func0 && HaveTemp3 !in func0
        invariant HaveTemp2 in func0 <==> 0 < i && Has(userConfig[0], Zl8802MfrXtempEnable2)
        invariant func1 == (if ddcConfig % (Zl8802MfrPhasesMask + 1) != 0 then {HaveIout, HaveStatusIout}
                            else {HaveVout, HaveStatusVout, HaveIout, HaveStatusIout}) +
                           (if 1 < i && Has(userConfig[1], Zl8802MfrXtempEnable2) then {HaveTemp2} else {})
      {
        if pageStatus[i] < 0 {
          return CapsErr(pageStatus[i]);
        }
        if userConfig[i] < 0 {
          return CapsErr(userConfig[i]);
        }
        if Has(userConfig[i], Zl8802MfrXtempEnable2) {
          if i == 0 {
            func0 := func0 + {HaveTemp2};
          } else {
            func1 := func1 + {HaveTemp2};
          }
        }
        i := i + 1;
      }
      if globalConfig < 0 {
        return CapsErr(globalConfig);
      }
      if Has(globalConfig, Zl8802MfrTmonEnable) {
        func0 := func0 + {HaveTemp3};
      }
    } else {
      if mfrConfig < 0 {
        return CapsErr(mfrConfig);
      }
      if Has(mfrConfig, Zl6100MfrXtempEnable) {
        func0 := func0 + {HaveTemp2};
      }
    }
    r := Caps(pages, func0, func1);
  }
}
