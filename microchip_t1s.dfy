/**
 * The Microchip 10BASE-T1S PHY driver (LAN8670/1/2 Rev.B1/C1/C2 and the
 * LAN8650/1 Rev.B0/B1 internal PHY): the configuration sequences that
 * config_init writes over MDIO, the calibration offsets and configuration
 * parameters computed from what it reads back, the reset check, the
 * collision-detect toggle after a PLCA change, and the fixed link status.
 *
 * The MDIO bus is an oracle: the k-th access of a PHY (counting from its
 * creation) returns `readValue(k)` if it is a read, and `-writeError(k)`
 * if it writes (0 for success, a negative errno otherwise). Every access
 * the driver makes is appended to a trace.
 */
module MicrochipT1s {
  import opened Errno
  import Bits

  // ---------------------------------------------------------------- bus accesses

  /** One MDIO access to the vendor-specific MMD (MDIO_MMD_VEND2). */
  datatype Access = Read(reg: nat) | Write(reg: nat, value: nat) | Modify(reg: nat, mask: nat, bits: nat)

  /** What the k-th access returns. */
  function Result(readValue: nat -> int, writeError: nat -> nat, k: nat, a: Access): int
  {
    if a.Read? then readValue(k) else -(writeError(k) as int)
  }

  /** Whether the driver stops at this access: a negative read, or a nonzero write status. */
  predicate Fails(a: Access, r: int)
  {
    if a.Read? then r < 0 else r != 0
  }

  predicate Succeeds(readValue: nat -> int, writeError: nat -> nat, k: nat, a: Access)
  {
    !Fails(a, Result(readValue, writeError, k, a))
  }

  /**
   * Running `plan[i..]` when `plan[0]` is the bus's `base`-th access: how
   * many of `plan`'s accesses have been made when it stops at the first
   * failing one (all of them if none fails).
   */
  function StopFrom(readValue: nat -> int, writeError: nat -> nat, base: nat, plan: seq<Access>, i: nat): (n: nat)
    requires i <= |plan|
    ensures i <= n <= |plan|
    decreases |plan| - i
  {
    if i == |plan| then |plan|
    else if Fails(plan[i], Result(readValue, writeError, base + i, plan[i])) then i + 1
    else StopFrom(readValue, writeError, base, plan, i + 1)
  }

  /** What a run that has made `n` accesses returns: the last one's result if it failed, and 0 otherwise. */
  function Ret(readValue: nat -> int, writeError: nat -> nat, base: nat, plan: seq<Access>, n: nat): int
    requires n <= |plan|
  {
    if n > 0 && Fails(plan[n - 1], Result(readValue, writeError, base + n - 1, plan[n - 1]))
    then Result(readValue, writeError, base + n - 1, plan[n - 1])
    else 0
  }

  /**
   * A run stops at the first failing access: it returns 0 exactly when
   * every access succeeds, and otherwise the result of the last access it
   * made, which failed, all those before it having succeeded.
   */
  lemma {:induction false} StopFromMeaning(readValue: nat -> int, writeError: nat -> nat, base: nat,
                                           plan: seq<Access>, i: nat)
    requires i <= |plan| && (i == 0 || Succeeds(readValue, writeError, base + i - 1, plan[i - 1]))
    ensures var n := StopFrom(readValue, writeError, base, plan, i);
            var r := Ret(readValue, writeError, base, plan, n);
            (r == 0 <==>
               n == |plan| && forall k :: i <= k < |plan| ==> Succeeds(readValue, writeError, base + k, plan[k])) &&
            (r != 0 ==>
               i < n && Fails(plan[n - 1], r) &&
               forall k :: i <= k < n - 1 ==> Succeeds(readValue, writeError, base + k, plan[k]))
    decreases |plan| - i
  {
    if i < |plan| {
      var x := Result(readValue, writeError, base + i, plan[i]);
      if Fails(plan[i], x) {
        assert StopFrom(readValue, writeError, base, plan, i) == i + 1;
        assert Ret(readValue, writeError, base, plan, i + 1) == x != 0;
        assert !Succeeds(readValue, writeError, base + i, plan[i]);
      } else {
        StopFromMeaning(readValue, writeError, base, plan, i + 1);
      }
    }
  }

  /** `tr` is `t0` followed by the accesses `plan` makes before it stops, and `ret` is what it returns. */
  ghost predicate Traced(readValue: nat -> int, writeError: nat -> nat, t0: seq<Access>, plan: seq<Access>,
                         tr: seq<Access>, ret: int)
  {
    var n := StopFrom(readValue, writeError, |t0|, plan, 0);
    tr == t0 + plan[..n] && ret == Ret(readValue, writeError, |t0|, plan, n)
  }

  /**
   * Part way through `plan`: its first `pos` accesses, all successful, were
   * appended to `t0`, so the run of the whole plan stops where the run
   * from `pos` on does.
   */
  ghost predicate Along(readValue: nat -> int, writeError: nat -> nat, t0: seq<Access>, plan: seq<Access>,
                        pos: nat, tr: seq<Access>)
  {
    pos <= |plan| && tr == t0 + plan[..pos] &&
    StopFrom(readValue, writeError, |t0|, plan, 0) == StopFrom(readValue, writeError, |t0|, plan, pos) &&
    Ret(readValue, writeError, |t0|, plan, pos) == 0
  }

  /** One access of a plan, made at its place `i`: the run stops there if it fails and goes on otherwise. */
  lemma Step(readValue: nat -> int, writeError: nat -> nat, t0: seq<Access>, plan: seq<Access>, i: nat,
             tr: seq<Access>, ret: int)
    requires i < |plan| && Along(readValue, writeError, t0, plan, i, tr)
    requires ret == Result(readValue, writeError, |t0| + i, plan[i])
    ensures Fails(plan[i], ret) ==> Traced(readValue, writeError, t0, plan, tr + [plan[i]], ret)
    ensures !Fails(plan[i], ret) ==> Along(readValue, writeError, t0, plan, i + 1, tr + [plan[i]])
  {
    assert plan[..i + 1] == plan[..i] + [plan[i]];
  }

  /** A plan followed to its end has made all its accesses and returns 0. */
  lemma Finish(readValue: nat -> int, writeError: nat -> nat, t0: seq<Access>, plan: seq<Access>, tr: seq<Access>)
    requires Along(readValue, writeError, t0, plan, |plan|, tr)
    ensures Traced(readValue, writeError, t0, plan, tr, 0)
  {
  }

  /** `q` is the part of `plan` that starts at `pos`. */
  ghost predicate Within(plan: seq<Access>, pos: nat, q: seq<Access>)
  {
    pos + |q| <= |plan| && plan[pos..pos + |q|] == q
  }

  lemma WithinSplit(plan: seq<Access>, pos: nat, a: seq<Access>, b: seq<Access>)
    requires Within(plan, pos, a + b)
    ensures Within(plan, pos, a) && Within(plan, pos + |a|, b)
  {
    assert plan[pos..pos + |a|] == (a + b)[..|a|];
    assert plan[pos + |a|..pos + |a| + |b|] == (a + b)[|a|..];
  }

  lemma WithinPrefix(plan: seq<Access>, pos: nat, a: seq<Access>, b: seq<Access>)
    requires Within(plan, pos, b) && a <= b
    ensures Within(plan, pos, a)
  {
    assert plan[pos..pos + |a|] == b[..|a|];
  }

  lemma WithinAt(plan: seq<Access>, pos: nat, q: seq<Access>, k: nat)
    requires Within(plan, pos, q) && k < |q|
    ensures plan[pos + k] == q[k]
  {
    assert plan[pos..pos + |q|][k] == plan[pos + k];
  }

  /** The fixed link report of `lan86xx_read_status`. */
  datatype Duplex = Half | Full | UnknownDuplex
  datatype LinkStatus = LinkStatus(link: int, duplex: Duplex, speed: int, autoneg: bool)

  const Speed10: int := 10

  // ---------------------------------------------------------------- registers and tables

  const Lan867xRegSts2: nat := 0x0019
  const Lan867xResetCompleteSts: nat := 0x800
  const CfgparamAddr: nat := 0x00D8
  const CfgparamData: nat := 0x00D9
  const CfgparamCtrl: nat := 0x00DA
  const CfgparamReadEnable: nat := 0x02
  const ColDetCtrl0: nat := 0x0087
  const ColDetEnableBitMask: nat := 0x8000
  const ColDetEnable: nat := 0x8000
  const ColDetDisable: nat := 0x0000

  const RevB1FixupRegs: seq<nat> := [0x00D0, 0x00D1, 0x0084, 0x0085, 0x008A, 0x0087, 0x0088, 0x008B,
                                     0x0080, 0x00F1, 0x0096, 0x0099]
  const RevB1FixupValues: seq<nat> := [0x0002, 0x0000, 0x3380, 0x0006, 0xC000, 0x801C, 0x033F, 0x0404,
                                       0x0600, 0x2400, 0x2000, 0x7F80]
  const RevB1FixupMasks: seq<nat> := [0x0E03, 0x0300, 0xFFC0, 0x000F, 0xF800, 0x801C, 0x1FFF, 0xFFFF,
                                      0x0600, 0x7F00, 0x2000, 0xFFFF]

  const RevBFixupRegs: seq<nat> := [0x00D0, 0x00E0, 0x00E9, 0x00F5, 0x00F4, 0x00F8, 0x00F9, 0x0081,
                                    0x0091, 0x0043, 0x0044, 0x0045, 0x0053, 0x0054, 0x0055, 0x0040,
                                    0x0050]
  const RevBFixupValues: seq<nat> := [0x3F31, 0xC000, 0x9E50, 0x1CF8, 0xC020, 0xB900, 0x4E53, 0x0080,
                                      0x9660, 0x00FF, 0xFFFF, 0x0000, 0x00FF, 0xFFFF, 0x0000, 0x0002,
                                      0x0002]
  const RevBFixupCfgRegs: seq<nat> := [0x0084, 0x008A]
  const RevBSqiFixupRegs: seq<nat> := [0x00B0, 0x00B1, 0x00B2, 0x00B3, 0x00B4, 0x00B5, 0x00B6, 0x00B7,
                                       0x00B8, 0x00B9, 0x00BA, 0x00BB]
  const RevBSqiFixupValues: seq<nat> := [0x0103, 0x0910, 0x1D26, 0x002A, 0x0103, 0x070D, 0x1720, 0x0027,
                                         0x0509, 0x0E13, 0x1C25, 0x002B]
  const RevBSqiFixupCfgRegs: seq<nat> := [0x00AD, 0x00AE, 0x00AF]

  /** The calibration addresses read indirectly for offsets 1 and 2. */
  const OffsetAddrs: seq<nat> := [0x0004, 0x0008]

  // ---------------------------------------------------------------- values computed from reads

  /** `ret & GENMASK(4, 0)`, sign-extended from bit 4 into an `s8`. */
  function Offset(v: int): (o: int)
    ensures -16 <= o <= 15
    ensures (o - v) % 32 == 0
    ensures o < 0 <==> v % 32 >= 16
  {
    var low := v % 32;
    if low >= 16 then low - 32 else low
  }

  /** `offsets[0]` and `offsets[1]` as the two configuration words place them. */
  function Cfg0(o0: int): (w: nat)
  {
    ((9 + o0) % 64) * 0x400 + ((14 + o0) % 64) * 0x10 + 0x03
  }

  function Cfg1(o1: int): (w: nat)
  {
    ((40 + o1) % 64) * 0x400
  }

  /** The words are the `FIELD_PREP`s of the source: each sum truncated into its six-bit field. */
  lemma CfgFieldPrep(o0: int, o1: int)
    ensures Cfg0(o0) == Bits.Encode(9 + o0, Bits.Field(10, 6)) + Bits.Encode(14 + o0, Bits.Field(4, 6)) + 0x03
    ensures Cfg1(o1) == Bits.Encode(40 + o1, Bits.Field(10, 6))
  {
    Bits.Pow2Small();
    Bits.Pow2Add(4, 6);
  }

  /** Both configuration words fit in 16 bits, and each field holds its sum modulo 64. */
  lemma CfgFields(o0: int, o1: int)
    ensures Cfg0(o0) < 0x1_0000 && Cfg1(o1) < 0x1_0000
    ensures Bits.Get(Cfg0(o0), Bits.Field(10, 6)) == (9 + o0) % 64
    ensures Bits.Get(Cfg0(o0), Bits.Field(4, 6)) == (14 + o0) % 64
    ensures Cfg0(o0) % 0x10 == 0x03
    ensures Bits.Get(Cfg1(o1), Bits.Field(10, 6)) == (40 + o1) % 64 && Cfg1(o1) % 0x400 == 0
  {
    Bits.Pow2Small();
    Bits.Pow2Add(4, 6);
    var a, b, c := (9 + o0) % 64, (14 + o0) % 64, (40 + o1) % 64;
    assert Cfg0(o0) == a * 0x400 + (b * 0x10 + 3);
    assert Cfg0(o0) == (a * 64 + b) * 0x10 + 3;
    assert Cfg1(o1) == c * 0x400 + 0;
    Bits.DivAdd(a, 0x400, b * 0x10 + 3);
    Bits.DivAdd(a * 64 + b, 0x10, 3);
    Bits.ModAddMultiple(b, a, 64);
    Bits.DivAdd(c, 0x400, 0);
  }

  /**
   * An SQI configuration word as `lan865x_setup_sqi_cfgparam` builds it:
   * `hi` placed in bits 13:8, ORed with `lo` unmasked, the `int` result
   * truncated to `u16`.
   */
  function SqiWord(hi: int, lo: int): (w: nat)
  {
    Bits.Or((hi % 64) * 0x100, lo % 0x1_0000, 16)
  }

  function SqiWords(o0: int): seq<nat>
  {
    [SqiWord(5 + o0, 9 + o0), SqiWord(9 + o0, 14 + o0), SqiWord(17 + o0, 22 + o0)]
  }

  /**
   * While the low addend is between 0 and 255 it lands in bits 7:0 beside
   * the field: for offsets from -9 up every word has `hi` in bits 13:8 and
   * `lo` below.
   */
  lemma SqiFieldsSeparate(hi: int, lo: int)
    requires 0 <= lo < 0x100
    ensures SqiWord(hi, lo) == Bits.Encode(hi, Bits.Field(8, 6)) + lo
    ensures SqiWord(hi, lo) % 0x100 == lo && SqiWord(hi, lo) / 0x100 == hi % 64
  {
    Bits.Pow2Small();
    Bits.Pow2Add(8, 6);
    Bits.Pow2Add(14, 2);
    var a := hi % 64;
    assert Bits.Encode(hi, Bits.Field(8, 6)) == a * Bits.Pow2(8);
    assert a * Bits.Pow2(8) < Bits.Pow2(16);
    Bits.OrDisjoint(a, lo, 8, 16);
    Bits.DivAdd(a, 0x100, lo);
  }

  lemma SqiWordsSeparate(o0: int)
    requires -9 <= o0 <= 15
    ensures forall k :: 0 <= k < 3 ==> SqiWords(o0)[k] % 0x100 == [9 + o0, 14 + o0, 22 + o0][k]
    ensures forall k :: 0 <= k < 3 ==> SqiWords(o0)[k] / 0x100 == [(5 + o0) % 64, (9 + o0) % 64, (17 + o0) % 64][k]
  {
    SqiFieldsSeparate(5 + o0, 9 + o0);
    SqiFieldsSeparate(9 + o0, 14 + o0);
    SqiFieldsSeparate(17 + o0, 22 + o0);
  }

  /** Below -9 the negative low addend sets every bit, whatever the field held: offset -10 gives 0xFFFF. */
  lemma SqiNegativeFloods()
    ensures SqiWords(-10)[0] == 0xFFFF
  {
    Bits.Pow2Small();
    Bits.OrOnes(Bits.Encode(-5, Bits.Field(8, 6)), 16);
  }

  // ---------------------------------------------------------------- access plans

  /** `lan865x_revb_indirect_read`: select the address, request the read, read the data. */
  function IndirectPlan(addr: nat): seq<Access>
  {
    [Write(CfgparamAddr, addr), Write(CfgparamCtrl, CfgparamReadEnable), Read(CfgparamData)]
  }

  /** `lan865x_generate_cfg_offsets`: two indirect reads. */
  function OffsetPlan(): seq<Access>
  {
    IndirectPlan(OffsetAddrs[0]) + IndirectPlan(OffsetAddrs[1])
  }

  /** The offsets the plan yields when it runs from the bus's `base`-th access. */
  function Offsets(readValue: nat -> int, base: nat): seq<int>
  {
    [Offset(readValue(base + 2)), Offset(readValue(base + 5))]
  }

  /** The `i`-th indirect read of the offset plan, and the offset it yields. */
  lemma OffsetPlanAt(readValue: nat -> int, plan: seq<Access>, pos: nat, base: nat, i: nat)
    requires i < 2 && Within(plan, pos, OffsetPlan())
    ensures Within(plan, pos + 3 * i, IndirectPlan(OffsetAddrs[i]))
    ensures Offsets(readValue, base)[i] == Offset(readValue(base + 3 * i + 2))
  {
    WithinSplit(plan, pos, IndirectPlan(OffsetAddrs[0]), IndirectPlan(OffsetAddrs[1]));
  }

  function Reads(regs: seq<nat>): (p: seq<Access>)
    ensures |p| == |regs| && forall k :: 0 <= k < |regs| ==> p[k] == Read(regs[k])
  {
    seq(|regs|, k requires 0 <= k < |regs| => Read(regs[k]))
  }

  function Writes(regs: seq<nat>, values: seq<nat>): (p: seq<Access>)
    requires |regs| == |values|
    ensures |p| == |regs| && forall k :: 0 <= k < |regs| ==> p[k] == Write(regs[k], values[k])
  {
    seq(|regs|, k requires 0 <= k < |regs| => Write(regs[k], values[k]))
  }

  function Modifies(regs: seq<nat>, masks: seq<nat>, values: seq<nat>): (p: seq<Access>)
    requires |regs| == |masks| == |values|
    ensures |p| == |regs| && forall k :: 0 <= k < |regs| ==> p[k] == Modify(regs[k], masks[k], values[k])
  {
    seq(|regs|, k requires 0 <= k < |regs| => Modify(regs[k], masks[k], values[k]))
  }

  /** The two words `lan865x_setup_cfgparam` computes from the offsets. */
  function CfgWords(offsets: seq<int>): seq<nat>
    requires |offsets| == 2
  {
    [Cfg0(offsets[0]), Cfg1(offsets[1])]
  }

  /** `lan865x_setup_cfgparam`: read both registers, write both computed words. */
  function CfgPlan(words: seq<nat>): seq<Access>
    requires |words| == 2
  {
    Reads(RevBFixupCfgRegs) + Writes(RevBFixupCfgRegs, words)
  }

  /** `lan865x_setup_sqi_cfgparam`: read the three registers, write the three SQI words. */
  function SqiPlan(words: seq<nat>): seq<Access>
    requires |words| == 3
  {
    Reads(RevBSqiFixupCfgRegs) + Writes(RevBSqiFixupCfgRegs, words)
  }

  /**
   * The first `n` iterations of the fixup loop: one write each, with the
   * accesses `cfg` of the cfgparam setup after index 1.
   */
  function FixupPlan(n: nat, regs: seq<nat>, values: seq<nat>, cfg: seq<Access>): (p: seq<Access>)
    requires n <= |regs| == |values|
    ensures |p| == n + (if n >= 2 then |cfg| else 0)
  {
    if n == 0 then []
    else FixupPlan(n - 1, regs, values, cfg) + [Write(regs[n - 1], values[n - 1])] +
         (if n - 1 == 1 then cfg else [])
  }

  function SqiFixupPlan(): seq<Access>
  {
    Writes(RevBSqiFixupRegs, RevBSqiFixupValues)
  }

  /** What follows the offset reads in both Rev.B and Rev.C configuration: `n` fixups, then the SQI part. */
  function ConfigPlan(n: nat, offsets: seq<int>): seq<Access>
    requires n <= 17 && |offsets| == 2
  {
    FixupPlan(n, RevBFixupRegs, RevBFixupValues, CfgPlan(CfgWords(offsets))) + SqiPlan(SqiWords(offsets[0])) + SqiFixupPlan()
  }

  /** The accesses of `lan865x_revb_config_init` started as the bus's `base`-th access. */
  function RevBPlan(readValue: nat -> int, base: nat): seq<Access>
  {
    OffsetPlan() + ConfigPlan(17, Offsets(readValue, base))
  }

  /** The accesses of `lan867x_revc_config_init` after its reset check. */
  function RevCPlan(readValue: nat -> int, base: nat): seq<Access>
  {
    OffsetPlan() + ConfigPlan(9, Offsets(readValue, base))
  }

  function RevB1Plan(): seq<Access>
  {
    Modifies(RevB1FixupRegs, RevB1FixupMasks, RevB1FixupValues)
  }

  /**
   * The fixup loop writes the table in order and runs the cfgparam setup
   * right after the write of index 1.
   */
  lemma {:induction false} FixupPlanOrder(n: nat, regs: seq<nat>, values: seq<nat>, cfg: seq<Access>)
    requires 2 <= n <= |regs| == |values|
    ensures forall k :: 0 <= k < 2 ==> FixupPlan(n, regs, values, cfg)[k] == Write(regs[k], values[k])
    ensures FixupPlan(n, regs, values, cfg)[2..2 + |cfg|] == cfg
    ensures forall k :: 2 <= k < n ==> FixupPlan(n, regs, values, cfg)[k + |cfg|] == Write(regs[k], values[k])
  {
    if n > 2 {
      FixupPlanOrder(n - 1, regs, values, cfg);
      var p := FixupPlan(n - 1, regs, values, cfg);
      assert FixupPlan(n, regs, values, cfg) == p + [Write(regs[n - 1], values[n - 1])];
    } else {
      assert FixupPlan(1, regs, values, cfg) == [Write(regs[0], values[0])];
    }
  }

  /** Rev.C's fixups are the first nine of Rev.B's, in the same order and around the same cfgparam setup. */
  lemma {:induction false} FixupPlanPrefix(m: nat, n: nat, regs: seq<nat>, values: seq<nat>, cfg: seq<Access>)
    requires m <= n <= |regs| == |values|
    ensures FixupPlan(m, regs, values, cfg) <= FixupPlan(n, regs, values, cfg)
    decreases n - m
  {
    if m < n {
      FixupPlanPrefix(m, n - 1, regs, values, cfg);
    }
  }

  /** Where iteration `i` of the fixup loop sits in a plan holding the first `n` fixups. */
  lemma FixupPlanNext(i: nat, n: nat, regs: seq<nat>, values: seq<nat>, cfg: seq<Access>, plan: seq<Access>,
                      pos: nat, q: nat)
    requires i < n <= |regs| == |values| && Within(plan, pos, FixupPlan(n, regs, values, cfg))
    requires q == pos + i + (if i >= 2 then |cfg| else 0)
    ensures q < |plan| && plan[q] == Write(regs[i], values[i]) && (i == 1 ==> Within(plan, q + 1, cfg))
  {
    FixupPlanPrefix(i + 1, n, regs, values, cfg);
    WithinPrefix(plan, pos, FixupPlan(i + 1, regs, values, cfg), FixupPlan(n, regs, values, cfg));
    FixupPlanSucc(i, regs, values, cfg);
    StepAt(plan, pos, FixupPlan(i, regs, values, cfg), Write(regs[i], values[i]), if i == 1 then cfg else [], q);
  }

  /** The access `w` after a part `a` of a plan sits at `pos + |a|`, and what follows it right after. */
  lemma StepAt(plan: seq<Access>, pos: nat, a: seq<Access>, w: Access, x: seq<Access>, q: nat)
    requires Within(plan, pos, a + ([w] + x)) && q == pos + |a|
    ensures q < |plan| && plan[q] == w && Within(plan, q + 1, x)
  {
    WithinSplit(plan, pos, a, [w] + x);
    WithinAt(plan, q, [w] + x, 0);
    WithinSplit(plan, q, [w], x);
  }

  lemma FixupPlanSucc(i: nat, regs: seq<nat>, values: seq<nat>, cfg: seq<Access>)
    requires i < |regs| == |values|
    ensures FixupPlan(i + 1, regs, values, cfg) ==
              FixupPlan(i, regs, values, cfg) + ([Write(regs[i], values[i])] + (if i == 1 then cfg else []))
  {
    var w := [Write(regs[i], values[i])];
    var x := if i == 1 then cfg else [];
    assert FixupPlan(i + 1, regs, values, cfg) == FixupPlan(i, regs, values, cfg) + w + x;
  }

  /** The three consecutive parts `a`, `b`, `c` of a plan and where each starts. */
  lemma Within3(plan: seq<Access>, pos: nat, a: seq<Access>, b: seq<Access>, c: seq<Access>)
    requires Within(plan, pos, a + b + c)
    ensures Within(plan, pos, a) && Within(plan, pos + |a|, b) && Within(plan, pos + |a| + |b|, c)
  {
    WithinSplit(plan, pos, a + b, c);
    WithinSplit(plan, pos, a, b);
  }

  /** Where the offset reads and the configuration sit in a Rev.B or Rev.C plan. */
  lemma InitLayout(plan: seq<Access>, a: seq<Access>, b: seq<Access>)
    requires plan == a + b
    ensures Within(plan, 0, a) && Within(plan, |a|, b) && |plan| == |a| + |b|
  {
    assert plan[0..|plan|] == plan;
    WithinSplit(plan, 0, a, b);
  }

  // ---------------------------------------------------------------- reset check and PLCA

  /** Bit 11 of STS2, RESET_COMPLETE_STS. */
  predicate ResetComplete(v: int)
  {
    (v / Lan867xResetCompleteSts) % 2 == 1
  }

  /**
   * `lan867x_check_reset_complete` on the STS2 values read at the bus's
   * `base`-th access and after: how many reads it makes and what it returns.
   */
  function ResetCheck(readValue: nat -> int, base: nat): (r: (nat, int))
  {
    var v := readValue(base);
    if v < 0 then (1, v)
    else if ResetComplete(v) then (1, 0)
    else
      var w := readValue(base + 1);
      if w < 0 then (2, w)
      else if ResetComplete(w) then (2, 0)
      else (2, -ENODEV)
  }

  /**
   * The reset check reads STS2 once or twice, the second time exactly when
   * the first read succeeded with bit 11 clear; it returns 0 exactly when a
   * successful read shows bit 11 set, `-ENODEV` when both show it clear,
   * and otherwise the failing read's error.
   */
  lemma ResetCheckMeaning(readValue: nat -> int, base: nat)
    ensures var r := ResetCheck(readValue, base);
            var v, w := readValue(base), readValue(base + 1);
            (r.0 == 1 || r.0 == 2) && r.1 <= 0 &&
            (r.0 == 2 <==> v >= 0 && !ResetComplete(v)) &&
            (r.1 == 0 <==> (v >= 0 && ResetComplete(v)) || (v >= 0 && !ResetComplete(v) && w >= 0 && ResetComplete(w))) &&
            (v >= 0 && !ResetComplete(v) && w >= 0 && !ResetComplete(w) ==> r.1 == -ENODEV) &&
            (r.1 < 0 && r.1 != -ENODEV ==> r.1 == (if r.0 == 1 then v else w))
  {
  }

  function ResetPlan(n: nat): seq<Access>
  {
    if n == 1 then [Read(Lan867xRegSts2)] else [Read(Lan867xRegSts2), Read(Lan867xRegSts2)]
  }

  /**
   * COL_DET_CTRL0 after `lan86xx_plca_set_cfg`'s read-modify-write of
   * `prev`: bit 15 cleared when PLCA is enabled and set when it is disabled,
   * every other bit kept.
   */
  function ColDetAfter(prev: nat, enabled: bool): (r: nat)
    ensures (r / 0x8000) % 2 == (if enabled then 0 else 1)
    ensures r % 0x8000 == prev % 0x8000 && r / 0x1_0000 == prev / 0x1_0000
  {
    var bits := if enabled then ColDetDisable else ColDetEnable;
    Bits.DivAdd(prev / 0x1_0000 * 2 + bits / 0x8000, 0x8000, prev % 0x8000);
    Bits.DivAdd(prev / 0x1_0000, 2, bits / 0x8000);
    Bits.DivAdd(prev / 0x1_0000, 0x1_0000, bits + prev % 0x8000);
    prev / 0x1_0000 * 0x1_0000 + bits + prev % 0x8000
  }

  /**
   * The value `phy_modify_mmd` writes back: `(prev & ~mask) | bits` on the
   * low `n` bits, with the bits from `n` up kept from `prev`.
   */
  function MaskWrite(prev: nat, mask: nat, bits: nat, n: nat): nat
  {
    if n == 0 then prev
    else 2 * MaskWrite(prev / 2, mask / 2, bits / 2, n - 1) +
         (if (prev % 2 == 1 && mask % 2 == 0) || bits % 2 == 1 then 1 else 0)
  }

  /** A read-modify-write with no mask and nothing to set keeps the value. */
  lemma {:induction false} MaskWriteNone(x: nat, n: nat)
    ensures MaskWrite(x, 0, 0, n) == x
  {
    if n > 0 {
      MaskWriteNone(x / 2, n - 1);
    }
  }

  lemma ModTwoStep(x: nat, p: nat)
    requires p > 0
    ensures 2 * ((x / 2) % p) + x % 2 == x % (2 * p)
  {
    var q := (x / 2) / p;
    assert x / 2 == q * p + (x / 2) % p;
    assert x == q * (2 * p) + (2 * ((x / 2) % p) + x % 2);
    Bits.DivModUnique(x, 2 * p, q, 2 * ((x / 2) % p) + x % 2);
  }

  /** Masking bit `k` and setting it to `b` replaces bit `k` of `prev` by `b` and keeps the others. */
  lemma {:induction false} MaskWriteBit(prev: nat, k: nat, b: nat, n: nat)
    requires b < 2 && k < n
    ensures MaskWrite(prev, Bits.Pow2(k), b * Bits.Pow2(k), n) ==
            prev / Bits.Pow2(k + 1) * Bits.Pow2(k + 1) + b * Bits.Pow2(k) + prev % Bits.Pow2(k)
  {
    if k == 0 {
      assert Bits.Pow2(0) == 1 && Bits.Pow2(1) == 2;
      MaskWriteLowBit(prev, b, n);
    } else {
      var p, a := Bits.Pow2(k - 1), Bits.Pow2(k);
      assert a == 2 * p && Bits.Pow2(k + 1) == 2 * a;
      MaskWriteBit(prev / 2, k - 1, b, n - 1);
      MaskWriteBitStep(prev, p, a, Bits.Pow2(k + 1), b, n);
    }
  }

  /** `MaskWriteBit` for bit 0. */
  lemma MaskWriteLowBit(prev: nat, b: nat, n: nat)
    requires b < 2 && n > 0
    ensures MaskWrite(prev, 1, b, n) == prev / 2 * 2 + b
  {
    MaskWriteNone(prev / 2, n - 1);
    assert MaskWrite(prev, 1, b, n) == 2 * MaskWrite(prev / 2, 0, 0, n - 1) + b;
  }

  /** `MaskWriteBit`'s inductive step, with `a == 2 * p` and `c == 2 * a` standing for the powers of two. */
  lemma MaskWriteBitStep(prev: nat, p: nat, a: nat, c: nat, b: nat, n: nat)
    requires p > 0 && a == 2 * p && c == 2 * a && b < 2 && n > 0
    requires MaskWrite(prev / 2, p, b * p, n - 1) == prev / 2 / a * a + b * p + prev / 2 % p
    ensures MaskWrite(prev, a, b * a, n) == prev / c * c + b * a + prev % a
  {
    MaskWriteUnfold(prev, p, a, b, n);
    BitStepArith(prev, p, a, c, b, MaskWrite(prev / 2, p, b * p, n - 1));
  }

  /** One step of `MaskWrite` with an even mask and an even set value. */
  lemma MaskWriteUnfold(prev: nat, p: nat, a: nat, b: nat, n: nat)
    requires a == 2 * p && b < 2 && n > 0
    ensures MaskWrite(prev, a, b * a, n) == 2 * MaskWrite(prev / 2, p, b * p, n - 1) + prev % 2
  {
    HalfEven(p);
    HalfEven(b * p);
    assert b * a == 2 * (b * p);
  }

  /** The arithmetic that lifts bit `k - 1` of `prev / 2` to bit `k` of `prev`. */
  lemma BitStepArith(prev: nat, p: nat, a: nat, c: nat, b: nat, m: nat)
    requires p > 0 && a == 2 * p && c == 2 * a
    requires m == prev / 2 / a * a + b * p + prev / 2 % p
    ensures 2 * m + prev % 2 == prev / c * c + b * a + prev % a
  {
    var q := prev / (2 * a);
    Bits.DivDiv(prev, 2, a);
    assert prev / 2 / a == q;
    ModTwoStep(prev, p);
    var r := prev / 2 % p;
    assert 2 * r + prev % 2 == prev % a;
    assert m == q * a + b * p + r;
    Twice(q, a);
    assert b * a == 2 * (b * p);
    Doubled(m, q * a, q * (2 * a), b * p, b * a, r, prev % 2);
  }

  lemma Twice(q: int, a: int)
    ensures q * (2 * a) == 2 * (q * a)
  {
  }

  lemma Doubled(m: int, qa: int, qa2: int, bp: int, ba: int, r: int, t: int)
    requires m == qa + bp + r && qa2 == 2 * qa && ba == 2 * bp
    ensures 2 * m + t == qa2 + ba + (2 * r + t)
  {
  }

  lemma HalfEven(x: nat)
    ensures (2 * x) / 2 == x && (2 * x) % 2 == 0
  {
  }

  /** `lan86xx_plca_set_cfg`'s read-modify-write of COL_DET_CTRL0 (mask BIT(15), set 0 or BIT(15)) leaves `ColDetAfter`. */
  lemma ColDetModify(prev: nat, enabled: bool)
    ensures MaskWrite(prev, ColDetEnableBitMask, if enabled then ColDetDisable else ColDetEnable, 16) ==
            ColDetAfter(prev, enabled)
  {
    Bits.Pow2Small();
    assert Bits.Pow2(16) == 2 * Bits.Pow2(15);
    MaskWriteBit(prev, 15, if enabled then 0 else 1, 16);
  }

  // ---------------------------------------------------------------- the PHY

  class Phy {
    var trace: seq<Access>
    var status: LinkStatus
    const readValue: nat -> int
    const writeError: nat -> nat

    constructor(readValue: nat -> int, writeError: nat -> nat, status: LinkStatus)
      ensures trace == [] && this.status == status
      ensures this.readValue == readValue && this.writeError == writeError
    {
      trace := [];
      this.status := status;
      this.readValue := readValue;
      this.writeError := writeError;
    }

    /** Part way through `plan`, at `pos`, with every access so far successful. */
    ghost predicate At(t0: seq<Access>, plan: seq<Access>, pos: nat)
      reads this
    {
      Along(readValue, writeError, t0, plan, pos, trace)
    }

    /** The accesses of `plan` up to where it stops were appended to `t0`, and `ret` is what it returns. */
    ghost predicate Did(t0: seq<Access>, plan: seq<Access>, ret: int)
      reads this
    {
      Traced(readValue, writeError, t0, plan, trace, ret)
    }

    method Perform(a: Access) returns (ret: int)
      modifies this
      ensures trace == old(trace) + [a] && status == old(status)
      ensures ret == Result(readValue, writeError, |old(trace)|, a)
    {
      ret := Result(readValue, writeError, |trace|, a);
      trace := trace + [a];
    }

    /** `phy_read_mmd`. */
    method ReadMmd(reg: nat) returns (ret: int)
      modifies this
      ensures trace == old(trace) + [Read(reg)] && status == old(status)
      ensures ret == readValue(|old(trace)|)
    {
      ret := Perform(Read(reg));
    }

    /** `phy_write_mmd`. */
    method WriteMmd(reg: nat, value: nat) returns (ret: int)
      modifies this
      ensures trace == old(trace) + [Write(reg, value)] && status == old(status)
      ensures ret == -(writeError(|old(trace)|) as int)
    {
      ret := Perform(Write(reg, value));
    }

    /** One `phy_write_mmd` made as the access at `q` of `plan`: the plan stops there if it fails. */
    method WriteAt(reg: nat, value: nat, ghost t0: seq<Access>, ghost plan: seq<Access>, ghost q: nat)
      returns (ret: int)
      requires At(t0, plan, q) && q < |plan| && plan[q] == Write(reg, value)
      modifies this
      ensures status == old(status)
      ensures ret != 0 ==> ret < 0 && Did(t0, plan, ret)
      ensures ret == 0 ==> At(t0, plan, q + 1)
    {
      ghost var tr := trace;
      ret := WriteMmd(reg, value);
      Step(readValue, writeError, t0, plan, q, tr, ret);
    }

    /** `phy_modify_mmd`, one read-modify-write. */
    method ModifyMmd(reg: nat, mask: nat, bits: nat) returns (ret: int)
      modifies this
      ensures trace == old(trace) + [Modify(reg, mask, bits)] && status == old(status)
      ensures ret == -(writeError(|old(trace)|) as int)
    {
      ret := Perform(Modify(reg, mask, bits));
    }

    /**
     * `lan865x_revb_indirect_read`, run as the part of `plan` at `pos`: a
     * failing write stops the plan with its status; otherwise the result is
     * what the data read returns.
     */
    method IndirectRead(addr: nat, ghost t0: seq<Access>, ghost plan: seq<Access>, ghost pos: nat) returns (ret: int)
      requires At(t0, plan, pos) && Within(plan, pos, IndirectPlan(addr))
      modifies this
      ensures status == old(status)
      ensures ret < 0 ==> Did(t0, plan, ret)
      ensures ret >= 0 ==> At(t0, plan, pos + 3) && ret == readValue(|t0| + pos + 2)
    {
      WithinAt(plan, pos, IndirectPlan(addr), 0);
      WithinAt(plan, pos, IndirectPlan(addr), 1);
      WithinAt(plan, pos, IndirectPlan(addr), 2);
      ghost var tr := trace;
      ret := WriteMmd(CfgparamAddr, addr);
      Step(readValue, writeError, t0, plan, pos, tr, ret);
      if ret != 0 {
        return;
      }
      tr := trace;
      ret := WriteMmd(CfgparamCtrl, CfgparamReadEnable);
      Step(readValue, writeError, t0, plan, pos + 1, tr, ret);
      if ret != 0 {
        return;
      }
      tr := trace;
      ret := ReadMmd(CfgparamData);
      Step(readValue, writeError, t0, plan, pos + 2, tr, ret);
    }

    /**
     * `lan865x_generate_cfg_offsets`, run as the part of `plan` at `pos`:
     * the first error, or the two offsets sign-extended from the data reads.
     */
    method GenerateCfgOffsets(ghost t0: seq<Access>, ghost plan: seq<Access>, ghost pos: nat)
      returns (ret: int, offsets: seq<int>)
      requires At(t0, plan, pos) && Within(plan, pos, OffsetPlan())
      modifies this
      ensures status == old(status) && |offsets| == 2
      ensures ret != 0 ==> ret < 0 && Did(t0, plan, ret)
      ensures ret == 0 ==> At(t0, plan, pos + 6) && offsets == Offsets(readValue, |t0| + pos)
    {
      offsets := [0, 0];
      var i := 0;
      while i < 2
        invariant 0 <= i <= 2 && |offsets| == 2
        invariant At(t0, plan, pos + 3 * i) && status == old(status)
        invariant offsets[..i] == Offsets(readValue, |t0| + pos)[..i]
      {
        OffsetPlanAt(readValue, plan, pos, |t0| + pos, i);
        ret := IndirectRead(OffsetAddrs[i], t0, plan, pos + 3 * i);
        if ret < 0 {
          return;
        }
        offsets := offsets[i := Offset(ret)];
        i := i + 1;
      }
      assert offsets == offsets[..2];
      ret := 0;
    }

    /** `lan865x_read_cfg_params`, run as the part of `plan` at `pos`: read each register until a read fails. */
    method ReadCfgParams(regs: seq<nat>, ghost t0: seq<Access>, ghost plan: seq<Access>, ghost pos: nat)
      returns (ret: int)
      requires At(t0, plan, pos) && Within(plan, pos, Reads(regs))
      modifies this
      ensures status == old(status)
      ensures ret != 0 ==> ret < 0 && Did(t0, plan, ret)
      ensures ret == 0 ==> At(t0, plan, pos + |regs|)
    {
      var i := 0;
      while i < |regs|
        invariant 0 <= i <= |regs|
        invariant At(t0, plan, pos + i) && status == old(status)
      {
        WithinAt(plan, pos, Reads(regs), i);
        ghost var tr := trace;
        ret := ReadMmd(regs[i]);
        Step(readValue, writeError, t0, plan, pos + i, tr, ret);
        if ret < 0 {
          return;
        }
        i := i + 1;
      }
      ret := 0;
    }

    /** `lan865x_write_cfg_params`, run as the part of `plan` at `pos`: write each register until a write fails. */
    method WriteCfgParams(regs: seq<nat>, values: seq<nat>, ghost t0: seq<Access>, ghost plan: seq<Access>,
                          ghost pos: nat) returns (ret: int)
      requires |regs| == |values|
      requires At(t0, plan, pos) && Within(plan, pos, Writes(regs, values))
      modifies this
      ensures status == old(status)
      ensures ret != 0 ==> ret < 0 && Did(t0, plan, ret)
      ensures ret == 0 ==> At(t0, plan, pos + |regs|)
    {
      var i := 0;
      while i < |regs|
        invariant 0 <= i <= |regs|
        invariant At(t0, plan, pos + i) && status == old(status)
      {
        WithinAt(plan, pos, Writes(regs, values), i);
        ret := WriteAt(regs[i], values[i], t0, plan, pos + i);
        if ret != 0 {
          return;
        }
        i := i + 1;
      }
      ret := 0;
    }

    /** `lan865x_setup_cfgparam`: read both registers (the values are not used), then write the two words. */
    method SetupCfgparam(offsets: seq<int>, ghost t0: seq<Access>, ghost plan: seq<Access>, ghost pos: nat)
      returns (ret: int)
      requires |offsets| == 2 && At(t0, plan, pos) && Within(plan, pos, CfgPlan(CfgWords(offsets)))
      modifies this
      ensures status == old(status)
      ensures ret != 0 ==> ret < 0 && Did(t0, plan, ret)
      ensures ret == 0 ==> At(t0, plan, pos + 4)
    {
      var results := CfgWords(offsets);
      WithinSplit(plan, pos, Reads(RevBFixupCfgRegs), Writes(RevBFixupCfgRegs, results));
      ret := ReadCfgParams(RevBFixupCfgRegs, t0, plan, pos);
      if ret != 0 {
        return;
      }
      ret := WriteCfgParams(RevBFixupCfgRegs, results, t0, plan, pos + 2);
    }

    /** `lan865x_setup_sqi_cfgparam`: read the three registers (the values are not used), then write the SQI words. */
    method SetupSqiCfgparam(offsets: seq<int>, ghost t0: seq<Access>, ghost plan: seq<Access>, ghost pos: nat)
      returns (ret: int)
      requires |offsets| == 2 && At(t0, plan, pos) && Within(plan, pos, SqiPlan(SqiWords(offsets[0])))
      modifies this
      ensures status == old(status)
      ensures ret != 0 ==> ret < 0 && Did(t0, plan, ret)
      ensures ret == 0 ==> At(t0, plan, pos + 6)
    {
      var results := SqiWords(offsets[0]);
      WithinSplit(plan, pos, Reads(RevBSqiFixupCfgRegs), Writes(RevBSqiFixupCfgRegs, results));
      ret := ReadCfgParams(RevBSqiFixupCfgRegs, t0, plan, pos);
      if ret != 0 {
        return;
      }
      ret := WriteCfgParams(RevBSqiFixupCfgRegs, results, t0, plan, pos + 3);
    }

    /**
     * The fixup loop of the Rev.B and Rev.C config_init over the first `n`
     * table entries: write each, running the cfgparam setup after index 1,
     * until a write fails.
     */
    method FixupLoop(n: nat, regs: seq<nat>, values: seq<nat>, offsets: seq<int>,
                     ghost t0: seq<Access>, ghost plan: seq<Access>, ghost pos: nat) returns (ret: int)
      requires n <= |regs| == |values| && |offsets| == 2
      requires At(t0, plan, pos) && Within(plan, pos, FixupPlan(n, regs, values, CfgPlan(CfgWords(offsets))))
      modifies this
      ensures status == old(status)
      ensures ret != 0 ==> ret < 0 && Did(t0, plan, ret)
      ensures ret == 0 ==> At(t0, plan, pos + n + (if n >= 2 then |CfgPlan(CfgWords(offsets))| else 0))
    {
      ghost var cfg := CfgPlan(CfgWords(offsets));
      var i := 0;
      ghost var q := pos;
      while i < n
        invariant 0 <= i <= n && q == pos + i + (if i >= 2 then |cfg| else 0)
        invariant At(t0, plan, q) && status == old(status)
      {
        FixupPlanNext(i, n, regs, values, cfg, plan, pos, q);
        ret := FixupIteration(i, regs[i], values[i], offsets, cfg, t0, plan, q);
        if ret != 0 {
          return;
        }
        q := q + 1 + (if i == 1 then |cfg| else 0);
        i := i + 1;
      }
      ret := 0;
    }

    /**
     * Iteration `i` of the fixup loop, as the access at `q` of `plan`: one
     * write, and after index 1 the cfgparam setup, whose accesses `cfg`
     * follow it.
     */
    method FixupIteration(i: nat, reg: nat, value: nat, offsets: seq<int>, ghost cfg: seq<Access>,
                          ghost t0: seq<Access>, ghost plan: seq<Access>, ghost q: nat)
      returns (ret: int)
      requires |offsets| == 2 && cfg == CfgPlan(CfgWords(offsets))
      requires At(t0, plan, q) && q < |plan| && plan[q] == Write(reg, value)
      requires i == 1 ==> Within(plan, q + 1, cfg)
      modifies this
      ensures status == old(status)
      ensures ret != 0 ==> ret < 0 && Did(t0, plan, ret)
      ensures ret == 0 ==> At(t0, plan, q + 1 + (if i == 1 then |cfg| else 0))
    {
      ret := WriteAt(reg, value, t0, plan, q);
      if ret != 0 {
        return;
      }
      if i == 1 {
        assert |cfg| == 4;
        ret := SetupCfgparam(offsets, t0, plan, q + 1);
      }
    }

    /** What Rev.B and Rev.C do after the offsets: `n` fixups, the SQI cfgparams, the SQI fixups. */
    method ConfigFixups(n: nat, offsets: seq<int>, ghost t0: seq<Access>, ghost plan: seq<Access>, ghost pos: nat)
      returns (ret: int)
      requires n <= 17 && |offsets| == 2
      requires At(t0, plan, pos) && Within(plan, pos, ConfigPlan(n, offsets))
      modifies this
      ensures status == old(status)
      ensures ret != 0 ==> ret < 0 && Did(t0, plan, ret)
      ensures ret == 0 ==> At(t0, plan, pos + |ConfigPlan(n, offsets)|)
    {
      ghost var cfg := CfgPlan(CfgWords(offsets));
      Within3(plan, pos, FixupPlan(n, RevBFixupRegs, RevBFixupValues, cfg), SqiPlan(SqiWords(offsets[0])), SqiFixupPlan());
      ghost var f := |FixupPlan(n, RevBFixupRegs, RevBFixupValues, cfg)|;
      ret := FixupLoop(n, RevBFixupRegs, RevBFixupValues, offsets, t0, plan, pos);
      if ret != 0 {
        return;
      }
      ret := SetupSqiCfgparam(offsets, t0, plan, pos + f);
      if ret != 0 {
        return;
      }
      ret := WriteCfgParams(RevBSqiFixupRegs, RevBSqiFixupValues, t0, plan, pos + f + 6);
    }

    /**
     * What the Rev.B and Rev.C config_init share once they start from
     * `t0`: the offset reads, then `n` fixups and the SQI part with the
     * offsets read, stopping at the first error.
     */
    method OffsetsThenFixups(n: nat, ghost t0: seq<Access>, ghost plan: seq<Access>) returns (ret: int)
      requires n <= 17 && trace == t0 && plan == OffsetPlan() + ConfigPlan(n, Offsets(readValue, |t0|))
      modifies this
      ensures status == old(status)
      ensures Did(t0, plan, ret)
    {
      InitLayout(plan, OffsetPlan(), ConfigPlan(n, Offsets(readValue, |t0|)));
      assert At(t0, plan, 0);
      var offsets;
      ret, offsets := GenerateCfgOffsets(t0, plan, 0);
      if ret != 0 {
        return;
      }
      ret := ConfigFixups(n, offsets, t0, plan, 6);
      if ret != 0 {
        return;
      }
      Finish(readValue, writeError, t0, plan, trace);
    }

    /**
     * `lan865x_revb_config_init`: the offset reads, the 17 fixups with the
     * cfgparam setup after index 1, the SQI cfgparams and the 12 SQI fixups,
     * stopping at the first error.
     */
    method RevBConfigInit() returns (ret: int)
      modifies this
      ensures status == old(status)
      ensures Did(old(trace), RevBPlan(readValue, |old(trace)|), ret)
    {
      ghost var t0 := trace;
      ret := OffsetsThenFixups(17, t0, RevBPlan(readValue, |t0|));
    }

    /** `lan867x_check_reset_complete`: one or two reads of STS2, as `ResetCheck` says. */
    method CheckResetComplete() returns (err: int)
      modifies this
      ensures status == old(status)
      ensures var r := ResetCheck(readValue, |old(trace)|);
              trace == old(trace) + ResetPlan(r.0) && err == r.1
    {
      err := ReadMmd(Lan867xRegSts2);
      if err < 0 {
        return;
      }
      if !ResetComplete(err) {
        err := ReadMmd(Lan867xRegSts2);
        if err < 0 {
          return;
        }
        if !ResetComplete(err) {
          return -ENODEV;
        }
      }
      return 0;
    }

    /**
     * `lan867x_revc_config_init`: the reset check, then the offset reads,
     * the first 9 fixups with the cfgparam setup after index 1, the SQI
     * cfgparams and the 12 SQI fixups, stopping at the first error.
     */
    method RevCConfigInit() returns (ret: int)
      modifies this
      ensures status == old(status)
      ensures var r := ResetCheck(readValue, |old(trace)|);
              var t1 := old(trace) + ResetPlan(r.0);
              (r.1 != 0 ==> trace == t1 && ret == r.1) &&
              (r.1 == 0 ==> Did(t1, RevCPlan(readValue, |t1|), ret))
    {
      ret := CheckResetComplete();
      if ret != 0 {
        return;
      }
      ghost var t0 := trace;
      ret := OffsetsThenFixups(9, t0, RevCPlan(readValue, |t0|));
    }

    /** `lan867x_revb1_config_init`: the reset check, then the 12 read-modify-writes, stopping at the first error. */
    method RevB1ConfigInit() returns (err: int)
      modifies this
      ensures status == old(status)
      ensures var r := ResetCheck(readValue, |old(trace)|);
              var t1 := old(trace) + ResetPlan(r.0);
              (r.1 != 0 ==> trace == t1 && err == r.1) &&
              (r.1 == 0 ==> Did(t1, RevB1Plan(), err))
    {
      err := CheckResetComplete();
      if err != 0 {
        return;
      }
      ghost var t0 := trace;
      assert At(t0, RevB1Plan(), 0);
      err := ModifyFixups(RevB1FixupRegs, RevB1FixupMasks, RevB1FixupValues, t0);
    }

    /** The loop of `lan867x_revb1_config_init`: one read-modify-write per table entry until one fails. */
    method ModifyFixups(regs: seq<nat>, masks: seq<nat>, values: seq<nat>, ghost t0: seq<Access>)
      returns (err: int)
      requires |regs| == |masks| == |values| && At(t0, Modifies(regs, masks, values), 0)
      modifies this
      ensures status == old(status)
      ensures Did(t0, Modifies(regs, masks, values), err)
    {
      ghost var plan := Modifies(regs, masks, values);
      var i := 0;
      while i < |regs|
        invariant 0 <= i <= |regs|
        invariant At(t0, plan, i) && status == old(status)
      {
        ghost var tr := trace;
        err := ModifyMmd(regs[i], masks[i], values[i]);
        Step(readValue, writeError, t0, plan, i, tr, err);
        if err != 0 {
          return;
        }
        i := i + 1;
      }
      Finish(readValue, writeError, t0, plan, trace);
      err := 0;
    }

    /**
     * `lan86xx_plca_set_cfg`, given what `genphy_c45_plca_set_cfg` returned:
     * its error, or one read-modify-write of COL_DET_CTRL0 bit 15 (cleared
     * when PLCA is enabled, set when disabled) and that access's status.
     */
    method PlcaSetCfg(genericRet: int, enabled: bool) returns (ret: int)
      modifies this
      ensures status == old(status)
      ensures genericRet != 0 ==> trace == old(trace) && ret == genericRet
      ensures genericRet == 0 ==>
                trace == old(trace) + [Modify(ColDetCtrl0, ColDetEnableBitMask,
                                              if enabled then ColDetDisable else ColDetEnable)] &&
                ret == -(writeError(|old(trace)|) as int)
    {
      ret := genericRet;
      if ret != 0 {
        return;
      }
      if enabled {
        ret := ModifyMmd(ColDetCtrl0, ColDetEnableBitMask, ColDetDisable);
        return;
      }
      ret := ModifyMmd(ColDetCtrl0, ColDetEnableBitMask, ColDetEnable);
    }

    /** `lan86xx_read_status`: link up, half duplex, 10 Mb/s, no autonegotiation; no bus access. */
    method ReadStatus() returns (ret: int)
      modifies this
      ensures trace == old(trace) && ret == 0
      ensures status == LinkStatus(1, Half, Speed10, false)
    {
      status := LinkStatus(1, Half, Speed10, false);
      ret := 0;
    }
  }
}
