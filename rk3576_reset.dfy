/**
 * The reset lookup table of the Rockchip RK3576 clock and reset unit
 * (drivers/clk/rockchip/rst-rk3576.c). Each reset line is a bit of a
 * SOFTRST_CON register in one of four blocks; the table maps it to the
 * offset `base + reg * 16 + bit`, counted in bits from the first
 * SOFTRST_CON register of the main block.
 */
module Rk3576Reset {
  import opened Order

  datatype Block = Cru | PhpCru | SecureNsCru | Pmu1Cru

  /** The macros' bases: 0, 0x8000*4, 0x10000*4 and 0x20000*4 (four times the blocks' byte distances). */
  function Base(b: Block): nat
  {
    match b
    case Cru => 0
    case PhpCru => 0x8000 * 4
    case SecureNsCru => 0x10000 * 4
    case Pmu1Cru => 0x20000 * 4
  }

  /** One RK3576_*_RESET_OFFSET(id, reg, bit) entry. */
  datatype Entry = Entry(block: Block, reg: nat, bit: nat)

  /** The table value of an entry. */
  function Offset(e: Entry): nat
  {
    Base(e.block) + e.reg * 16 + e.bit
  }

  /**
   * An entry a lookup can take apart: a bit of a 16-bit register, and a
   * register below the next block's base (the last block is open-ended).
   */
  predicate Fits(e: Entry)
  {
    e.bit < 16 &&
    match e.block
    case Cru => e.reg < 0x2000
    case PhpCru => e.reg < 0x2000
    case SecureNsCru => e.reg < 0x4000
    case Pmu1Cru => true
  }

  /** The block, register and bit an offset stands for. */
  function Decode(off: nat): (e: Entry)
    ensures Fits(e) && Base(e.block) <= off
  {
    var b := if off < Base(PhpCru) then Cru
             else if off < Base(SecureNsCru) then PhpCru
             else if off < Base(Pmu1Cru) then SecureNsCru
             else Pmu1Cru;
    Entry(b, (off - Base(b)) / 16, (off - Base(b)) % 16)
  }

  /** Each block's offsets lie in its own range, and decoding an offset recovers its entry. */
  lemma DecodeOffset(e: Entry)
    requires Fits(e)
    ensures Decode(Offset(e)) == e
  {
    var r := Offset(e) - Base(e.block);
    assert r == e.reg * 16 + e.bit;
    assert Decode(Offset(e)).block == e.block;
  }

  /** Offsets of entries that fit identify them. */
  lemma OffsetInjective(e1: Entry, e2: Entry)
    requires Fits(e1) && Fits(e2)
    ensures Offset(e1) == Offset(e2) <==> e1 == e2
  {
    DecodeOffset(e1);
    DecodeOffset(e2);
  }

  /** What every entry of the table satisfies: it fits, and main-block registers are SOFTRST_CON00 to 79. */
  predicate Listed(e: Entry)
  {
    Fits(e) && (e.block == Cru ==> e.reg <= 79)
  }

  function Offsets(s: seq<Entry>): (r: seq<int>)
    ensures |r| == |s| && forall i :: 0 <= i < |s| ==> r[i] == Offset(s[i])
  {
    seq(|s|, i requires 0 <= i < |s| => Offset(s[i]))
  }

  predicate WellOrdered(s: seq<Entry>)
  {
    (forall i :: 0 <= i < |s| ==> Listed(s[i])) && Increasing(Offsets(s))
  }

  /** Lines 26-47. */
  const Entries0: seq<Entry> := [
    Entry(Cru, 1, 3),  // SRST_A_TOP_BIU
    Entry(Cru, 1, 5),  // SRST_P_TOP_BIU
    Entry(Cru, 1, 6),  // SRST_A_TOP_MID_BIU
    Entry(Cru, 1, 7),  // SRST_A_SECURE_HIGH_BIU
    Entry(Cru, 1, 14),  // SRST_H_TOP_BIU
    Entry(Cru, 2, 0),  // SRST_H_VO0VOP_CHANNEL_BIU
    Entry(Cru, 2, 1),  // SRST_A_VO0VOP_CHANNEL_BIU
    Entry(Cru, 6, 2),  // SRST_BISRINTF
    Entry(Cru, 7, 2),  // SRST_H_AUDIO_BIU
    Entry(Cru, 7, 3),  // SRST_H_ASRC_2CH_0
    Entry(Cru, 7, 4),  // SRST_H_ASRC_2CH_1
    Entry(Cru, 7, 5),  // SRST_H_ASRC_4CH_0
    Entry(Cru, 7, 6),  // SRST_H_ASRC_4CH_1
    Entry(Cru, 7, 7),  // SRST_ASRC_2CH_0
    Entry(Cru, 7, 8),  // SRST_ASRC_2CH_1
    Entry(Cru, 7, 9)  // SRST_ASRC_4CH_0
  ]

  /** Lines 48-67. */
  const Entries1: seq<Entry> := [
    Entry(Cru, 7, 10),  // SRST_ASRC_4CH_1
    Entry(Cru, 7, 12),  // SRST_M_SAI0_8CH
    Entry(Cru, 7, 13),  // SRST_H_SAI0_8CH
    Entry(Cru, 7, 14),  // SRST_H_SPDIF_RX0
    Entry(Cru, 7, 15),  // SRST_M_SPDIF_RX0
    Entry(Cru, 8, 0),  // SRST_H_SPDIF_RX1
    Entry(Cru, 8, 1),  // SRST_M_SPDIF_RX1
    Entry(Cru, 8, 5),  // SRST_M_SAI1_8CH
    Entry(Cru, 8, 6),  // SRST_H_SAI1_8CH
    Entry(Cru, 8, 8),  // SRST_M_SAI2_2CH
    Entry(Cru, 8, 10),  // SRST_H_SAI2_2CH
    Entry(Cru, 8, 12),  // SRST_M_SAI3_2CH
    Entry(Cru, 8, 14),  // SRST_H_SAI3_2CH
    Entry(Cru, 9, 0),  // SRST_M_SAI4_2CH
    Entry(Cru, 9, 2),  // SRST_H_SAI4_2CH
    Entry(Cru, 9, 3)  // SRST_H_ACDCDIG_DSM
  ]

  /** Lines 68-85. */
  const Entries2: seq<Entry> := [
    Entry(Cru, 9, 4),  // SRST_M_ACDCDIG_DSM
    Entry(Cru, 9, 5),  // SRST_PDM1
    Entry(Cru, 9, 7),  // SRST_H_PDM1
    Entry(Cru, 9, 8),  // SRST_M_PDM1
    Entry(Cru, 9, 9),  // SRST_H_SPDIF_TX0
    Entry(Cru, 9, 10),  // SRST_M_SPDIF_TX0
    Entry(Cru, 9, 11),  // SRST_H_SPDIF_TX1
    Entry(Cru, 9, 12),  // SRST_M_SPDIF_TX1
    Entry(Cru, 11, 3),  // SRST_A_BUS_BIU
    Entry(Cru, 11, 4),  // SRST_P_BUS_BIU
    Entry(Cru, 11, 5),  // SRST_P_CRU
    Entry(Cru, 11, 6),  // SRST_H_CAN0
    Entry(Cru, 11, 7),  // SRST_CAN0
    Entry(Cru, 11, 8),  // SRST_H_CAN1
    Entry(Cru, 11, 9),  // SRST_CAN1
    Entry(Cru, 11, 12)  // SRST_P_INTMUX2BUS
  ]

  /** Lines 86-103. */
  const Entries3: seq<Entry> := [
    Entry(Cru, 11, 13),  // SRST_P_VCCIO_IOC
    Entry(Cru, 11, 14),  // SRST_H_BUS_BIU
    Entry(Cru, 11, 15),  // SRST_KEY_SHIFT
    Entry(Cru, 12, 0),  // SRST_P_I2C1
    Entry(Cru, 12, 1),  // SRST_P_I2C2
    Entry(Cru, 12, 2),  // SRST_P_I2C3
    Entry(Cru, 12, 3),  // SRST_P_I2C4
    Entry(Cru, 12, 4),  // SRST_P_I2C5
    Entry(Cru, 12, 5),  // SRST_P_I2C6
    Entry(Cru, 12, 6),  // SRST_P_I2C7
    Entry(Cru, 12, 7),  // SRST_P_I2C8
    Entry(Cru, 12, 8),  // SRST_P_I2C9
    Entry(Cru, 12, 9),  // SRST_P_WDT_BUSMCU
    Entry(Cru, 12, 10),  // SRST_T_WDT_BUSMCU
    Entry(Cru, 12, 11),  // SRST_A_GIC
    Entry(Cru, 12, 12)  // SRST_I2C1
  ]

  /** Lines 104-121. */
  const Entries4: seq<Entry> := [
    Entry(Cru, 12, 13),  // SRST_I2C2
    Entry(Cru, 12, 14),  // SRST_I2C3
    Entry(Cru, 12, 15),  // SRST_I2C4
    Entry(Cru, 13, 0),  // SRST_I2C5
    Entry(Cru, 13, 1),  // SRST_I2C6
    Entry(Cru, 13, 2),  // SRST_I2C7
    Entry(Cru, 13, 3),  // SRST_I2C8
    Entry(Cru, 13, 4),  // SRST_I2C9
    Entry(Cru, 13, 6),  // SRST_P_SARADC
    Entry(Cru, 13, 7),  // SRST_SARADC
    Entry(Cru, 13, 8),  // SRST_P_TSADC
    Entry(Cru, 13, 9),  // SRST_TSADC
    Entry(Cru, 13, 10),  // SRST_P_UART0
    Entry(Cru, 13, 11),  // SRST_P_UART2
    Entry(Cru, 13, 12),  // SRST_P_UART3
    Entry(Cru, 13, 13)  // SRST_P_UART4
  ]

  /** Lines 122-141. */
  const Entries5: seq<Entry> := [
    Entry(Cru, 13, 14),  // SRST_P_UART5
    Entry(Cru, 13, 15),  // SRST_P_UART6
    Entry(Cru, 14, 0),  // SRST_P_UART7
    Entry(Cru, 14, 1),  // SRST_P_UART8
    Entry(Cru, 14, 2),  // SRST_P_UART9
    Entry(Cru, 14, 3),  // SRST_P_UART10
    Entry(Cru, 14, 4),  // SRST_P_UART11
    Entry(Cru, 14, 5),  // SRST_S_UART0
    Entry(Cru, 14, 6),  // SRST_S_UART2
    Entry(Cru, 14, 9),  // SRST_S_UART3
    Entry(Cru, 14, 12),  // SRST_S_UART4
    Entry(Cru, 14, 15),  // SRST_S_UART5
    Entry(Cru, 15, 2),  // SRST_S_UART6
    Entry(Cru, 15, 5),  // SRST_S_UART7
    Entry(Cru, 15, 8),  // SRST_S_UART8
    Entry(Cru, 15, 9)  // SRST_S_UART9
  ]

  /** Lines 142-159. */
  const Entries6: seq<Entry> := [
    Entry(Cru, 15, 10),  // SRST_S_UART10
    Entry(Cru, 15, 11),  // SRST_S_UART11
    Entry(Cru, 15, 13),  // SRST_P_SPI0
    Entry(Cru, 15, 14),  // SRST_P_SPI1
    Entry(Cru, 15, 15),  // SRST_P_SPI2
    Entry(Cru, 16, 0),  // SRST_P_SPI3
    Entry(Cru, 16, 1),  // SRST_P_SPI4
    Entry(Cru, 16, 2),  // SRST_SPI0
    Entry(Cru, 16, 3),  // SRST_SPI1
    Entry(Cru, 16, 4),  // SRST_SPI2
    Entry(Cru, 16, 5),  // SRST_SPI3
    Entry(Cru, 16, 6),  // SRST_SPI4
    Entry(Cru, 16, 7),  // SRST_P_WDT0
    Entry(Cru, 16, 8),  // SRST_T_WDT0
    Entry(Cru, 16, 9),  // SRST_P_SYS_GRF
    Entry(Cru, 16, 10)  // SRST_P_PWM1
  ]

  /** Lines 160-179. */
  const Entries7: seq<Entry> := [
    Entry(Cru, 16, 11),  // SRST_PWM1
    Entry(Cru, 17, 3),  // SRST_P_BUSTIMER0
    Entry(Cru, 17, 4),  // SRST_P_BUSTIMER1
    Entry(Cru, 17, 6),  // SRST_TIMER0
    Entry(Cru, 17, 7),  // SRST_TIMER1
    Entry(Cru, 17, 8),  // SRST_TIMER2
    Entry(Cru, 17, 9),  // SRST_TIMER3
    Entry(Cru, 17, 10),  // SRST_TIMER4
    Entry(Cru, 17, 11),  // SRST_TIMER5
    Entry(Cru, 17, 12),  // SRST_P_BUSIOC
    Entry(Cru, 17, 13),  // SRST_P_MAILBOX0
    Entry(Cru, 17, 15),  // SRST_P_GPIO1
    Entry(Cru, 18, 0),  // SRST_GPIO1
    Entry(Cru, 18, 1),  // SRST_P_GPIO2
    Entry(Cru, 18, 2),  // SRST_GPIO2
    Entry(Cru, 18, 3)  // SRST_P_GPIO3
  ]

  /** Lines 180-197. */
  const Entries8: seq<Entry> := [
    Entry(Cru, 18, 4),  // SRST_GPIO3
    Entry(Cru, 18, 5),  // SRST_P_GPIO4
    Entry(Cru, 18, 6),  // SRST_GPIO4
    Entry(Cru, 18, 7),  // SRST_A_DECOM
    Entry(Cru, 18, 8),  // SRST_P_DECOM
    Entry(Cru, 18, 9),  // SRST_D_DECOM
    Entry(Cru, 18, 11),  // SRST_TIMER6
    Entry(Cru, 18, 12),  // SRST_TIMER7
    Entry(Cru, 18, 13),  // SRST_TIMER8
    Entry(Cru, 18, 14),  // SRST_TIMER9
    Entry(Cru, 18, 15),  // SRST_TIMER10
    Entry(Cru, 19, 0),  // SRST_TIMER11
    Entry(Cru, 19, 1),  // SRST_A_DMAC0
    Entry(Cru, 19, 2),  // SRST_A_DMAC1
    Entry(Cru, 19, 3),  // SRST_A_DMAC2
    Entry(Cru, 19, 4)  // SRST_A_SPINLOCK
  ]

  /** Lines 198-217. */
  const Entries9: seq<Entry> := [
    Entry(Cru, 19, 5),  // SRST_REF_PVTPLL_BUS
    Entry(Cru, 19, 7),  // SRST_H_I3C0
    Entry(Cru, 19, 9),  // SRST_H_I3C1
    Entry(Cru, 19, 11),  // SRST_H_BUS_CM0_BIU
    Entry(Cru, 19, 12),  // SRST_F_BUS_CM0_CORE
    Entry(Cru, 19, 13),  // SRST_T_BUS_CM0_JTAG
    Entry(Cru, 20, 0),  // SRST_P_INTMUX2PMU
    Entry(Cru, 20, 1),  // SRST_P_INTMUX2DDR
    Entry(Cru, 20, 3),  // SRST_P_PVTPLL_BUS
    Entry(Cru, 20, 4),  // SRST_P_PWM2
    Entry(Cru, 20, 5),  // SRST_PWM2
    Entry(Cru, 20, 8),  // SRST_FREQ_PWM1
    Entry(Cru, 20, 9),  // SRST_COUNTER_PWM1
    Entry(Cru, 20, 12),  // SRST_I3C0
    Entry(Cru, 20, 13),  // SRST_I3C1
    Entry(Cru, 21, 1)  // SRST_P_DDR_MON_CH0
  ]

  /** Lines 218-235. */
  const Entries10: seq<Entry> := [
    Entry(Cru, 21, 2),  // SRST_P_DDR_BIU
    Entry(Cru, 21, 3),  // SRST_P_DDR_UPCTL_CH0
    Entry(Cru, 21, 4),  // SRST_TM_DDR_MON_CH0
    Entry(Cru, 21, 5),  // SRST_A_DDR_BIU
    Entry(Cru, 21, 6),  // SRST_DFI_CH0
    Entry(Cru, 21, 10),  // SRST_DDR_MON_CH0
    Entry(Cru, 21, 13),  // SRST_P_DDR_HWLP_CH0
    Entry(Cru, 21, 14),  // SRST_P_DDR_MON_CH1
    Entry(Cru, 21, 15),  // SRST_P_DDR_HWLP_CH1
    Entry(Cru, 22, 0),  // SRST_P_DDR_UPCTL_CH1
    Entry(Cru, 22, 1),  // SRST_TM_DDR_MON_CH1
    Entry(Cru, 22, 2),  // SRST_DFI_CH1
    Entry(Cru, 22, 3),  // SRST_A_DDR01_MSCH0
    Entry(Cru, 22, 4),  // SRST_A_DDR01_MSCH1
    Entry(Cru, 22, 6),  // SRST_DDR_MON_CH1
    Entry(Cru, 22, 9)  // SRST_DDR_SCRAMBLE_CH0
  ]

  /** Lines 236-255. */
  const Entries11: seq<Entry> := [
    Entry(Cru, 22, 10),  // SRST_DDR_SCRAMBLE_CH1
    Entry(Cru, 22, 12),  // SRST_P_AHB2APB
    Entry(Cru, 22, 13),  // SRST_H_AHB2APB
    Entry(Cru, 22, 14),  // SRST_H_DDR_BIU
    Entry(Cru, 22, 15),  // SRST_F_DDR_CM0_CORE
    Entry(Cru, 23, 1),  // SRST_P_DDR01_MSCH0
    Entry(Cru, 23, 2),  // SRST_P_DDR01_MSCH1
    Entry(Cru, 23, 4),  // SRST_DDR_TIMER0
    Entry(Cru, 23, 5),  // SRST_DDR_TIMER1
    Entry(Cru, 23, 6),  // SRST_T_WDT_DDR
    Entry(Cru, 23, 7),  // SRST_P_WDT
    Entry(Cru, 23, 8),  // SRST_P_TIMER
    Entry(Cru, 23, 9),  // SRST_T_DDR_CM0_JTAG
    Entry(Cru, 23, 11),  // SRST_P_DDR_GRF
    Entry(Cru, 25, 1),  // SRST_DDR_UPCTL_CH0
    Entry(Cru, 25, 2)  // SRST_A_DDR_UPCTL_0_CH0
  ]

  /** Lines 256-279. */
  const Entries12: seq<Entry> := [
    Entry(Cru, 25, 3),  // SRST_A_DDR_UPCTL_1_CH0
    Entry(Cru, 25, 4),  // SRST_A_DDR_UPCTL_2_CH0
    Entry(Cru, 25, 5),  // SRST_A_DDR_UPCTL_3_CH0
    Entry(Cru, 25, 6),  // SRST_A_DDR_UPCTL_4_CH0
    Entry(Cru, 26, 1),  // SRST_DDR_UPCTL_CH1
    Entry(Cru, 26, 2),  // SRST_A_DDR_UPCTL_0_CH1
    Entry(Cru, 26, 3),  // SRST_A_DDR_UPCTL_1_CH1
    Entry(Cru, 26, 4),  // SRST_A_DDR_UPCTL_2_CH1
    Entry(Cru, 26, 5),  // SRST_A_DDR_UPCTL_3_CH1
    Entry(Cru, 26, 6),  // SRST_A_DDR_UPCTL_4_CH1
    Entry(Cru, 27, 0),  // SRST_REF_PVTPLL_DDR
    Entry(Cru, 27, 1),  // SRST_P_PVTPLL_DDR
    Entry(Cru, 28, 9),  // SRST_A_RKNN0
    Entry(Cru, 28, 11),  // SRST_A_RKNN0_BIU
    Entry(Cru, 28, 12),  // SRST_L_RKNN0_BIU
    Entry(Cru, 29, 0)  // SRST_A_RKNN1
  ]

  /** Lines 280-299. */
  const Entries13: seq<Entry> := [
    Entry(Cru, 29, 2),  // SRST_A_RKNN1_BIU
    Entry(Cru, 29, 3),  // SRST_L_RKNN1_BIU
    Entry(Cru, 31, 0),  // SRST_NPU_DAP
    Entry(Cru, 31, 1),  // SRST_L_NPUSUBSYS_BIU
    Entry(Cru, 31, 9),  // SRST_P_NPUTOP_BIU
    Entry(Cru, 31, 10),  // SRST_P_NPU_TIMER
    Entry(Cru, 31, 12),  // SRST_NPUTIMER0
    Entry(Cru, 31, 13),  // SRST_NPUTIMER1
    Entry(Cru, 31, 14),  // SRST_P_NPU_WDT
    Entry(Cru, 31, 15),  // SRST_T_NPU_WDT
    Entry(Cru, 32, 0),  // SRST_A_RKNN_CBUF
    Entry(Cru, 32, 1),  // SRST_A_RVCORE0
    Entry(Cru, 32, 2),  // SRST_P_NPU_GRF
    Entry(Cru, 32, 3),  // SRST_P_PVTPLL_NPU
    Entry(Cru, 32, 4),  // SRST_NPU_PVTPLL
    Entry(Cru, 32, 6)  // SRST_H_NPU_CM0_BIU
  ]

  /** Lines 300-319. */
  const Entries14: seq<Entry> := [
    Entry(Cru, 32, 7),  // SRST_F_NPU_CM0_CORE
    Entry(Cru, 32, 8),  // SRST_T_NPU_CM0_JTAG
    Entry(Cru, 32, 11),  // SRST_A_RKNNTOP_BIU
    Entry(Cru, 32, 12),  // SRST_H_RKNN_CBUF
    Entry(Cru, 32, 13),  // SRST_H_RKNNTOP_BIU
    Entry(Cru, 33, 2),  // SRST_H_NVM_BIU
    Entry(Cru, 33, 3),  // SRST_A_NVM_BIU
    Entry(Cru, 33, 6),  // SRST_S_FSPI
    Entry(Cru, 33, 7),  // SRST_H_FSPI
    Entry(Cru, 33, 8),  // SRST_C_EMMC
    Entry(Cru, 33, 9),  // SRST_H_EMMC
    Entry(Cru, 33, 10),  // SRST_A_EMMC
    Entry(Cru, 33, 11),  // SRST_B_EMMC
    Entry(Cru, 33, 12),  // SRST_T_EMMC
    Entry(Cru, 34, 1),  // SRST_P_GRF
    Entry(Cru, 34, 5)  // SRST_P_PHP_BIU
  ]

  /** Lines 320-341. */
  const Entries15: seq<Entry> := [
    Entry(Cru, 34, 9),  // SRST_A_PHP_BIU
    Entry(Cru, 34, 13),  // SRST_P_PCIE0
    Entry(Cru, 34, 15),  // SRST_PCIE0_POWER_UP
    Entry(Cru, 35, 3),  // SRST_A_USB3OTG1
    Entry(Cru, 35, 11),  // SRST_A_MMU0
    Entry(Cru, 35, 13),  // SRST_A_SLV_MMU0
    Entry(Cru, 35, 14),  // SRST_A_MMU1
    Entry(Cru, 36, 0),  // SRST_A_SLV_MMU1
    Entry(Cru, 36, 7),  // SRST_P_PCIE1
    Entry(Cru, 36, 9),  // SRST_PCIE1_POWER_UP
    Entry(Cru, 37, 0),  // SRST_RXOOB0
    Entry(Cru, 37, 1),  // SRST_RXOOB1
    Entry(Cru, 37, 2),  // SRST_PMALIVE0
    Entry(Cru, 37, 3),  // SRST_PMALIVE1
    Entry(Cru, 37, 4),  // SRST_A_SATA0
    Entry(Cru, 37, 5)  // SRST_A_SATA1
  ]

  /** Lines 342-363. */
  const Entries16: seq<Entry> := [
    Entry(Cru, 37, 6),  // SRST_ASIC1
    Entry(Cru, 37, 7),  // SRST_ASIC0
    Entry(Cru, 40, 2),  // SRST_P_CSIDPHY1
    Entry(Cru, 40, 3),  // SRST_SCAN_CSIDPHY1
    Entry(Cru, 42, 3),  // SRST_P_SDGMAC_GRF
    Entry(Cru, 42, 4),  // SRST_P_SDGMAC_BIU
    Entry(Cru, 42, 5),  // SRST_A_SDGMAC_BIU
    Entry(Cru, 42, 6),  // SRST_H_SDGMAC_BIU
    Entry(Cru, 42, 7),  // SRST_A_GMAC0
    Entry(Cru, 42, 8),  // SRST_A_GMAC1
    Entry(Cru, 42, 9),  // SRST_P_GMAC0
    Entry(Cru, 42, 10),  // SRST_P_GMAC1
    Entry(Cru, 42, 12),  // SRST_H_SDIO
    Entry(Cru, 43, 2),  // SRST_H_SDMMC0
    Entry(Cru, 43, 3),  // SRST_S_FSPI1
    Entry(Cru, 43, 4)  // SRST_H_FSPI1
  ]

  /** Lines 364-383. */
  const Entries17: seq<Entry> := [
    Entry(Cru, 43, 6),  // SRST_A_DSMC_BIU
    Entry(Cru, 43, 7),  // SRST_A_DSMC
    Entry(Cru, 43, 8),  // SRST_P_DSMC
    Entry(Cru, 43, 10),  // SRST_H_HSGPIO
    Entry(Cru, 43, 11),  // SRST_HSGPIO
    Entry(Cru, 43, 13),  // SRST_A_HSGPIO
    Entry(Cru, 45, 3),  // SRST_H_RKVDEC
    Entry(Cru, 45, 5),  // SRST_H_RKVDEC_BIU
    Entry(Cru, 45, 6),  // SRST_A_RKVDEC_BIU
    Entry(Cru, 45, 8),  // SRST_RKVDEC_HEVC_CA
    Entry(Cru, 45, 9),  // SRST_RKVDEC_CORE
    Entry(Cru, 47, 3),  // SRST_A_USB_BIU
    Entry(Cru, 47, 4),  // SRST_P_USBUFS_BIU
    Entry(Cru, 47, 5),  // SRST_A_USB3OTG0
    Entry(Cru, 47, 10),  // SRST_A_UFS_BIU
    Entry(Cru, 47, 12)  // SRST_A_MMU2
  ]

  /** Lines 384-405. */
  const Entries18: seq<Entry> := [
    Entry(Cru, 47, 13),  // SRST_A_SLV_MMU2
    Entry(Cru, 47, 15),  // SRST_A_UFS_SYS
    Entry(Cru, 48, 0),  // SRST_A_UFS
    Entry(Cru, 48, 1),  // SRST_P_USBUFS_GRF
    Entry(Cru, 48, 2),  // SRST_P_UFS_GRF
    Entry(Cru, 49, 6),  // SRST_H_VPU_BIU
    Entry(Cru, 49, 7),  // SRST_A_JPEG_BIU
    Entry(Cru, 49, 10),  // SRST_A_RGA_BIU
    Entry(Cru, 49, 11),  // SRST_A_VDPP_BIU
    Entry(Cru, 49, 12),  // SRST_A_EBC_BIU
    Entry(Cru, 49, 13),  // SRST_H_RGA2E_0
    Entry(Cru, 49, 14),  // SRST_A_RGA2E_0
    Entry(Cru, 49, 15),  // SRST_CORE_RGA2E_0
    Entry(Cru, 50, 0),  // SRST_A_JPEG
    Entry(Cru, 50, 1),  // SRST_H_JPEG
    Entry(Cru, 50, 2)  // SRST_H_VDPP
  ]

  /** Lines 406-425. */
  const Entries19: seq<Entry> := [
    Entry(Cru, 50, 3),  // SRST_A_VDPP
    Entry(Cru, 50, 4),  // SRST_CORE_VDPP
    Entry(Cru, 50, 5),  // SRST_H_RGA2E_1
    Entry(Cru, 50, 6),  // SRST_A_RGA2E_1
    Entry(Cru, 50, 7),  // SRST_CORE_RGA2E_1
    Entry(Cru, 50, 10),  // SRST_H_EBC
    Entry(Cru, 50, 11),  // SRST_A_EBC
    Entry(Cru, 50, 12),  // SRST_D_EBC
    Entry(Cru, 51, 2),  // SRST_H_VEPU0_BIU
    Entry(Cru, 51, 3),  // SRST_A_VEPU0_BIU
    Entry(Cru, 51, 4),  // SRST_H_VEPU0
    Entry(Cru, 51, 5),  // SRST_A_VEPU0
    Entry(Cru, 51, 6),  // SRST_VEPU0_CORE
    Entry(Cru, 53, 3),  // SRST_A_VI_BIU
    Entry(Cru, 53, 4),  // SRST_H_VI_BIU
    Entry(Cru, 53, 5)  // SRST_P_VI_BIU
  ]

  /** Lines 426-445. */
  const Entries20: seq<Entry> := [
    Entry(Cru, 53, 6),  // SRST_D_VICAP
    Entry(Cru, 53, 7),  // SRST_A_VICAP
    Entry(Cru, 53, 8),  // SRST_H_VICAP
    Entry(Cru, 53, 10),  // SRST_ISP0
    Entry(Cru, 53, 11),  // SRST_ISP0_VICAP
    Entry(Cru, 54, 1),  // SRST_CORE_VPSS
    Entry(Cru, 54, 4),  // SRST_P_CSI_HOST_0
    Entry(Cru, 54, 5),  // SRST_P_CSI_HOST_1
    Entry(Cru, 54, 6),  // SRST_P_CSI_HOST_2
    Entry(Cru, 54, 7),  // SRST_P_CSI_HOST_3
    Entry(Cru, 54, 8),  // SRST_P_CSI_HOST_4
    Entry(Cru, 59, 0),  // SRST_CIFIN
    Entry(Cru, 59, 1),  // SRST_VICAP_I0CLK
    Entry(Cru, 59, 2),  // SRST_VICAP_I1CLK
    Entry(Cru, 59, 3),  // SRST_VICAP_I2CLK
    Entry(Cru, 59, 4)  // SRST_VICAP_I3CLK
  ]

  /** Lines 446-467. */
  const Entries21: seq<Entry> := [
    Entry(Cru, 59, 5),  // SRST_VICAP_I4CLK
    Entry(Cru, 61, 4),  // SRST_A_VOP_BIU
    Entry(Cru, 61, 5),  // SRST_A_VOP2_BIU
    Entry(Cru, 61, 6),  // SRST_H_VOP_BIU
    Entry(Cru, 61, 7),  // SRST_P_VOP_BIU
    Entry(Cru, 61, 8),  // SRST_H_VOP
    Entry(Cru, 61, 9),  // SRST_A_VOP
    Entry(Cru, 61, 13),  // SRST_D_VP0
    Entry(Cru, 62, 0),  // SRST_D_VP1
    Entry(Cru, 62, 1),  // SRST_D_VP2
    Entry(Cru, 62, 2),  // SRST_P_VOP2_BIU
    Entry(Cru, 62, 3),  // SRST_P_VOPGRF
    Entry(Cru, 63, 5),  // SRST_H_VO0_BIU
    Entry(Cru, 63, 7),  // SRST_P_VO0_BIU
    Entry(Cru, 63, 9),  // SRST_A_HDCP0_BIU
    Entry(Cru, 63, 10)  // SRST_P_VO0_GRF
  ]

  /** Lines 468-487. */
  const Entries22: seq<Entry> := [
    Entry(Cru, 63, 12),  // SRST_A_HDCP0
    Entry(Cru, 63, 13),  // SRST_H_HDCP0
    Entry(Cru, 63, 14),  // SRST_HDCP0
    Entry(Cru, 64, 5),  // SRST_P_DSIHOST0
    Entry(Cru, 64, 6),  // SRST_DSIHOST0
    Entry(Cru, 64, 7),  // SRST_P_HDMITX0
    Entry(Cru, 64, 9),  // SRST_HDMITX0_REF
    Entry(Cru, 64, 13),  // SRST_P_EDP0
    Entry(Cru, 64, 14),  // SRST_EDP0_24M
    Entry(Cru, 65, 4),  // SRST_M_SAI5_8CH
    Entry(Cru, 65, 5),  // SRST_H_SAI5_8CH
    Entry(Cru, 65, 8),  // SRST_M_SAI6_8CH
    Entry(Cru, 65, 9),  // SRST_H_SAI6_8CH
    Entry(Cru, 65, 10),  // SRST_H_SPDIF_TX2
    Entry(Cru, 65, 13),  // SRST_M_SPDIF_TX2
    Entry(Cru, 65, 14)  // SRST_H_SPDIF_RX2
  ]

  /** Lines 488-509. */
  const Entries23: seq<Entry> := [
    Entry(Cru, 65, 15),  // SRST_M_SPDIF_RX2
    Entry(Cru, 66, 0),  // SRST_H_SAI8_8CH
    Entry(Cru, 66, 2),  // SRST_M_SAI8_8CH
    Entry(Cru, 67, 5),  // SRST_H_VO1_BIU
    Entry(Cru, 67, 6),  // SRST_P_VO1_BIU
    Entry(Cru, 67, 9),  // SRST_M_SAI7_8CH
    Entry(Cru, 67, 10),  // SRST_H_SAI7_8CH
    Entry(Cru, 67, 11),  // SRST_H_SPDIF_TX3
    Entry(Cru, 67, 12),  // SRST_H_SPDIF_TX4
    Entry(Cru, 67, 13),  // SRST_H_SPDIF_TX5
    Entry(Cru, 67, 14),  // SRST_M_SPDIF_TX3
    Entry(Cru, 68, 0),  // SRST_DP0
    Entry(Cru, 68, 2),  // SRST_P_VO1_GRF
    Entry(Cru, 68, 3),  // SRST_A_HDCP1_BIU
    Entry(Cru, 68, 4),  // SRST_A_HDCP1
    Entry(Cru, 68, 5)  // SRST_H_HDCP1
  ]

  /** Lines 510-529. */
  const Entries24: seq<Entry> := [
    Entry(Cru, 68, 6),  // SRST_HDCP1
    Entry(Cru, 68, 9),  // SRST_H_SAI9_8CH
    Entry(Cru, 68, 11),  // SRST_M_SAI9_8CH
    Entry(Cru, 68, 12),  // SRST_M_SPDIF_TX4
    Entry(Cru, 68, 13),  // SRST_M_SPDIF_TX5
    Entry(Cru, 69, 3),  // SRST_GPU
    Entry(Cru, 69, 6),  // SRST_A_S_GPU_BIU
    Entry(Cru, 69, 7),  // SRST_A_M0_GPU_BIU
    Entry(Cru, 69, 9),  // SRST_P_GPU_BIU
    Entry(Cru, 69, 13),  // SRST_P_GPU_GRF
    Entry(Cru, 69, 14),  // SRST_GPU_PVTPLL
    Entry(Cru, 69, 15),  // SRST_P_PVTPLL_GPU
    Entry(Cru, 72, 4),  // SRST_A_CENTER_BIU
    Entry(Cru, 72, 5),  // SRST_A_DMA2DDR
    Entry(Cru, 72, 6),  // SRST_A_DDR_SHAREMEM
    Entry(Cru, 72, 7)  // SRST_A_DDR_SHAREMEM_BIU
  ]

  /** Lines 530-553. */
  const Entries25: seq<Entry> := [
    Entry(Cru, 72, 8),  // SRST_H_CENTER_BIU
    Entry(Cru, 72, 9),  // SRST_P_CENTER_GRF
    Entry(Cru, 72, 10),  // SRST_P_DMA2DDR
    Entry(Cru, 72, 11),  // SRST_P_SHAREMEM
    Entry(Cru, 72, 12),  // SRST_P_CENTER_BIU
    Entry(Cru, 75, 1),  // SRST_LINKSYM_HDMITXPHY0
    Entry(Cru, 78, 1),  // SRST_DP0_PIXELCLK
    Entry(Cru, 78, 2),  // SRST_PHY_DP0_TX
    Entry(Cru, 78, 3),  // SRST_DP1_PIXELCLK
    Entry(Cru, 78, 4),  // SRST_DP2_PIXELCLK
    Entry(Cru, 79, 1),  // SRST_H_VEPU1_BIU
    Entry(Cru, 79, 2),  // SRST_A_VEPU1_BIU
    Entry(Cru, 79, 3),  // SRST_H_VEPU1
    Entry(Cru, 79, 4),  // SRST_A_VEPU1
    Entry(Cru, 79, 5),  // SRST_VEPU1_CORE
    Entry(PhpCru, 0, 1)  // SRST_P_PHPPHY_CRU
  ]

  /** Lines 554-575. */
  const Entries26: seq<Entry> := [
    Entry(PhpCru, 0, 3),  // SRST_P_APB2ASB_SLV_CHIP_TOP
    Entry(PhpCru, 0, 5),  // SRST_P_PCIE2_COMBOPHY0
    Entry(PhpCru, 0, 6),  // SRST_P_PCIE2_COMBOPHY0_GRF
    Entry(PhpCru, 0, 7),  // SRST_P_PCIE2_COMBOPHY1
    Entry(PhpCru, 0, 8),  // SRST_P_PCIE2_COMBOPHY1_GRF
    Entry(PhpCru, 1, 5),  // SRST_PCIE0_PIPE_PHY
    Entry(PhpCru, 1, 8),  // SRST_PCIE1_PIPE_PHY
    Entry(SecureNsCru, 0, 3),  // SRST_H_CRYPTO_NS
    Entry(SecureNsCru, 0, 4),  // SRST_H_TRNG_NS
    Entry(SecureNsCru, 0, 8),  // SRST_P_OTPC_NS
    Entry(SecureNsCru, 0, 9),  // SRST_OTPC_NS
    Entry(Pmu1Cru, 0, 0),  // SRST_P_HDPTX_GRF
    Entry(Pmu1Cru, 0, 1),  // SRST_P_HDPTX_APB
    Entry(Pmu1Cru, 0, 2),  // SRST_P_MIPI_DCPHY
    Entry(Pmu1Cru, 0, 3),  // SRST_P_DCPHY_GRF
    Entry(Pmu1Cru, 0, 4)  // SRST_P_BOT0_APB2ASB
  ]

  /** Lines 576-593. */
  const Entries27: seq<Entry> := [
    Entry(Pmu1Cru, 0, 5),  // SRST_P_BOT1_APB2ASB
    Entry(Pmu1Cru, 0, 6),  // SRST_USB2DEBUG
    Entry(Pmu1Cru, 0, 7),  // SRST_P_CSIPHY_GRF
    Entry(Pmu1Cru, 0, 8),  // SRST_P_CSIPHY
    Entry(Pmu1Cru, 0, 9),  // SRST_P_USBPHY_GRF_0
    Entry(Pmu1Cru, 0, 10),  // SRST_P_USBPHY_GRF_1
    Entry(Pmu1Cru, 0, 11),  // SRST_P_USBDP_GRF
    Entry(Pmu1Cru, 0, 12),  // SRST_P_USBDPPHY
    Entry(Pmu1Cru, 0, 15),  // SRST_USBDP_COMBO_PHY_INIT
    Entry(Pmu1Cru, 1, 0),  // SRST_USBDP_COMBO_PHY_CMN
    Entry(Pmu1Cru, 1, 1),  // SRST_USBDP_COMBO_PHY_LANE
    Entry(Pmu1Cru, 1, 2),  // SRST_USBDP_COMBO_PHY_PCS
    Entry(Pmu1Cru, 1, 3),  // SRST_M_MIPI_DCPHY
    Entry(Pmu1Cru, 1, 4),  // SRST_S_MIPI_DCPHY
    Entry(Pmu1Cru, 1, 5),  // SRST_SCAN_CSIPHY
    Entry(Pmu1Cru, 1, 6)  // SRST_P_VCCIO6_IOC
  ]

  /** Lines 594-615. */
  const Entries28: seq<Entry> := [
    Entry(Pmu1Cru, 1, 7),  // SRST_OTGPHY_0
    Entry(Pmu1Cru, 1, 8),  // SRST_OTGPHY_1
    Entry(Pmu1Cru, 1, 9),  // SRST_HDPTX_INIT
    Entry(Pmu1Cru, 1, 10),  // SRST_HDPTX_CMN
    Entry(Pmu1Cru, 1, 11),  // SRST_HDPTX_LANE
    Entry(Pmu1Cru, 1, 13),  // SRST_HDMITXHDP
    Entry(Pmu1Cru, 2, 0),  // SRST_MPHY_INIT
    Entry(Pmu1Cru, 2, 1),  // SRST_P_MPHY_GRF
    Entry(Pmu1Cru, 2, 3),  // SRST_P_VCCIO7_IOC
    Entry(Pmu1Cru, 3, 9),  // SRST_H_PMU1_BIU
    Entry(Pmu1Cru, 3, 10),  // SRST_P_PMU1_NIU
    Entry(Pmu1Cru, 3, 11),  // SRST_H_PMU_CM0_BIU
    Entry(Pmu1Cru, 3, 12),  // SRST_PMU_CM0_CORE
    Entry(Pmu1Cru, 3, 13),  // SRST_PMU_CM0_JTAG
    Entry(Pmu1Cru, 4, 1),  // SRST_P_CRU_PMU1
    Entry(Pmu1Cru, 4, 3)  // SRST_P_PMU1_GRF
  ]

  /** Lines 616-635. */
  const Entries29: seq<Entry> := [
    Entry(Pmu1Cru, 4, 4),  // SRST_P_PMU1_IOC
    Entry(Pmu1Cru, 4, 5),  // SRST_P_PMU1WDT
    Entry(Pmu1Cru, 4, 6),  // SRST_T_PMU1WDT
    Entry(Pmu1Cru, 4, 7),  // SRST_P_PMUTIMER
    Entry(Pmu1Cru, 4, 9),  // SRST_PMUTIMER0
    Entry(Pmu1Cru, 4, 10),  // SRST_PMUTIMER1
    Entry(Pmu1Cru, 4, 11),  // SRST_P_PMU1PWM
    Entry(Pmu1Cru, 4, 12),  // SRST_PMU1PWM
    Entry(Pmu1Cru, 5, 1),  // SRST_P_I2C0
    Entry(Pmu1Cru, 5, 2),  // SRST_I2C0
    Entry(Pmu1Cru, 5, 5),  // SRST_S_UART1
    Entry(Pmu1Cru, 5, 6),  // SRST_P_UART1
    Entry(Pmu1Cru, 5, 13),  // SRST_PDM0
    Entry(Pmu1Cru, 5, 15),  // SRST_H_PDM0
    Entry(Pmu1Cru, 6, 0),  // SRST_M_PDM0
    Entry(Pmu1Cru, 6, 1)  // SRST_H_VAD
  ]

  /** Lines 638-641. */
  const Entries30: seq<Entry> := [
    Entry(Pmu1Cru, 7, 4),  // SRST_P_PMU0GRF
    Entry(Pmu1Cru, 7, 5),  // SRST_P_PMU0IOC
    Entry(Pmu1Cru, 7, 6),  // SRST_P_GPIO0
    Entry(Pmu1Cru, 7, 7)  // SRST_DB_GPIO0
  ]

  const Group0: seq<Entry> := Entries0 + Entries1 + Entries2 + Entries3 + Entries4 + Entries5 + Entries6 + Entries7
  const Group1: seq<Entry> := Entries8 + Entries9 + Entries10 + Entries11 + Entries12 + Entries13 + Entries14 + Entries15
  const Group2: seq<Entry> := Entries16 + Entries17 + Entries18 + Entries19 + Entries20 + Entries21 + Entries22 + Entries23
  const Group3: seq<Entry> := Entries24 + Entries25 + Entries26 + Entries27 + Entries28 + Entries29 + Entries30

  /** `rk3576_register_offset`'s entries in the order they are written. */
  const Entries: seq<Entry> := Group0 + Group1 + Group2 + Group3

  /**
   * The table `rk3576_register_offset`, in source order. The reset ids that
   * index it come from the dt-bindings header, which is not part of this
   * model.
   */
  const RegisterOffset: seq<int> := Offsets(Entries)

  lemma OffsetsAppend(a: seq<Entry>, b: seq<Entry>)
    ensures Offsets(a + b) == Offsets(a) + Offsets(b)
  {
    assert forall i :: 0 <= i < |a| ==> (a + b)[i] == a[i];
    assert forall i :: |a| <= i < |a + b| ==> (a + b)[i] == b[i - |a|];
  }

  /** Joining two well-ordered runs where the first ends below the second. */
  lemma WellOrderedAppend(a: seq<Entry>, b: seq<Entry>)
    requires WellOrdered(a) && WellOrdered(b) && |a| > 0 && |b| > 0
    requires Offset(a[|a| - 1]) < Offset(b[0])
    ensures WellOrdered(a + b)
  {
    OffsetsAppend(a, b);
    IncreasingAppend(Offsets(a), Offsets(b));
  }

  // Each run of entries is ordered on its own.

  lemma Entries0Ordered() ensures WellOrdered(Entries0) { }
  lemma Entries1Ordered() ensures WellOrdered(Entries1) { }
  lemma Entries2Ordered() ensures WellOrdered(Entries2) { }
  lemma Entries3Ordered() ensures WellOrdered(Entries3) { }
  lemma Entries4Ordered() ensures WellOrdered(Entries4) { }
  lemma Entries5Ordered() ensures WellOrdered(Entries5) { }
  lemma Entries6Ordered() ensures WellOrdered(Entries6) { }
  lemma Entries7Ordered() ensures WellOrdered(Entries7) { }
  lemma Entries8Ordered() ensures WellOrdered(Entries8) { }
  lemma Entries9Ordered() ensures WellOrdered(Entries9) { }
  lemma Entries10Ordered() ensures WellOrdered(Entries10) { }
  lemma Entries11Ordered() ensures WellOrdered(Entries11) { }
  lemma Entries12Ordered() ensures WellOrdered(Entries12) { }
  lemma Entries13Ordered() ensures WellOrdered(Entries13) { }
  lemma Entries14Ordered() ensures WellOrdered(Entries14) { }
  lemma Entries15Ordered() ensures WellOrdered(Entries15) { }
  lemma Entries16Ordered() ensures WellOrdered(Entries16) { }
  lemma Entries17Ordered() ensures WellOrdered(Entries17) { }
  lemma Entries18Ordered() ensures WellOrdered(Entries18) { }
  lemma Entries19Ordered() ensures WellOrdered(Entries19) { }
  lemma Entries20Ordered() ensures WellOrdered(Entries20) { }
  lemma Entries21Ordered() ensures WellOrdered(Entries21) { }
  lemma Entries22Ordered() ensures WellOrdered(Entries22) { }
  lemma Entries23Ordered() ensures WellOrdered(Entries23) { }
  lemma Entries24Ordered() ensures WellOrdered(Entries24) { }
  lemma Entries25Ordered() ensures WellOrdered(Entries25) { }
  lemma Entries26Ordered() ensures WellOrdered(Entries26) { }
  lemma Entries27Ordered() ensures WellOrdered(Entries27) { }
  lemma Entries28Ordered() ensures WellOrdered(Entries28) { }
  lemma Entries29Ordered() ensures WellOrdered(Entries29) { }
  lemma Entries30Ordered() ensures WellOrdered(Entries30) { }

  lemma Group0Ordered()
    ensures WellOrdered(Group0)
  {
    Entries0Ordered();
    Entries1Ordered();
    Entries2Ordered();
    Entries3Ordered();
    Entries4Ordered();
    Entries5Ordered();
    Entries6Ordered();
    Entries7Ordered();
    WellOrderedAppend(Entries0, Entries1);
    WellOrderedAppend(Entries0 + Entries1, Entries2);
    WellOrderedAppend(Entries0 + Entries1 + Entries2, Entries3);
    WellOrderedAppend(Entries0 + Entries1 + Entries2 + Entries3, Entries4);
    WellOrderedAppend(Entries0 + Entries1 + Entries2 + Entries3 + Entries4, Entries5);
    WellOrderedAppend(Entries0 + Entries1 + Entries2 + Entries3 + Entries4 + Entries5, Entries6);
    WellOrderedAppend(Entries0 + Entries1 + Entries2 + Entries3 + Entries4 + Entries5 + Entries6, Entries7);
  }

  lemma Group1Ordered()
    ensures WellOrdered(Group1)
  {
    Entries8Ordered();
    Entries9Ordered();
    Entries10Ordered();
    Entries11Ordered();
    Entries12Ordered();
    Entries13Ordered();
    Entries14Ordered();
    Entries15Ordered();
    WellOrderedAppend(Entries8, Entries9);
    WellOrderedAppend(Entries8 + Entries9, Entries10);
    WellOrderedAppend(Entries8 + Entries9 + Entries10, Entries11);
    WellOrderedAppend(Entries8 + Entries9 + Entries10 + Entries11, Entries12);
    WellOrderedAppend(Entries8 + Entries9 + Entries10 + Entries11 + Entries12, Entries13);
    WellOrderedAppend(Entries8 + Entries9 + Entries10 + Entries11 + Entries12 + Entries13, Entries14);
    WellOrderedAppend(Entries8 + Entries9 + Entries10 + Entries11 + Entries12 + Entries13 + Entries14, Entries15);
  }

  lemma Group2Ordered()
    ensures WellOrdered(Group2)
  {
    Entries16Ordered();
    Entries17Ordered();
    Entries18Ordered();
    Entries19Ordered();
    Entries20Ordered();
    Entries21Ordered();
    Entries22Ordered();
    Entries23Ordered();
    WellOrderedAppend(Entries16, Entries17);
    WellOrderedAppend(Entries16 + Entries17, Entries18);
    WellOrderedAppend(Entries16 + Entries17 + Entries18, Entries19);
    WellOrderedAppend(Entries16 + Entries17 + Entries18 + Entries19, Entries20);
    WellOrderedAppend(Entries16 + Entries17 + Entries18 + Entries19 + Entries20, Entries21);
    WellOrderedAppend(Entries16 + Entries17 + Entries18 + Entries19 + Entries20 + Entries21, Entries22);
    WellOrderedAppend(Entries16 + Entries17 + Entries18 + Entries19 + Entries20 + Entries21 + Entries22, Entries23);
  }

  lemma Group3Ordered()
    ensures WellOrdered(Group3)
  {
    Entries24Ordered();
    Entries25Ordered();
    Entries26Ordered();
    Entries27Ordered();
    Entries28Ordered();
    Entries29Ordered();
    Entries30Ordered();
    WellOrderedAppend(Entries24, Entries25);
    WellOrderedAppend(Entries24 + Entries25, Entries26);
    WellOrderedAppend(Entries24 + Entries25 + Entries26, Entries27);
    WellOrderedAppend(Entries24 + Entries25 + Entries26 + Entries27, Entries28);
    WellOrderedAppend(Entries24 + Entries25 + Entries26 + Entries27 + Entries28, Entries29);
    WellOrderedAppend(Entries24 + Entries25 + Entries26 + Entries27 + Entries28 + Entries29, Entries30);
  }

  /** The whole table is ordered: offsets rise strictly from the first entry to the last. */
  lemma EntriesOrdered()
    ensures WellOrdered(Entries)
  {
    Group0Ordered();
    Group1Ordered();
    Group2Ordered();
    Group3Ordered();
    WellOrderedAppend(Group0, Group1);
    WellOrderedAppend(Group0 + Group1, Group2);
    WellOrderedAppend(Group0 + Group1 + Group2, Group3);
  }

  /** The table has 484 entries; each fits its register, and its offset decodes back to it. */
  lemma RegisterOffsetDecodes(i: int)
    requires 0 <= i < |Entries|
    ensures |Entries| == 484 && |RegisterOffset| == 484
    ensures Listed(Entries[i]) && RegisterOffset[i] >= 0 && Decode(RegisterOffset[i]) == Entries[i]
  {
    EntriesOrdered();
    DecodeOffset(Entries[i]);
  }

  /** Distinct entries of the table have distinct offsets, so no two reset lines share a bit. */
  lemma RegisterOffsetDistinct(i: int, j: int)
    requires 0 <= i < |RegisterOffset| && 0 <= j < |RegisterOffset| && i != j
    ensures RegisterOffset[i] != RegisterOffset[j]
  {
    EntriesOrdered();
    IncreasingDistinct(Offsets(Entries));
  }
}
