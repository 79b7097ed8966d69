/**
 * The records of an extended HTT stats message as the parse callback sees
 * them, the tags `ath12k_dbg_htt_ext_stats_parse` knows, the formatter each
 * tag selects, and the constants of debugfs_htt_stats.h, which this model
 * takes as parameters.
 */
module HttStatsTlv {
  import opened Wrappers
  import opened HttText
  import Bits

  /**
   * The `HTT_STATS_*_TAG` values with a case in the parse switch, in source
   * order; `Other` stands for every other 16-bit tag value.
   */
  datatype Tag =
    | TxPdevCmn
    | TxPdevUnderrun
    | TxPdevSifs
    | TxPdevFlush
    | TxPdevSifsHist
    | PdevCtrlPathTxStats
    | MuPpduDist
    | TxSchedCmn
    | TxPdevSchedulerTxqStats
    | SchedTxqCmdPosted
    | SchedTxqCmdReaped
    | SchedTxqSchedOrderSu
    | SchedTxqSchedIneligibility
    | SchedTxqSupercycleTrigger
    | HwPdevErrs
    | HwIntrMisc
    | WhalTx
    | HwWar
    | TxTqmCmn
    | TxTqmErrorStats
    | TxTqmGenMpdu
    | TxTqmListMpdu
    | TxTqmListMpduCnt
    | TxTqmPdev
    | TxDeCmn
    | TxDeEapolPackets
    | TxDeClassifyStats
    | TxDeClassifyFailed
    | TxDeClassifyStatus
    | TxDeEnqueuePackets
    | TxDeEnqueueDiscard
    | TxDeComplStats
    | TxSelfgenCmnStats
    | TxSelfgenAcStats
    | TxSelfgenAxStats
    | TxSelfgenBeStats
    | TxSelfgenAcErrStats
    | TxSelfgenAxErrStats
    | TxSelfgenBeErrStats
    | TxSelfgenAcSchedStatusStats
    | TxSelfgenAxSchedStatusStats
    | TxSelfgenBeSchedStatusStats
    | StatsString
    | SringStats
    | SfmCmn
    | SfmClient
    | SfmClientUser
    | TxPdevMuMimoStats
    | TxPdevMumimoGrpStats
    | TxPdevMpduStats
    | PdevCca1secHist
    | PdevCca100msecHist
    | PdevCcaStatCumulative
    | PdevCcaCounters
    | PdevObssPd
    | DmacResetStats
    | PdevSchedAlgoOfdmaStats
    | TxPdevRateStatsBeOfdma
    | Other

  /** The formatters the parse switch calls, one per `*_print_*_tlv` function. */
  datatype Formatter =
    | TxPdevStatsCmnTlv
    | TxPdevStatsUrrnTlv
    | TxPdevStatsSifsTlv
    | TxPdevStatsFlushTlv
    | TxPdevStatsSifsHistTlv
    | PdevCtrlPathTxStatsTlv
    | TxPdevMuPpduDistStatsTlv
    | StatsTxSchedCmnTlv
    | TxPdevStatsSchedPerTxqTlv
    | SchedTxqCmdPostedTlv
    | SchedTxqCmdReapedTlv
    | SchedTxqSchedOrderSuTlv
    | SchedTxqSchedIneligibilityTlv
    | SchedTxqSupercycleTriggerTlv
    | HwStatsPdevErrsTlv
    | HwStatsIntrMiscTlv
    | HwStatsWhalTxTlv
    | HwWarTlv
    | TxTqmCmnStatsTlv
    | TxTqmErrorStatsTlv
    | TxTqmGenMpduStatsTlv
    | TxTqmListMpduStatsTlv
    | TxTqmListMpduCntTlv
    | TxTqmPdevStatsTlv
    | TxDeCmnStatsTlv
    | TxDeEapolPacketsStatsTlv
    | TxDeClassifyStatsTlv
    | TxDeClassifyFailedStatsTlv
    | TxDeClassifyStatusStatsTlv
    | TxDeEnqueuePacketsStatsTlv
    | TxDeEnqueueDiscardStatsTlv
    | TxDeComplStatsTlv
    | TxSelfgenCmnStatsTlv
    | TxSelfgenAcStatsTlv
    | TxSelfgenAxStatsTlv
    | TxSelfgenBeStatsTlv
    | TxSelfgenAcErrStatsTlv
    | TxSelfgenAxErrStatsTlv
    | TxSelfgenBeErrStatsTlv
    | TxSelfgenAcSchedStatusStatsTlv
    | TxSelfgenAxSchedStatusStatsTlv
    | TxSelfgenBeSchedStatusStatsTlv
    | StatsStringTlv
    | SringStatsTlv
    | SfmCmnTlv
    | SfmClientTlv
    | SfmClientUserTlv
    | TxPdevMuMimoSchStatsTlv
    | TxPdevMumimoGrpStatsTlv
    | TxPdevMuMimoMpduStatsTlv
    | PdevCcaStatsHistTlv
    | PdevStatsCcaCountersTlv
    | PdevObssPdStatsTlv
    | DmacResetStatsTlv
    | PdevSchedAlgoOfdmaStatsTlv
    | TxPdevRateStatsBeOfdmaTlv

  /** The switch of `ath12k_dbg_htt_ext_stats_parse`: the formatter a tag selects, if any. */
  function Dispatch(t: Tag): Option<Formatter>
  {
    match t
    case TxPdevCmn => Some(TxPdevStatsCmnTlv)
    case TxPdevUnderrun => Some(TxPdevStatsUrrnTlv)
    case TxPdevSifs => Some(TxPdevStatsSifsTlv)
    case TxPdevFlush => Some(TxPdevStatsFlushTlv)
    case TxPdevSifsHist => Some(TxPdevStatsSifsHistTlv)
    case PdevCtrlPathTxStats => Some(PdevCtrlPathTxStatsTlv)
    case MuPpduDist => Some(TxPdevMuPpduDistStatsTlv)
    case TxSchedCmn => Some(StatsTxSchedCmnTlv)
    case TxPdevSchedulerTxqStats => Some(TxPdevStatsSchedPerTxqTlv)
    case SchedTxqCmdPosted => Some(SchedTxqCmdPostedTlv)
    case SchedTxqCmdReaped => Some(SchedTxqCmdReapedTlv)
    case SchedTxqSchedOrderSu => Some(SchedTxqSchedOrderSuTlv)
    case SchedTxqSchedIneligibility => Some(SchedTxqSchedIneligibilityTlv)
    case SchedTxqSupercycleTrigger => Some(SchedTxqSupercycleTriggerTlv)
    case HwPdevErrs => Some(HwStatsPdevErrsTlv)
    case HwIntrMisc => Some(HwStatsIntrMiscTlv)
    case WhalTx => Some(HwStatsWhalTxTlv)
    case HwWar => Some(HwWarTlv)
    case TxTqmCmn => Some(TxTqmCmnStatsTlv)
    case TxTqmErrorStats => Some(TxTqmErrorStatsTlv)
    case TxTqmGenMpdu => Some(TxTqmGenMpduStatsTlv)
    case TxTqmListMpdu => Some(TxTqmListMpduStatsTlv)
    case TxTqmListMpduCnt => Some(TxTqmListMpduCntTlv)
    case TxTqmPdev => Some(TxTqmPdevStatsTlv)
    case TxDeCmn => Some(TxDeCmnStatsTlv)
    case TxDeEapolPackets => Some(TxDeEapolPacketsStatsTlv)
    case TxDeClassifyStats => Some(TxDeClassifyStatsTlv)
    case TxDeClassifyFailed => Some(TxDeClassifyFailedStatsTlv)
    case TxDeClassifyStatus => Some(TxDeClassifyStatusStatsTlv)
    case TxDeEnqueuePackets => Some(TxDeEnqueuePacketsStatsTlv)
    case TxDeEnqueueDiscard => Some(TxDeEnqueueDiscardStatsTlv)
    case TxDeComplStats => Some(TxDeComplStatsTlv)
    case TxSelfgenCmnStats => Some(TxSelfgenCmnStatsTlv)
    case TxSelfgenAcStats => Some(TxSelfgenAcStatsTlv)
    case TxSelfgenAxStats => Some(TxSelfgenAxStatsTlv)
    case TxSelfgenBeStats => Some(TxSelfgenBeStatsTlv)
    case TxSelfgenAcErrStats => Some(TxSelfgenAcErrStatsTlv)
    case TxSelfgenAxErrStats => Some(TxSelfgenAxErrStatsTlv)
    case TxSelfgenBeErrStats => Some(TxSelfgenBeErrStatsTlv)
    case TxSelfgenAcSchedStatusStats => Some(TxSelfgenAcSchedStatusStatsTlv)
    case TxSelfgenAxSchedStatusStats => Some(TxSelfgenAxSchedStatusStatsTlv)
    case TxSelfgenBeSchedStatusStats => Some(TxSelfgenBeSchedStatusStatsTlv)
    case StatsString => Some(StatsStringTlv)
    case SringStats => Some(SringStatsTlv)
    case SfmCmn => Some(SfmCmnTlv)
    case SfmClient => Some(SfmClientTlv)
    case SfmClientUser => Some(SfmClientUserTlv)
    case TxPdevMuMimoStats => Some(TxPdevMuMimoSchStatsTlv)
    case TxPdevMumimoGrpStats => Some(TxPdevMumimoGrpStatsTlv)
    case TxPdevMpduStats => Some(TxPdevMuMimoMpduStatsTlv)
    case PdevCca1secHist => Some(PdevCcaStatsHistTlv)
    case PdevCca100msecHist => Some(PdevCcaStatsHistTlv)
    case PdevCcaStatCumulative => Some(PdevCcaStatsHistTlv)
    case PdevCcaCounters => Some(PdevStatsCcaCountersTlv)
    case PdevObssPd => Some(PdevObssPdStatsTlv)
    case DmacResetStats => Some(DmacResetStatsTlv)
    case PdevSchedAlgoOfdmaStats => Some(PdevSchedAlgoOfdmaStatsTlv)
    case TxPdevRateStatsBeOfdma => Some(TxPdevRateStatsBeOfdmaTlv)
    case Other => None
  }

  /** How a formatter prints; the text of each title and array header is the source's own. */
  datatype Shape =
      /** `if (tag_len < sizeof(*htt_stats_buf)) return;`, the title, then the struct's own lines. */
    | FixedStruct(title: string)
      /** The title and one `print_array_to_buf` of `tag_len >> 2` words, limited to the formatter's maximum when `clamped`. */
    | WordArray(title: string, header: string, clamped: bool)
    | CtrlPathArray(title: string)
    | PpduDistribution
    | WarCounters(title: string)
    | StringChunks(title: string)
    | MpduPerUser

  function ShapeOf(f: Formatter): Shape
  {
    match f
    case TxPdevStatsCmnTlv => FixedStruct("HTT_TX_PDEV_STATS_CMN_TLV:\n")
    case TxPdevStatsUrrnTlv => WordArray("HTT_TX_PDEV_STATS_URRN_TLV:\n", "urrn_stats", true)
    case TxPdevStatsSifsTlv => WordArray("HTT_TX_PDEV_STATS_SIFS_TLV:\n", "sifs_status", true)
    case TxPdevStatsFlushTlv => WordArray("HTT_TX_PDEV_STATS_FLUSH_TLV:\n", "flush_errs", true)
    case TxPdevStatsSifsHistTlv => WordArray("HTT_TX_PDEV_STATS_SIFS_HIST_TLV:\n", "sifs_hist_status", true)
    case PdevCtrlPathTxStatsTlv => CtrlPathArray("HTT_TX_PDEV_STATS_CTRL_PATH_TX_STATS:\n")
    case TxPdevMuPpduDistStatsTlv => PpduDistribution
    case StatsTxSchedCmnTlv => FixedStruct("HTT_STATS_TX_SCHED_CMN_TLV:\n")
    case TxPdevStatsSchedPerTxqTlv => FixedStruct("HTT_TX_PDEV_STATS_SCHED_PER_TXQ_TLV:\n")
    case SchedTxqCmdPostedTlv => WordArray("HTT_SCHED_TXQ_CMD_POSTED_TLV:\n", "sched_cmd_posted", false)
    case SchedTxqCmdReapedTlv => WordArray("HTT_SCHED_TXQ_CMD_REAPED_TLV:\n", "sched_cmd_reaped", false)
    case SchedTxqSchedOrderSuTlv => WordArray("HTT_SCHED_TXQ_SCHED_ORDER_SU_TLV:\n", "sched_order_su", true)
    case SchedTxqSchedIneligibilityTlv => WordArray("HTT_SCHED_TXQ_SCHED_INELIGIBILITY:\n", "sched_ineligibility", false)
    case SchedTxqSupercycleTriggerTlv => WordArray("HTT_SCHED_TXQ_SUPERCYCLE_TRIGGER:\n", "supercycle_triggers", true)
    case HwStatsPdevErrsTlv => FixedStruct("HTT_HW_STATS_PDEV_ERRS_TLV:\n")
    case HwStatsIntrMiscTlv => FixedStruct("HTT_HW_STATS_INTR_MISC_TLV:\n")
    case HwStatsWhalTxTlv => FixedStruct("HTT_HW_STATS_WHAL_TX_TLV:\n")
    case HwWarTlv => WarCounters("HTT_HW_WAR_STATS_TLV:\n")
    case TxTqmCmnStatsTlv => FixedStruct("HTT_TX_TQM_CMN_STATS_TLV:\n")
    case TxTqmErrorStatsTlv => FixedStruct("HTT_TX_TQM_ERROR_STATS_TLV:\n")
    case TxTqmGenMpduStatsTlv => WordArray("HTT_TX_TQM_GEN_MPDU_STATS_TLV:\n", "gen_mpdu_end_reason", false)
    case TxTqmListMpduStatsTlv => WordArray("HTT_TX_TQM_LIST_MPDU_STATS_TLV:\n", "list_mpdu_end_reason", true)
    case TxTqmListMpduCntTlv => WordArray("HTT_TX_TQM_LIST_MPDU_CNT_TLV_V:\n", "list_mpdu_cnt_hist", true)
    case TxTqmPdevStatsTlv => FixedStruct("HTT_TX_TQM_PDEV_STATS_TLV_V:\n")
    case TxDeCmnStatsTlv => FixedStruct("HTT_TX_DE_CMN_STATS_TLV:\n")
    case TxDeEapolPacketsStatsTlv => FixedStruct("HTT_TX_DE_EAPOL_PACKETS_STATS_TLV:\n")
    case TxDeClassifyStatsTlv => FixedStruct("HTT_TX_DE_CLASSIFY_STATS_TLV:\n")
    case TxDeClassifyFailedStatsTlv => FixedStruct("HTT_TX_DE_CLASSIFY_FAILED_STATS_TLV:\n")
    case TxDeClassifyStatusStatsTlv => FixedStruct("HTT_TX_DE_CLASSIFY_STATUS_STATS_TLV:\n")
    case TxDeEnqueuePacketsStatsTlv => FixedStruct("HTT_TX_DE_ENQUEUE_PACKETS_STATS_TLV:\n")
    case TxDeEnqueueDiscardStatsTlv => FixedStruct("HTT_TX_DE_ENQUEUE_DISCARD_STATS_TLV:\n")
    case TxDeComplStatsTlv => FixedStruct("HTT_TX_DE_COMPL_STATS_TLV:\n")
    case TxSelfgenCmnStatsTlv => FixedStruct("HTT_TX_SELFGEN_CMN_STATS_TLV:\n")
    case TxSelfgenAcStatsTlv => FixedStruct("HTT_TX_SELFGEN_AC_STATS_TLV:\n")
    case TxSelfgenAxStatsTlv => FixedStruct("HTT_TX_SELFGEN_AX_STATS_TLV:\n")
    case TxSelfgenBeStatsTlv => FixedStruct("HTT_TX_SELFGEN_BE_STATS_TLV:\n")
    case TxSelfgenAcErrStatsTlv => FixedStruct("HTT_TX_SELFGEN_AC_ERR_STATS_TLV:\n")
    case TxSelfgenAxErrStatsTlv => FixedStruct("HTT_TX_SELFGEN_AX_ERR_STATS_TLV:\n")
    case TxSelfgenBeErrStatsTlv => FixedStruct("HTT_TX_SELFGEN_BE_ERR_STATS_TLV:\n")
    case TxSelfgenAcSchedStatusStatsTlv => FixedStruct("HTT_TX_SELFGEN_AC_SCHED_STATUS_STATS_TLV:\n")
    case TxSelfgenAxSchedStatusStatsTlv => FixedStruct("HTT_TX_SELFGEN_AX_SCHED_STATUS_STATS_TLV:\n")
    case TxSelfgenBeSchedStatusStatsTlv => FixedStruct("HTT_TX_SELFGEN_BE_SCHED_STATUS_STATS_TLV:\n")
    case StatsStringTlv => StringChunks("HTT_STATS_STRING_TLV:\n")
    case SringStatsTlv => FixedStruct("HTT_SRING_STATS_TLV:\n")
    case SfmCmnTlv => FixedStruct("HTT_SFM_CMN_TLV:\n")
    case SfmClientTlv => FixedStruct("HTT_SFM_CLIENT_TLV:\n")
    case SfmClientUserTlv => WordArray("HTT_SFM_CLIENT_USER_TLV:\n", "dwords_used_by_user_n", false)
    case TxPdevMuMimoSchStatsTlv => FixedStruct("HTT_TX_PDEV_MU_MIMO_SCH_STATS_TLV:\n")
    case TxPdevMumimoGrpStatsTlv => FixedStruct("HTT_TX_PDEV_MUMIMO_GRP_STATS:\n")
    case TxPdevMuMimoMpduStatsTlv => MpduPerUser
    case PdevCcaStatsHistTlv => FixedStruct("HTT_PDEV_CCA_STATS_HIST_TLV :\n")
    case PdevStatsCcaCountersTlv => FixedStruct("HTT_PDEV_STATS_CCA_COUNTERS_TLV:(in usec)\n")
    case PdevObssPdStatsTlv => FixedStruct("HTT_PDEV_OBSS_PD_STATS_TLV:\n")
    case DmacResetStatsTlv => FixedStruct("HTT_DMAC_RESET_STATS_TLV:\n")
    case PdevSchedAlgoOfdmaStatsTlv => FixedStruct("HTT_PDEV_SCHED_ALGO_TLV:\n")
    case TxPdevRateStatsBeOfdmaTlv => FixedStruct("HTT_TX_PDEV_RATE_STATS_BE_OFDMA_TLV:\n")
  }

  /** Only tags outside the switch are ignored. */
  lemma DispatchUnknown(t: Tag)
    ensures Dispatch(t) == None <==> t == Other
  {
  }

  /** The three CCA histogram tags share one formatter. */
  lemma CcaTagsShareFormatter()
    ensures Dispatch(PdevCca1secHist) == Dispatch(PdevCca100msecHist) == Dispatch(PdevCcaStatCumulative)
            == Some(PdevCcaStatsHistTlv)
  {
  }

  /** A u32 word: TLV payload words are little-endian u32 values. */
  predicate U32Word(w: nat)
  {
    w < U32
  }

  /**
   * One record fed to the parse callback: its tag, its declared length
   * `tag_len` (a u16, in bytes) and its payload as whole u32 words. The
   * iterator that cuts records out of the message is not part of this model.
   */
  datatype Tlv = Tlv(tag: Tag, len: nat, payload: seq<nat>)

  predicate WfTlv(tlv: Tlv)
  {
    tlv.len < 0x1_0000 && |tlv.payload| == tlv.len / 4 &&
    forall i :: 0 <= i < |tlv.payload| ==> U32Word(tlv.payload[i])
  }

  /** Word offsets of the fields of `struct ath12k_htt_tx_pdev_mu_ppdu_dist_stats_tlv`. */
  datatype PpduLayout = PpduLayout(hwMode: nat, seqPosted: nat, ppduPosted: nat, ppduCmpl: nat, seqTerm: nat)

  /** Word offsets of the fields of `struct ath12k_htt_tx_pdev_mpdu_stats_tlv`. */
  datatype MpduLayout = MpduLayout(userIndex: nat, schedMode: nat, queued: nat, tried: nat, failed: nat,
                                   requeued: nat, errNoBa: nat, mpduUnderrun: nat, ampduUnderrun: nat)

  /** The constants of debugfs_htt_stats.h and of the struct layouts, which this model takes as parameters. */
  datatype Params = Params(
    bufSize: nat,                    // ATH12K_HTT_STATS_BUF_SIZE
    maxStringLen: nat,               // ATH12K_HTT_MAX_STRING_LEN
    sizeOf: Formatter -> nat,        // sizeof(*htt_stats_buf) of each formatter, in bytes
    arrayMax: Formatter -> nat,      // the limit of a clamped array formatter (HTT_TX_PDEV_MAX_URRN_STATS, ...)
    body: (Formatter, seq<nat>) -> seq<Piece>,  // what a fixed-struct formatter prints after its title
    macId: Bits.Field,               // ATH12K_HTT_STATS_MAC_ID
    subtypeMax: nat,                 // ATH12K_HTT_STATS_SUBTYPE_MAX
    hwModeAc: nat, hwModeAx: nat, hwModeBe: nat,      // ATH12K_HTT_STATS_HWMODE_*
    numNrBins: nat,                  // ATH12K_HTT_STATS_NUM_NR_BINS
    ppduPerBurst: nat,               // ATH12K_HTT_STATS_MAX_NUM_MU_PPDU_PER_BURST
    schedStatus: nat,                // ATH12K_HTT_STATS_MAX_NUM_SCHED_STATUS
    ppdu: PpduLayout,
    schedModeAc: nat, schedModeAx: nat, schedModeOfdma: nat,   // ATH12K_HTT_STATS_TX_SCHED_MODE_*
    acUsers: nat, axUsers: nat, ofdmaUsers: nat,               // ATH12K_HTT_TX_NUM_*_USER_STATS
    mpdu: MpduLayout,
    magic: nat,                      // ATH12K_HTT_STATS_MAGIC_VALUE
    cookieMsb: Bits.Field,           // ATH12K_HTT_STATS_COOKIE_MSB
    cookieLsb: Bits.Field,           // ATH12K_HTT_STATS_COOKIE_LSB
    infoDone: Bits.Field,            // ATH12K_HTT_T2H_EXT_STATS_INFO1_DONE
    infoLength: Bits.Field,          // ATH12K_HTT_T2H_EXT_STATS_INFO1_LENGTH
    typeReset: nat,                  // ATH12K_DBG_HTT_EXT_STATS_RESET
    numExtStats: nat,                // ATH12K_DBG_HTT_NUM_EXT_STATS
    resetStartOffset: nat,           // HTT_STAT_DEFAULT_RESET_START_OFFSET
    resetParam32: nat, resetParam64: nat, resetParam128: nat,  // ATH12K_HTT_STATS_RESET_PARAM_CFG_*_BYTES
    bitmap32Bit: nat -> nat,         // ATH12K_HTT_STATS_RESET_BITMAP32_BIT
    bitmap64Bit: nat -> nat,         // ATH12K_HTT_STATS_RESET_BITMAP64_BIT
    ruSizes: seq<nat>                // ATH12K_HTT_TX_RX_PDEV_STATS_BE_RU_SIZE_26 ... _996x4, in switch order
  )

  predicate PpduFits(p: Params)
  {
    var w := p.sizeOf(TxPdevMuPpduDistStatsTlv) / 4;
    p.ppdu.hwMode < w && p.ppdu.seqPosted + p.numNrBins <= w &&
    p.ppdu.ppduPosted + p.numNrBins * p.ppduPerBurst <= w &&
    p.ppdu.ppduCmpl + p.numNrBins * p.ppduPerBurst <= w &&
    p.ppdu.seqTerm + p.numNrBins * p.schedStatus <= w
  }

  /** What the `mu_ppdu_dist` formatter needs: non-empty bursts that fit its struct, and a local buffer. */
  predicate PpduReady(p: Params)
  {
    2 <= p.maxStringLen && 0 < p.numNrBins && 0 < p.ppduPerBurst && 0 < p.schedStatus && PpduFits(p)
  }

  predicate MpduFits(p: Params)
  {
    var w := p.sizeOf(TxPdevMuMimoMpduStatsTlv) / 4;
    var m := p.mpdu;
    m.userIndex < w && m.schedMode < w && m.queued < w && m.tried < w && m.failed < w &&
    m.requeued < w && m.errNoBa < w && m.mpduUnderrun < w && m.ampduUnderrun < w
  }

  /** What the model needs of the constants. */
  ghost predicate ValidParams(p: Params)
  {
    2 <= p.bufSize < U32 &&
    2 <= p.maxStringLen <= 0x100 &&
    (forall f :: p.sizeOf(f) % 4 == 0) &&
    (forall f :: p.arrayMax(f) < 0x1_0000) &&
    (forall f, ws :: WfPieces(p.body(f, ws))) &&
    4 * p.subtypeMax <= p.sizeOf(PdevCtrlPathTxStatsTlv) &&
    p.numNrBins < 0x100 && p.ppduPerBurst < 0x100 && p.schedStatus < 0x100 &&
    PpduReady(p) && MpduFits(p) && 4 <= p.sizeOf(HwWarTlv) &&
    // case labels of one switch are distinct
    p.hwModeAc != p.hwModeAx && p.hwModeAc != p.hwModeBe && p.hwModeAx != p.hwModeBe &&
    p.typeReset < p.numExtStats &&
    |p.ruSizes| == 16 && (forall i, j :: 0 <= i < j < |p.ruSizes| ==> p.ruSizes[i] != p.ruSizes[j])
  }
}
