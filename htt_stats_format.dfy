/**
 * What each formatter of debugfs_htt_stats.c appends for one record, as a
 * sequence of pieces (plain `scnprintf` lines and `print_array_to_buf`
 * blocks), and the text the parse callback leaves behind.
 *
 * The rendering of `%u` is `Dec`; the struct-specific lines of the fixed
 * struct formatters are the parameter `body`.
 */
module HttStatsFormat {
  import opened Wrappers
  import opened HttText
  import opened HttStatsTlv
  import Bits

  /** The element count of an array formatter: `tag_len >> 2`, limited by `min_t` when it clamps. */
  function ArrayCount(p: Params, f: Formatter, len: nat, clamped: bool): (n: nat)
    ensures n <= len / 4
    ensures clamped ==> n <= p.arrayMax(f) && (n == len / 4 || n == p.arrayMax(f))
    ensures !clamped ==> n == len / 4
  {
    if clamped then Min(len / 4, p.arrayMax(f)) else len / 4
  }

  /** A size-guarded fixed struct: nothing for a short record, else the title and the struct's lines. */
  function StructPieces(p: Params, f: Formatter, title: string, tlv: Tlv): (r: seq<Piece>)
    requires ValidParams(p) && WfTlv(tlv)
    ensures WfPieces(r)
    ensures tlv.len < p.sizeOf(f) <==> r == []
  {
    if tlv.len < p.sizeOf(f) then []
    else
      assert WfPieces(p.body(f, tlv.payload[..p.sizeOf(f) / 4]));
      [Line(title)] + p.body(f, tlv.payload[..p.sizeOf(f) / 4])
  }

  /** The title, then the first `ArrayCount` words as one array block ending in a blank line. */
  function ArrayPieces(p: Params, f: Formatter, title: string, header: string, clamped: bool, tlv: Tlv): (r: seq<Piece>)
    requires WfTlv(tlv)
    ensures WfPieces(r) && |r| == 2
    ensures r[1].Block? && r[1].start == 0 && r[1].values <= tlv.payload
  {
    [Line(title), Block(header, 0, tlv.payload[..ArrayCount(p, f, tlv.len, clamped)], "\n\n")]
  }

  /**
   * The control-path formatter with the guard on the record's length, as
   * every other guarded formatter has it. The guard as written tests the
   * accumulator offset instead; see `HttStatsFindings`.
   */
  function CtrlPathPieces(p: Params, title: string, tlv: Tlv): (r: seq<Piece>)
    requires ValidParams(p) && WfTlv(tlv)
    ensures WfPieces(r)
    ensures tlv.len < p.sizeOf(PdevCtrlPathTxStatsTlv) <==> r == []
    ensures r != [] ==> |r| == 2 && r[1].Block? && |r[1].values| == p.subtypeMax && r[1].values <= tlv.payload
  {
    if tlv.len < p.sizeOf(PdevCtrlPathTxStatsTlv) then []
    else [Line(title), Block("fw_tx_mgmt_subtype", 0, tlv.payload[..p.subtypeMax], "\n\n")]
  }

  // ---------------------------------------------------------------- mu_ppdu_dist

  /** The `switch (hw_mode)`: the title and the mode prefix of a known hardware mode. */
  function PpduMode(p: Params, hwMode: nat): (r: Option<(string, string)>)
    ensures r.Some? <==> hwMode == p.hwModeAc || hwMode == p.hwModeAx || hwMode == p.hwModeBe
  {
    if hwMode == p.hwModeAc then Some(("HTT_TX_PDEV_AC_MU_PPDU_DISTRIBUTION_STATS:\n", "ac"))
    else if hwMode == p.hwModeAx then Some(("HTT_TX_PDEV_AX_MU_PPDU_DISTRIBUTION_STATS:\n", "ax"))
    else if hwMode == p.hwModeBe then Some(("HTT_TX_PDEV_BE_MU_PPDU_DISTRIBUTION_STATS:\n", "be"))
    else None
  }

  /** Bin `i` of a per-bin array of `k` words at word offset `off`. */
  function Burst(w: seq<nat>, off: nat, i: nat, k: nat): (r: seq<nat>)
    requires off + (i + 1) * k <= |w|
    ensures |r| == k
  {
    assert (i + 1) * k == i * k + k;
    w[off + i * k .. off + i * k + k]
  }

  lemma BurstFits(off: nat, i: nat, n: nat, k: nat, len: nat)
    requires i < n && off + n * k <= len
    ensures off + (i + 1) * k <= len
  {
    Bits.MulMonotone(i + 1, n, k);
  }

  /**
   * `str_buf` after the inner loop and the NUL store over its last comma:
   * the elements `" j:value,"` with `j` from 0, clamped to the local buffer.
   */
  function BurstText(p: Params, vs: seq<nat>): (r: string)
    requires 2 <= p.maxStringLen && |vs| > 0
    ensures |r| < p.maxStringLen - 1
  {
    ElemsNonEmpty(0, vs);
    DropLast(Put("", p.maxStringLen, Elems(0, vs)))
  }

  /** The four lines of one bin, from the bin's number, its posted count and its three burst texts. */
  function BinLines(mode: string, nr: string, posted: nat, ppduPosted: string, ppduCompleted: string,
                    seqTerm: string): (r: seq<string>)
    ensures |r| == 4
  {
    [ mode + "_mu_mimo_num_seq_posted_nr" + nr + " = " + Dec(posted) + "\n",
      mode + "_mu_mimo_num_ppdu_posted_per_burst_nr" + nr + " = " + ppduPosted + "\n",
      mode + "_mu_mimo_num_ppdu_completed_per_burst_nr" + nr + " = " + ppduCompleted + "\n",
      mode + "_mu_mimo_num_seq_term_status_nr" + nr + " = " + seqTerm + "\n\n" ]
  }

  /** The four lines of bin `i` (`nr` is `(i + 1) * 4`). */
  function PpduBinLines(p: Params, mode: string, w: seq<nat>, i: nat): (r: seq<string>)
    requires PpduReady(p) && i < p.numNrBins && p.sizeOf(TxPdevMuPpduDistStatsTlv) / 4 <= |w|
    ensures |r| == 4
  {
    var l := p.ppdu;
    BurstFits(l.ppduPosted, i, p.numNrBins, p.ppduPerBurst, |w|);
    BurstFits(l.ppduCmpl, i, p.numNrBins, p.ppduPerBurst, |w|);
    BurstFits(l.seqTerm, i, p.numNrBins, p.schedStatus, |w|);
    BinLines(mode, Dec((i + 1) * 4), w[l.seqPosted + i],
             BurstText(p, Burst(w, l.ppduPosted, i, p.ppduPerBurst)),
             BurstText(p, Burst(w, l.ppduCmpl, i, p.ppduPerBurst)),
             BurstText(p, Burst(w, l.seqTerm, i, p.schedStatus)))
  }

  /** The lines of the first `n` bins. */
  function PpduLines(p: Params, mode: string, w: seq<nat>, n: nat): (r: seq<string>)
    requires PpduReady(p) && n <= p.numNrBins && p.sizeOf(TxPdevMuPpduDistStatsTlv) / 4 <= |w|
    ensures |r| == 4 * n
  {
    if n == 0 then [] else PpduLines(p, mode, w, n - 1) + PpduBinLines(p, mode, w, n - 1)
  }

  lemma PpduLinesSnoc(p: Params, mode: string, w: seq<nat>, i: nat)
    requires PpduReady(p) && i < p.numNrBins && p.sizeOf(TxPdevMuPpduDistStatsTlv) / 4 <= |w|
    ensures PpduLines(p, mode, w, i + 1) == PpduLines(p, mode, w, i) + PpduBinLines(p, mode, w, i)
  {
  }

  /** `htt_print_tx_pdev_mu_ppdu_dist_stats_tlv`: guard, `u8 hw_mode`, title, then every bin. */
  function PpduText(p: Params, tlv: Tlv): (r: seq<string>)
    requires ValidParams(p) && WfTlv(tlv)
  {
    var sz := p.sizeOf(TxPdevMuPpduDistStatsTlv);
    if tlv.len < sz then []
    else
      match PpduMode(p, tlv.payload[p.ppdu.hwMode] % 0x100)
      case None => []
      case Some((title, mode)) => [title] + PpduLines(p, mode, tlv.payload, p.numNrBins)
  }

  // ---------------------------------------------------------------- hw_war

  /** `u8 array_words = (u16)(tag_len - sizeof) >> 2`: the counter count wraps modulo 256. */
  function WarCount(p: Params, len: nat): (n: nat)
    requires p.sizeOf(HwWarTlv) <= len < 0x1_0000
    ensures n < 0x100
    ensures n == (len - p.sizeOf(HwWarTlv)) / 4 || (len - p.sizeOf(HwWarTlv)) / 4 >= 0x100
  {
    ((len - p.sizeOf(HwWarTlv)) / 4) % 0x100
  }

  /** `hw_war <i> = <value>` for the first `n` words of the variable tail at word `base`. */
  function WarLines(w: seq<nat>, base: nat, n: nat): (r: seq<string>)
    requires base + n <= |w|
    ensures |r| == n
  {
    if n == 0 then []
    else WarLines(w, base, n - 1) + ["hw_war " + Dec(n - 1) + " = " + Dec(w[base + n - 1]) + "\n\n"]
  }

  lemma WarLinesSnoc(w: seq<nat>, base: nat, i: nat)
    requires base + i < |w|
    ensures WarLines(w, base, i + 1) == WarLines(w, base, i) + ["hw_war " + Dec(i) + " = " + Dec(w[base + i]) + "\n\n"]
  {
  }

  /** `ath12k_htt_print_hw_war_tlv`: guard, title, mac id of word 0, then the tail words after the fixed part. */
  function WarText(p: Params, title: string, tlv: Tlv): (r: seq<string>)
    requires ValidParams(p) && WfTlv(tlv)
    ensures tlv.len < p.sizeOf(HwWarTlv) <==> r == []
    ensures r != [] ==> |r| == 2 + WarCount(p, tlv.len)
  {
    var sz := p.sizeOf(HwWarTlv);
    if tlv.len < sz then []
    else
      var n := WarCount(p, tlv.len);
      assert sz / 4 + n <= tlv.len / 4;
      [title, "mac_id = " + Dec(Bits.Get(tlv.payload[0], p.macId)) + "\n"] + WarLines(tlv.payload, sz / 4, n)
  }

  lemma WarTextLines(p: Params, title: string, tlv: Tlv)
    requires ValidParams(p) && WfTlv(tlv) && p.sizeOf(HwWarTlv) <= tlv.len
    ensures p.sizeOf(HwWarTlv) / 4 + WarCount(p, tlv.len) <= |tlv.payload|
    ensures WarText(p, title, tlv)
         == [title, "mac_id = " + Dec(Bits.Get(tlv.payload[0], p.macId)) + "\n"]
            + WarLines(tlv.payload, p.sizeOf(HwWarTlv) / 4, WarCount(p, tlv.len))
  {
  }

  // ---------------------------------------------------------------- stats string

  function ByteChar(b: nat): (c: char)
    requires b < 0x100
  {
    b as char
  }

  /** Byte `k` of a little-endian u32 word. */
  function WordByte(w: nat, k: nat): (r: nat)
    ensures r < 0x100
  {
    (w / Bits.Pow2(8 * k)) % 0x100
  }

  /** The characters of bytes `k..3` of `w` before the first NUL. */
  function ChunkFrom(w: nat, k: nat): (r: string)
    requires k <= 4
    ensures CStr(r) && |r| <= 4 - k
    decreases 4 - k
  {
    if k == 4 || WordByte(w, k) == 0 then ""
    else [ByteChar(WordByte(w, k))] + ChunkFrom(w, k + 1)
  }

  /** `"%.*s", 4, (char *)&datum`: at most four bytes of the word, stopping at a NUL. */
  function Chunk(w: nat): (r: string)
    ensures CStr(r) && |r| <= 4
  {
    ChunkFrom(w, 0)
  }

  function Chunks(ws: seq<nat>): (r: seq<string>)
    ensures |r| == |ws| && AllCStr(r)
  {
    if |ws| == 0 then []
    else
      var c := Chunk(ws[|ws| - 1]);
      assert AllCStr([c]) by { assert [c][0] == c; }
      AllCStrAppend(Chunks(ws[..|ws| - 1]), [c]);
      Chunks(ws[..|ws| - 1]) + [c]
  }

  lemma ChunksSnoc(ws: seq<nat>, i: nat)
    requires i < |ws|
    ensures Chunks(ws[..i + 1]) == Chunks(ws[..i]) + [Chunk(ws[i])]
  {
    assert ws[..i + 1][..i] == ws[..i];
  }

  /** The local `data[ATH12K_HTT_MAX_STRING_LEN]` after every word's chunk is appended to it. */
  function StringData(p: Params, ws: seq<nat>): (r: string)
    requires 2 <= p.maxStringLen
    ensures CStr(r) && |r| < p.maxStringLen
  {
    ConcatCStr(Chunks(ws));
    var r := Put("", p.maxStringLen, Concat(Chunks(ws)));
    PrefixCStr(Concat(Chunks(ws)), |r|);
    r
  }

  /** `ath12k_htt_print_stats_string_tlv`: the title and one `data = ...` line. */
  function StringText(p: Params, title: string, tlv: Tlv): (r: seq<string>)
    requires 2 <= p.maxStringLen
    ensures |r| == 2
  {
    [title, "data = " + StringData(p, tlv.payload) + "\n\n"]
  }

  // ---------------------------------------------------------------- mu_mimo_mpdu

  /** The seven per-user lines: `<prefix>_<counter>_usr_<user> = <value>`. */
  function MpduUserLines(p: Params, prefix: string, w: seq<nat>): (r: seq<string>)
    requires MpduFits(p) && p.sizeOf(TxPdevMuMimoMpduStatsTlv) / 4 <= |w|
    ensures |r| == 7
  {
    var m := p.mpdu;
    var u := Dec(w[m.userIndex]);
    [ prefix + "_mpdus_queued_usr_" + u + " = " + Dec(w[m.queued]) + "\n",
      prefix + "_mpdus_tried_usr_" + u + " = " + Dec(w[m.tried]) + "\n",
      prefix + "_mpdus_failed_usr_" + u + " = " + Dec(w[m.failed]) + "\n",
      prefix + "_mpdus_requeued_usr_" + u + " = " + Dec(w[m.requeued]) + "\n",
      prefix + "_err_no_ba_usr_" + u + " = " + Dec(w[m.errNoBa]) + "\n",
      prefix + "_mpdu_underrun_usr_" + u + " = " + Dec(w[m.mpduUnderrun]) + "\n",
      prefix + "_ampdu_underrun_usr_" + u + " = " + Dec(w[m.ampduUnderrun]) + "\n\n" ]
  }

  /** One `if (tx_sched_mode == mode)` block: a title for user 0, the user's lines below the user limit. */
  function MpduBranch(p: Params, w: seq<nat>, mode: nat, users: nat, title: string, prefix: string): (r: seq<string>)
    requires MpduFits(p) && p.sizeOf(TxPdevMuMimoMpduStatsTlv) / 4 <= |w|
    ensures w[p.mpdu.schedMode] != mode ==> r == []
    ensures w[p.mpdu.schedMode] == mode ==>
      |r| == (if w[p.mpdu.userIndex] == 0 then 1 else 0) + (if w[p.mpdu.userIndex] < users then 7 else 0)
  {
    if w[p.mpdu.schedMode] != mode then []
    else
      var u := w[p.mpdu.userIndex];
      (if u == 0 then [title] else []) + (if u < users then MpduUserLines(p, prefix, w) else [])
  }

  function MpduAc(p: Params, w: seq<nat>): (r: seq<string>)
    requires MpduFits(p) && p.sizeOf(TxPdevMuMimoMpduStatsTlv) / 4 <= |w|
  {
    MpduBranch(p, w, p.schedModeAc, p.acUsers, "HTT_TX_PDEV_MU_MIMO_AC_MPDU_STATS:\n", "ac_mu_mimo")
  }

  function MpduAx(p: Params, w: seq<nat>): (r: seq<string>)
    requires MpduFits(p) && p.sizeOf(TxPdevMuMimoMpduStatsTlv) / 4 <= |w|
  {
    MpduBranch(p, w, p.schedModeAx, p.axUsers, "HTT_TX_PDEV_MU_MIMO_AX_MPDU_STATS:\n", "ax_mu_mimo")
  }

  function MpduOfdma(p: Params, w: seq<nat>): (r: seq<string>)
    requires MpduFits(p) && p.sizeOf(TxPdevMuMimoMpduStatsTlv) / 4 <= |w|
  {
    MpduBranch(p, w, p.schedModeOfdma, p.ofdmaUsers, "HTT_TX_PDEV_AX_MU_OFDMA_MPDU_STATS:\n", "ax_mu_ofdma")
  }

  /** `ath12k_htt_print_tx_pdev_mu_mimo_mpdu_stats_tlv`: guard, then the three independent mode blocks. */
  function MpduText(p: Params, tlv: Tlv): (r: seq<string>)
    requires ValidParams(p) && WfTlv(tlv)
    ensures tlv.len < p.sizeOf(TxPdevMuMimoMpduStatsTlv) ==> r == []
  {
    if tlv.len < p.sizeOf(TxPdevMuMimoMpduStatsTlv) then []
    else MpduAc(p, tlv.payload) + MpduAx(p, tlv.payload) + MpduOfdma(p, tlv.payload)
  }

  // ---------------------------------------------------------------- dispatch

  /** What formatter `f` appends for record `tlv`. */
  function FormatPieces(p: Params, f: Formatter, tlv: Tlv): (r: seq<Piece>)
    requires ValidParams(p) && WfTlv(tlv)
    ensures WfPieces(r)
  {
    ShapePieces(p, f, ShapeOf(f), tlv)
  }

  /** What a formatter of shape `s` appends for record `tlv`. */
  function ShapePieces(p: Params, f: Formatter, s: Shape, tlv: Tlv): (r: seq<Piece>)
    requires ValidParams(p) && WfTlv(tlv)
    ensures WfPieces(r)
  {
    match s
    case FixedStruct(title) => StructPieces(p, f, title, tlv)
    case WordArray(title, header, clamped) => ArrayPieces(p, f, title, header, clamped, tlv)
    case CtrlPathArray(title) => CtrlPathPieces(p, title, tlv)
    case PpduDistribution => Lines(PpduText(p, tlv))
    case WarCounters(title) => Lines(WarText(p, title, tlv))
    case StringChunks(title) => Lines(StringText(p, title, tlv))
    case MpduPerUser => Lines(MpduText(p, tlv))
  }

  /** The text after `ath12k_dbg_htt_ext_stats_parse` handles `tlv` on a buffer holding `t`. */
  function FormatText(p: Params, t: string, tlv: Tlv): (r: string)
    requires ValidParams(p) && WfTlv(tlv) && |t| < p.bufSize
    ensures |r| < p.bufSize
  {
    match Dispatch(tlv.tag)
    case None => t
    case Some(f) => Emit(t, p.bufSize, FormatPieces(p, f, tlv))
  }

  // ---------------------------------------------------------------- properties

  /** A tag outside the switch leaves the text as it was. */
  lemma UnknownTagNoop(p: Params, t: string, tlv: Tlv)
    requires ValidParams(p) && WfTlv(tlv) && |t| < p.bufSize
    ensures FormatText(p, t, tlv) == t <== tlv.tag == Other
  {
  }

  /** A fixed-struct formatter prints nothing for a record shorter than its struct. */
  lemma ShortStructNoop(p: Params, f: Formatter, title: string, tlv: Tlv)
    requires ValidParams(p) && WfTlv(tlv)
    requires ShapeOf(f) == FixedStruct(title) && tlv.len < p.sizeOf(f)
    ensures FormatPieces(p, f, tlv) == []
  {
  }

  /** So do the other formatters with a `sizeof` guard. */
  lemma ShortCtrlPathNoop(p: Params, tlv: Tlv)
    requires ValidParams(p) && WfTlv(tlv) && tlv.len < p.sizeOf(PdevCtrlPathTxStatsTlv)
    ensures FormatPieces(p, PdevCtrlPathTxStatsTlv, tlv) == []
  {
  }

  lemma ShortPpduNoop(p: Params, tlv: Tlv)
    requires ValidParams(p) && WfTlv(tlv) && tlv.len < p.sizeOf(TxPdevMuPpduDistStatsTlv)
    ensures FormatPieces(p, TxPdevMuPpduDistStatsTlv, tlv) == []
  {
  }

  lemma ShortWarNoop(p: Params, tlv: Tlv)
    requires ValidParams(p) && WfTlv(tlv) && tlv.len < p.sizeOf(HwWarTlv)
    ensures FormatPieces(p, HwWarTlv, tlv) == []
  {
    assert ShapeOf(HwWarTlv) == WarCounters("HTT_HW_WAR_STATS_TLV:\n");
    assert WarText(p, "HTT_HW_WAR_STATS_TLV:\n", tlv) == [];
    assert |Lines([])| == 0;
  }

  lemma ShortMpduNoop(p: Params, tlv: Tlv)
    requires ValidParams(p) && WfTlv(tlv) && tlv.len < p.sizeOf(TxPdevMuMimoMpduStatsTlv)
    ensures FormatPieces(p, TxPdevMuMimoMpduStatsTlv, tlv) == []
  {
    assert ShapeOf(TxPdevMuMimoMpduStatsTlv) == MpduPerUser;
    assert MpduText(p, tlv) == [];
    assert |Lines([])| == 0;
  }

  /** A fixed struct that passes its guard always prints its title first. */
  lemma StructPrintsTitle(p: Params, f: Formatter, title: string, tlv: Tlv)
    requires ValidParams(p) && WfTlv(tlv)
    requires ShapeOf(f) == FixedStruct(title) && p.sizeOf(f) <= tlv.len
    ensures |FormatPieces(p, f, tlv)| > 0 && FormatPieces(p, f, tlv)[0] == Line(title)
  {
  }

  /**
   * An array formatter prints exactly the first `n` words with indices from
   * 0, where `n` is `min(tag_len >> 2, MAX)` for the clamped ones and
   * `tag_len >> 2` for the others.
   */
  lemma ArrayElements(p: Params, f: Formatter, title: string, header: string, clamped: bool, tlv: Tlv)
    requires ValidParams(p) && WfTlv(tlv)
    requires ShapeOf(f) == WordArray(title, header, clamped)
    ensures var r := FormatPieces(p, f, tlv);
      |r| == 2 && r[0] == Line(title) && r[1].Block? && r[1].header == header && r[1].start == 0 &&
      r[1].footer == "\n\n" && r[1].values <= tlv.payload && |r[1].values| == ArrayCount(p, f, tlv.len, clamped)
  {
  }

  /** `mu_ppdu_dist` prints nothing for a hardware mode outside the switch. */
  lemma PpduUnknownModeNoop(p: Params, tlv: Tlv)
    requires ValidParams(p) && WfTlv(tlv) && p.sizeOf(TxPdevMuPpduDistStatsTlv) <= tlv.len
    ensures PpduText(p, tlv) == [] <==> PpduMode(p, tlv.payload[p.ppdu.hwMode] % 0x100).None?
    ensures PpduMode(p, tlv.payload[p.ppdu.hwMode] % 0x100).Some? ==> |PpduText(p, tlv)| == 1 + 4 * p.numNrBins
  {
  }

  /**
   * When the local buffer has room, a burst is its elements separated by
   * commas: the NUL store removes exactly the trailing comma.
   */
  lemma BurstTextFits(p: Params, vs: seq<nat>)
    requires 2 <= p.maxStringLen && |vs| > 0 && |Elems(0, vs)| < p.maxStringLen
    ensures BurstText(p, vs) == Joined(ElemPieces(0, vs))
  {
    ConcatJoined(ElemPieces(0, vs));
  }

  /** With distinct scheduler modes at most one of the three `mu_mimo_mpdu` blocks prints. */
  lemma MpduOneMode(p: Params, tlv: Tlv)
    requires ValidParams(p) && WfTlv(tlv) && p.sizeOf(TxPdevMuMimoMpduStatsTlv) <= tlv.len
    requires p.schedModeAc != p.schedModeAx && p.schedModeAc != p.schedModeOfdma && p.schedModeAx != p.schedModeOfdma
    ensures var w := tlv.payload;
      (MpduAc(p, w) != [] ==> MpduText(p, tlv) == MpduAc(p, w)) &&
      (MpduAx(p, w) != [] ==> MpduText(p, tlv) == MpduAx(p, w)) &&
      (MpduOfdma(p, w) != [] ==> MpduText(p, tlv) == MpduOfdma(p, w))
  {
    var w := tlv.payload;
    if MpduAc(p, w) != [] {
      assert MpduText(p, tlv) == MpduAc(p, w) + [] + [];
    } else if MpduAx(p, w) != [] {
      assert MpduText(p, tlv) == [] + MpduAx(p, w) + [];
    } else if MpduOfdma(p, w) != [] {
      assert MpduText(p, tlv) == [] + [] + MpduOfdma(p, w);
    }
  }

  /** In a mode block the title appears only for user 0, and a user at or past the limit prints no counters. */
  lemma MpduBranchUsers(p: Params, w: seq<nat>, mode: nat, users: nat, title: string, prefix: string)
    requires MpduFits(p) && p.sizeOf(TxPdevMuMimoMpduStatsTlv) / 4 <= |w|
    requires w[p.mpdu.schedMode] == mode
    ensures var r := MpduBranch(p, w, mode, users, title, prefix);
      (w[p.mpdu.userIndex] == 0 <==> |r| > 0 && r[0] == title && (|r| == 1 || |r| == 8)) &&
      (users <= w[p.mpdu.userIndex] ==> |r| <= 1)
  {
    var r := MpduBranch(p, w, mode, users, title, prefix);
    var u := w[p.mpdu.userIndex];
    if u != 0 && u < users {
      assert |r| == 7;
    }
  }

  /**
   * `hw_war`: a tail of 256 words wraps the u8 word count to 0, so only the
   * title and the mac id line are printed.
   */
  lemma WarCountWraps(p: Params, title: string, tlv: Tlv)
    requires ValidParams(p) && WfTlv(tlv) && tlv.len == p.sizeOf(HwWarTlv) + 4 * 0x100
    ensures WarCount(p, tlv.len) == 0 && |WarText(p, title, tlv)| == 2
  {
  }

  /** Below 256 tail words every word gets its line. */
  lemma WarCountExact(p: Params, tlv: Tlv)
    requires ValidParams(p) && WfTlv(tlv) && p.sizeOf(HwWarTlv) <= tlv.len
    requires tlv.len < p.sizeOf(HwWarTlv) + 4 * 0x100
    ensures WarCount(p, tlv.len) == (tlv.len - p.sizeOf(HwWarTlv)) / 4
  {
  }

  /**
   * The string data never fills its buffer, so `index >= MAX_STRING_LEN`
   * never holds; it is the words' chunks in order, cut at `MAX_STRING_LEN - 1`.
   */
  lemma StringDataBound(p: Params, ws: seq<nat>)
    requires 2 <= p.maxStringLen
    ensures |StringData(p, ws)| <= p.maxStringLen - 1
    ensures StringData(p, ws) <= Concat(Chunks(ws))
    ensures |Concat(Chunks(ws))| < p.maxStringLen ==> StringData(p, ws) == Concat(Chunks(ws))
  {
    PutIsPrefixOfFullText("", p.maxStringLen, Concat(Chunks(ws)));
  }

  /** A chunk is the word's bytes up to the first NUL, and all four of them when none is NUL. */
  lemma ChunkNoNul(w: nat)
    requires forall k :: 0 <= k < 4 ==> WordByte(w, k) != 0
    ensures Chunk(w) == [ByteChar(WordByte(w, 0)), ByteChar(WordByte(w, 1)), ByteChar(WordByte(w, 2)), ByteChar(WordByte(w, 3))]
  {
    assert WordByte(w, 0) != 0 && WordByte(w, 1) != 0 && WordByte(w, 2) != 0 && WordByte(w, 3) != 0;
  }

  /** A known tag never moves text already written, except for the byte a full buffer's array block overwrites. */
  lemma FormatKeepsText(p: Params, t: string, tlv: Tlv)
    requires ValidParams(p) && WfTlv(tlv) && 0 < |t| < p.bufSize
    ensures |FormatText(p, t, tlv)| >= |t|
    ensures t[..|t| - 1] <= FormatText(p, t, tlv)
  {
    match Dispatch(tlv.tag) {
      case None =>
      case Some(f) => EmitKeepsText(t, p.bufSize, FormatPieces(p, f, tlv));
    }
  }

  // ---------------------------------------------------------------- RU sizes

  const RuSizeNames: seq<string> :=
    ["26", "52", "52+26", "106", "106+26", "242", "484", "484+242",
     "996", "996+484", "996+484+242", "996x2", "996x2+484", "996x3", "996x3+484", "996x4"]

  /** The first position from `k` on whose code is `code`, if any. */
  function RuIndexFrom(codes: seq<nat>, code: nat, k: nat): (r: Option<nat>)
    requires k <= |codes|
    ensures r.Some? ==> k <= r.value < |codes| && codes[r.value] == code &&
                        forall j :: k <= j < r.value ==> codes[j] != code
    ensures r.None? ==> forall j :: k <= j < |codes| ==> codes[j] != code
    decreases |codes| - k
  {
    if k == |codes| then None
    else if codes[k] == code then Some(k)
    else RuIndexFrom(codes, code, k + 1)
  }

  /** `ath12k_htt_be_tx_rx_ru_size_to_str(u8 ru_size)`. */
  function RuSizeToStr(p: Params, ruSize: nat): string
    requires ValidParams(p)
  {
    match RuIndexFrom(p.ruSizes, ruSize % 0x100, 0)
    case Some(i) => RuSizeNames[i]
    case None => "unknown"
  }

  /** Each RU size code names its own size; any other value is "unknown". */
  lemma RuSizeToStrSpec(p: Params, ruSize: nat)
    requires ValidParams(p)
    ensures forall i :: 0 <= i < 16 && p.ruSizes[i] == ruSize % 0x100 ==> RuSizeToStr(p, ruSize) == RuSizeNames[i]
    ensures (forall i :: 0 <= i < 16 ==> p.ruSizes[i] != ruSize % 0x100) ==> RuSizeToStr(p, ruSize) == "unknown"
  {
  }

  /** Distinct sizes get distinct names, none of them "unknown". */
  lemma RuSizeNamesDistinct()
    ensures forall i, j :: 0 <= i < j < |RuSizeNames| ==> RuSizeNames[i] != RuSizeNames[j]
    ensures "unknown" !in RuSizeNames
  {
  }
}
