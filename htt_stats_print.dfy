/**
 * The formatters of debugfs_htt_stats.c as methods on the request buffer:
 * each reads `stats_req->buf_len` into a local `len`, appends through
 * `scnprintf` and `print_array_to_buf`, and writes `len` back. Each is proved
 * to leave the text `HttStatsFormat` describes.
 */
module HttStatsPrint {
  import opened Wrappers
  import opened HttText
  import opened HttStatsTlv
  import opened HttStatsFormat
  import opened HttStatsBuf
  import Bits

  /** A request buffer of `ATH12K_HTT_STATS_BUF_SIZE` bytes. */
  ghost predicate Ready(p: Params, b: StatsBuf)
    reads b
  {
    ValidParams(p) && b.Valid() && b.data.Length == p.bufSize
  }

  /** A size-guarded fixed-struct formatter such as `htt_print_tx_pdev_stats_cmn_tlv`. */
  method PrintStruct(p: Params, f: Formatter, title: string, b: StatsBuf, tlv: Tlv)
    requires Ready(p, b) && WfTlv(tlv)
    modifies b, b.data
    ensures b.Valid()
    ensures b.Text() == Emit(old(b.Text()), p.bufSize, StructPieces(p, f, title, tlv))
  {
    var len := b.len;
    if tlv.len < p.sizeOf(f) {
      return;
    }
    len := EmitPieces(b.data, len, StructPieces(p, f, title, tlv));
    b.len := len;
  }

  /** The title line, then one array block: the text of a two-piece formatter. */
  lemma EmitTwo(t: string, cap: nat, a: Piece, c: Piece)
    requires |t| < cap && 2 <= cap && WfPiece(a) && WfPiece(c)
    ensures Emit(t, cap, [a, c]) == Step(Step(t, cap, a), cap, c)
  {
    var ac := [a, c];
    assert ac[..1] == [a] && ac[1] == c;
    assert [a][..0] == [] && [a][0] == a;
    assert Emit(t, cap, [a]) == Step(t, cap, a);
  }

  /** The title line, then one `print_array_to_buf` of the first `n` words ending in a blank line. */
  method PrintTitledArray(buf: array<char>, len: nat, title: string, header: string, words: seq<nat>, n: nat)
    returns (len': nat)
    requires 2 <= buf.Length && len < buf.Length && n <= |words|
    modifies buf
    ensures len' < buf.Length
    ensures buf[..len'] == Emit(old(buf[..len]), buf.Length, [Line(title), Block(header, 0, words[..n], "\n\n")])
  {
    len' := Append(buf, len, title);
    var k := PrintArrayToBuf(buf, len', header, words, n, "\n\n");
    len' := len' + k;
    EmitTwo(old(buf[..len]), buf.Length, Line(title), Block(header, 0, words[..n], "\n\n"));
  }

  /** An array formatter such as `htt_print_tx_pdev_stats_urrn_tlv` (clamped) or `ath12k_htt_print_sched_txq_cmd_posted_tlv`. */
  method PrintArray(p: Params, f: Formatter, title: string, header: string, clamped: bool, b: StatsBuf, tlv: Tlv)
    requires Ready(p, b) && WfTlv(tlv)
    modifies b, b.data
    ensures b.Valid()
    ensures b.Text() == Emit(old(b.Text()), p.bufSize, ArrayPieces(p, f, title, header, clamped, tlv))
  {
    var numElems := ArrayCount(p, f, tlv.len, clamped);
    var len := PrintTitledArray(b.data, b.len, title, header, tlv.payload, numElems);
    b.len := len;
  }

  /** `htt_print_pdev_ctrl_path_tx_stats_tlv`, with its guard on `tag_len`. */
  method PrintCtrlPath(p: Params, title: string, b: StatsBuf, tlv: Tlv)
    requires Ready(p, b) && WfTlv(tlv)
    modifies b, b.data
    ensures b.Valid()
    ensures b.Text() == Emit(old(b.Text()), p.bufSize, CtrlPathPieces(p, title, tlv))
  {
    if tlv.len < p.sizeOf(PdevCtrlPathTxStatsTlv) {
      return;
    }
    var len := PrintTitledArray(b.data, b.len, title, "fw_tx_mgmt_subtype", tlv.payload, p.subtypeMax);
    b.len := len;
  }

  /** One more line appended: the appended sequence grows by it. */
  method AppendLine(buf: array<char>, len: nat, s: string, ghost t: string, ghost ls: seq<string>) returns (len': nat)
    requires len < buf.Length && |t| < buf.Length
    requires buf[..len] == Put(t, buf.Length, Concat(ls))
    modifies buf
    ensures len' < buf.Length
    ensures buf[..len'] == Put(t, buf.Length, Concat(ls + [s]))
  {
    len' := Append(buf, len, s);
    PutSnoc(t, buf.Length, ls, s);
  }

  /** Several lines appended in order: the appended sequence grows by all of them. */
  method AppendLines(buf: array<char>, len: nat, lines: seq<string>, ghost t: string, ghost ls: seq<string>)
    returns (len': nat)
    requires 2 <= buf.Length && len < buf.Length && |t| < buf.Length
    requires buf[..len] == Put(t, buf.Length, Concat(ls))
    modifies buf
    ensures len' < buf.Length
    ensures buf[..len'] == Put(t, buf.Length, Concat(ls + lines))
  {
    len' := EmitPieces(buf, len, Lines(lines));
    EmitLines(old(buf[..len]), buf.Length, lines);
    PutPut(t, buf.Length, Concat(ls), Concat(lines));
    ConcatJoin(ls, lines);
  }

  /**
   * One inner loop of `mu_ppdu_dist`: the zeroed local `str_buf`, one
   * `" %u:%u,"` per word, and the NUL store over the last comma.
   */
  method BurstToStr(p: Params, vs: seq<nat>) returns (s: string)
    requires 2 <= p.maxStringLen && |vs| > 0
    ensures s == BurstText(p, vs)
  {
    var strBuf := new char[p.maxStringLen](_ => '\0');
    var strBufLen := PrintElems(strBuf, 0, 0, vs, |vs|);
    assert vs[..|vs|] == vs;
    ElemsNonEmpty(0, vs);
    // To overwrite the last trailing comma
    strBuf[strBufLen - 1] := '\0';
    s := strBuf[..strBufLen - 1];
  }

  /** The four lines of one bin of `mu_ppdu_dist`. */
  method PrintPpduBin(p: Params, buf: array<char>, len: nat, mode: string, w: seq<nat>, i: nat,
                      ghost t: string, ghost ls: seq<string>) returns (len': nat)
    requires PpduReady(p) && i < p.numNrBins && p.sizeOf(TxPdevMuPpduDistStatsTlv) / 4 <= |w|
    requires 2 <= buf.Length && len < buf.Length && |t| < buf.Length
    requires buf[..len] == Put(t, buf.Length, Concat(ls))
    modifies buf
    ensures len' < buf.Length
    ensures buf[..len'] == Put(t, buf.Length, Concat(ls + PpduBinLines(p, mode, w, i)))
  {
    var l := p.ppdu;
    BurstFits(l.ppduPosted, i, p.numNrBins, p.ppduPerBurst, |w|);
    BurstFits(l.ppduCmpl, i, p.numNrBins, p.ppduPerBurst, |w|);
    BurstFits(l.seqTerm, i, p.numNrBins, p.schedStatus, |w|);
    var posted := BurstToStr(p, Burst(w, l.ppduPosted, i, p.ppduPerBurst));
    var completed := BurstToStr(p, Burst(w, l.ppduCmpl, i, p.ppduPerBurst));
    var term := BurstToStr(p, Burst(w, l.seqTerm, i, p.schedStatus));
    var lines := BinLines(mode, Dec((i + 1) * 4), w[l.seqPosted + i], posted, completed, term);
    len' := AppendLines(buf, len, lines, t, ls);
  }

  /** The bin loop of `mu_ppdu_dist`. */
  method PrintPpduBins(p: Params, buf: array<char>, len: nat, mode: string, w: seq<nat>) returns (len': nat)
    requires PpduReady(p) && p.sizeOf(TxPdevMuPpduDistStatsTlv) / 4 <= |w|
    requires 2 <= buf.Length && len < buf.Length
    modifies buf
    ensures len' < buf.Length
    ensures buf[..len'] == Put(old(buf[..len]), buf.Length, Concat(PpduLines(p, mode, w, p.numNrBins)))
  {
    ghost var t := buf[..len];
    len' := len;
    var i := 0;
    assert Put(t, buf.Length, Concat(PpduLines(p, mode, w, 0))) == t;
    while i < p.numNrBins
      invariant i <= p.numNrBins && len' < buf.Length
      invariant buf[..len'] == Put(t, buf.Length, Concat(PpduLines(p, mode, w, i)))
    {
      len' := PrintPpduBin(p, buf, len', mode, w, i, t, PpduLines(p, mode, w, i));
      PpduLinesSnoc(p, mode, w, i);
      i := i + 1;
    }
    assert i == p.numNrBins;
  }

  /** `htt_print_tx_pdev_mu_ppdu_dist_stats_tlv`. */
  method PrintMuPpduDist(p: Params, b: StatsBuf, tlv: Tlv)
    requires Ready(p, b) && WfTlv(tlv)
    modifies b, b.data
    ensures b.Valid()
    ensures b.Text() == Put(old(b.Text()), p.bufSize, Concat(PpduText(p, tlv)))
  {
    ghost var t := b.Text();
    var len := b.len;
    if tlv.len < p.sizeOf(TxPdevMuPpduDistStatsTlv) {
      assert Concat([]) == "";
      return;
    }
    var hwMode := tlv.payload[p.ppdu.hwMode] % 0x100;
    var m := PpduMode(p, hwMode);
    if m.None? {
      assert PpduText(p, tlv) == [] && Concat([]) == "";
      return;
    }
    var (title, mode) := m.value;
    ghost var lines := PpduLines(p, mode, tlv.payload, p.numNrBins);
    assert PpduText(p, tlv) == [title] + lines;
    len := Append(b.data, len, title);
    len := PrintPpduBins(p, b.data, len, mode, tlv.payload);
    PutPut(t, p.bufSize, title, Concat(lines));
    ConcatCons(title, lines);
    b.len := len;
  }

  /** The counter loop of `hw_war`: one line per word of the tail at word `base`. */
  method PrintWarLines(buf: array<char>, len: nat, w: seq<nat>, base: nat, n: nat) returns (len': nat)
    requires base + n <= |w|
    requires 2 <= buf.Length && len < buf.Length
    modifies buf
    ensures len' < buf.Length
    ensures buf[..len'] == Put(old(buf[..len]), buf.Length, Concat(WarLines(w, base, n)))
  {
    ghost var t := buf[..len];
    len' := len;
    var i := 0;
    while i < n
      invariant i <= n && len' < buf.Length
      invariant buf[..len'] == Put(t, buf.Length, Concat(WarLines(w, base, i)))
    {
      len' := AppendLine(buf, len', "hw_war " + Dec(i) + " = " + Dec(w[base + i]) + "\n\n",
                         t, WarLines(w, base, i));
      WarLinesSnoc(w, base, i);
      i := i + 1;
    }
  }

  /** `ath12k_htt_print_hw_war_tlv`. */
  method PrintHwWar(p: Params, title: string, b: StatsBuf, tlv: Tlv)
    requires Ready(p, b) && WfTlv(tlv)
    modifies b, b.data
    ensures b.Valid()
    ensures b.Text() == Put(old(b.Text()), p.bufSize, Concat(WarText(p, title, tlv)))
  {
    ghost var t := b.Text();
    var len := b.len;
    var fixedLen := p.sizeOf(HwWarTlv);
    if tlv.len < fixedLen {
      assert Concat([]) == "";
      return;
    }
    var arrayLen := tlv.len - fixedLen;
    var arrayWords := (arrayLen / 4) % 0x100;
    assert arrayWords == WarCount(p, tlv.len);
    var macLine := "mac_id = " + Dec(Bits.Get(tlv.payload[0], p.macId)) + "\n";
    WarTextLines(p, title, tlv);
    len := Append(b.data, len, title);
    len := Append(b.data, len, macLine);
    len := PrintWarLines(b.data, len, tlv.payload, fixedLen / 4, arrayWords);
    PutHead(t, p.bufSize, title, macLine, WarLines(tlv.payload, fixedLen / 4, arrayWords));
    b.len := len;
  }

  /**
   * The loop of `ath12k_htt_print_stats_string_tlv` over the local `data`
   * buffer. Its `break` is never taken: `scnprintf` keeps `index` below
   * `ATH12K_HTT_MAX_STRING_LEN`.
   */
  method BuildStringData(p: Params, ws: seq<nat>) returns (data: string)
    requires 2 <= p.maxStringLen
    ensures data == StringData(p, ws)
  {
    var buf := new char[p.maxStringLen](_ => '\0');
    var index: nat := 0;
    var i := 0;
    assert ws[..0] == [];
    while i < |ws|
      invariant i <= |ws| && index < p.maxStringLen
      invariant buf[..index] == Put("", p.maxStringLen, Concat(Chunks(ws[..i])))
    {
      index := Append(buf, index, Chunk(ws[i]));
      PutSnoc("", p.maxStringLen, Chunks(ws[..i]), Chunk(ws[i]));
      ChunksSnoc(ws, i);
      i := i + 1;
      if index >= p.maxStringLen {
        break;
      }
    }
    assert ws[..i] == ws;
    data := buf[..index];
  }

  /** `ath12k_htt_print_stats_string_tlv`. */
  method PrintString(p: Params, title: string, b: StatsBuf, tlv: Tlv)
    requires Ready(p, b) && WfTlv(tlv)
    modifies b, b.data
    ensures b.Valid()
    ensures b.Text() == Put(old(b.Text()), p.bufSize, Concat(StringText(p, title, tlv)))
  {
    ghost var t := b.Text();
    var len := b.len;
    var data := BuildStringData(p, tlv.payload);
    len := AppendLine(b.data, len, title, t, []);
    len := AppendLine(b.data, len, "data = " + data + "\n\n", t, [title]);
    b.len := len;
  }

  /** One `if (tx_sched_mode == ...)` block of `mu_mimo_mpdu`. */
  method PrintMpduBranch(p: Params, buf: array<char>, len: nat, w: seq<nat>, mode: nat, users: nat,
                         title: string, prefix: string) returns (len': nat)
    requires MpduFits(p) && p.sizeOf(TxPdevMuMimoMpduStatsTlv) / 4 <= |w|
    requires 2 <= buf.Length && len < buf.Length
    modifies buf
    ensures len' < buf.Length
    ensures buf[..len'] == Put(old(buf[..len]), buf.Length, Concat(MpduBranch(p, w, mode, users, title, prefix)))
  {
    ghost var t := buf[..len];
    len' := len;
    if w[p.mpdu.schedMode] == mode {
      var userIndex := w[p.mpdu.userIndex];
      ghost var ls: seq<string> := [];
      if userIndex == 0 {
        len' := AppendLine(buf, len', title, t, ls);
        ls := ls + [title];
      }
      if userIndex < users {
        len' := AppendLines(buf, len', MpduUserLines(p, prefix, w), t, ls);
        ls := ls + MpduUserLines(p, prefix, w);
      }
      assert ls == MpduBranch(p, w, mode, users, title, prefix);
    } else {
      assert MpduBranch(p, w, mode, users, title, prefix) == [];
    }
  }

  /** `ath12k_htt_print_tx_pdev_mu_mimo_mpdu_stats_tlv`. */
  method PrintMuMimoMpdu(p: Params, b: StatsBuf, tlv: Tlv)
    requires Ready(p, b) && WfTlv(tlv)
    modifies b, b.data
    ensures b.Valid()
    ensures b.Text() == Put(old(b.Text()), p.bufSize, Concat(MpduText(p, tlv)))
  {
    ghost var t := b.Text();
    var len := b.len;
    if tlv.len < p.sizeOf(TxPdevMuMimoMpduStatsTlv) {
      assert Concat([]) == "";
      return;
    }
    var w := tlv.payload;
    len := PrintMpduBranch(p, b.data, len, w, p.schedModeAc, p.acUsers, "HTT_TX_PDEV_MU_MIMO_AC_MPDU_STATS:\n", "ac_mu_mimo");
    ghost var t1 := b.data[..len];
    len := PrintMpduBranch(p, b.data, len, w, p.schedModeAx, p.axUsers, "HTT_TX_PDEV_MU_MIMO_AX_MPDU_STATS:\n", "ax_mu_mimo");
    ghost var t2 := b.data[..len];
    len := PrintMpduBranch(p, b.data, len, w, p.schedModeOfdma, p.ofdmaUsers, "HTT_TX_PDEV_AX_MU_OFDMA_MPDU_STATS:\n", "ax_mu_ofdma");
    var a, x, o := MpduAc(p, w), MpduAx(p, w), MpduOfdma(p, w);
    PutPut(t, p.bufSize, Concat(a), Concat(x));
    PutPut(t, p.bufSize, Concat(a) + Concat(x), Concat(o));
    ConcatJoin(a, x);
    ConcatJoin(a + x, o);
    b.len := len;
  }

  /** The call of formatter `f`, of shape `s`, in the parse switch. */
  method Format(p: Params, f: Formatter, s: Shape, b: StatsBuf, tlv: Tlv)
    requires Ready(p, b) && WfTlv(tlv)
    modifies b, b.data
    ensures b.Valid()
    ensures b.Text() == Emit(old(b.Text()), p.bufSize, ShapePieces(p, f, s, tlv))
  {
    ghost var t := b.Text();
    match s {
      case FixedStruct(title) =>
        PrintStruct(p, f, title, b, tlv);
      case WordArray(title, header, clamped) =>
        PrintArray(p, f, title, header, clamped, b, tlv);
      case CtrlPathArray(title) =>
        PrintCtrlPath(p, title, b, tlv);
      case PpduDistribution =>
        PrintMuPpduDist(p, b, tlv);
        EmitLines(t, p.bufSize, PpduText(p, tlv));
      case WarCounters(title) =>
        PrintHwWar(p, title, b, tlv);
        EmitLines(t, p.bufSize, WarText(p, title, tlv));
      case StringChunks(title) =>
        PrintString(p, title, b, tlv);
        EmitLines(t, p.bufSize, StringText(p, title, tlv));
      case MpduPerUser =>
        PrintMuMimoMpdu(p, b, tlv);
        EmitLines(t, p.bufSize, MpduText(p, tlv));
    }
  }

  /**
   * `ath12k_dbg_htt_ext_stats_parse`: the formatter the tag selects, if
   * any, appends to the request buffer; the result is always 0.
   */
  method Parse(p: Params, b: StatsBuf, tlv: Tlv) returns (r: int)
    requires Ready(p, b) && WfTlv(tlv)
    modifies b, b.data
    ensures r == 0
    ensures b.Valid()
    ensures b.Text() == FormatText(p, old(b.Text()), tlv)
  {
    var f := Dispatch(tlv.tag);
    if f.Some? {
      Format(p, f.value, ShapeOf(f.value), b, tlv);
    }
    r := 0;
  }
}
