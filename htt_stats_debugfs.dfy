/**
 * The debugfs side of the extended HTT stats: the request a session keeps
 * (`struct debug_htt_stats_req`), the per-radio state it hangs off
 * (`ar->debug.htt_stats`), the cookie that routes a firmware reply back to
 * its radio, the inbound handler, the request with its bounded wait, and the
 * open, release, read and write entry points.
 *
 * The firmware send (`ath12k_dp_tx_htt_h2t_ext_stats_req`), the pdev lookup
 * (`ath12k_mac_get_ar_by_pdev_id`, `ath12k_mac_get_target_pdev_id`), the
 * TLV iterator, the allocator, the user copies and `sscanf` are not part of
 * this model: their results are inputs.
 */
module HttStatsDebugfs {
  import opened Wrappers
  import opened HttText
  import opened HttStatsTlv
  import opened HttStatsFormat
  import opened HttStatsBuf
  import opened HttStatsPrint
  import opened Errno
  import Bits

  // ---------------------------------------------------------------- cookie

  /** The two cookie fields are disjoint fields of a u64, and the magic value fits its field. */
  predicate CookieLayout(p: Params)
  {
    Bits.Disjoint(p.cookieMsb, p.cookieLsb) &&
    p.cookieMsb.lo + p.cookieMsb.width <= 64 && p.cookieLsb.lo + p.cookieLsb.width <= 64 &&
    p.magic < Bits.Pow2(p.cookieMsb.width)
  }

  /**
   * The cookie `ath12k_debugfs_htt_stats_req` sends: MAGIC encoded in the MSB
   * field, ORed with the pdev id encoded in the LSB field (for disjoint
   * fields the OR is the sum).
   */
  function Cookie(p: Params, pdevId: int): nat
  {
    Bits.Encode(p.magic, p.cookieMsb) + Bits.Encode(pdevId, p.cookieLsb)
  }

  /** The handler's first test: the MSB field of the cookie holds MAGIC. */
  predicate MagicOk(p: Params, cookie: nat)
  {
    Bits.Get(cookie, p.cookieMsb) == p.magic
  }

  /** The pdev id the handler reads out of the LSB field. */
  function CookiePdev(p: Params, cookie: nat): nat
  {
    Bits.Get(cookie, p.cookieLsb)
  }

  /** A cookie the request built passes the magic check and names the pdev it was built for. */
  lemma CookieRoundTrip(p: Params, pdevId: int)
    requires CookieLayout(p)
    ensures MagicOk(p, Cookie(p, pdevId))
    ensures CookiePdev(p, Cookie(p, pdevId)) == pdevId % Bits.Pow2(p.cookieLsb.width)
  {
    var m, l := Bits.Encode(p.magic, p.cookieMsb), Bits.Encode(pdevId, p.cookieLsb);
    Bits.GetEncodeOther(p.magic, p.cookieMsb, pdevId, p.cookieLsb);
    assert Bits.Get(m + l, p.cookieMsb) == p.magic % Bits.Pow2(p.cookieMsb.width);
    ModSmall(p.magic, Bits.Pow2(p.cookieMsb.width));
    Bits.GetEncodeOther(pdevId, p.cookieLsb, p.magic, p.cookieMsb);
    assert m + l == l + m;
  }

  /** A pdev id that fits the LSB field comes back unchanged. */
  lemma CookiePdevExact(p: Params, pdevId: int)
    requires CookieLayout(p) && 0 <= pdevId < Bits.Pow2(p.cookieLsb.width)
    ensures CookiePdev(p, Cookie(p, pdevId)) == pdevId
  {
    CookieRoundTrip(p, pdevId);
    ModSmall(pdevId, Bits.Pow2(p.cookieLsb.width));
  }

  lemma ModSmall(x: int, m: int)
    requires 0 <= x < m
    ensures x % m == x
  {
  }

  /** The cookie 0 a reset request carries is dropped by the handler unless MAGIC is 0. */
  lemma ZeroCookieDropped(p: Params)
    ensures MagicOk(p, 0) <==> p.magic == 0
  {
    Bits.GetZero(p.cookieMsb);
  }

  // ---------------------------------------------------------------- state

  /** `!!cfg_param[0] || !!cfg_param[1] || !!cfg_param[2] || !!cfg_param[3]`. */
  function Override(cfg: seq<nat>): (r: bool)
    requires |cfg| == 4
    ensures r <==> exists i :: 0 <= i < 4 && cfg[i] != 0
  {
    cfg[0] != 0 || cfg[1] != 0 || cfg[2] != 0 || cfg[3] != 0
  }

  /** `struct debug_htt_stats_req`: one session's request and the text buffer its formatters fill. */
  class StatsReq {
    var statsType: nat
    var cfgParam: seq<nat>
    var overrideCfgParam: bool
    var done: bool
    var pdevId: int
    const buf: StatsBuf

    ghost predicate Valid(p: Params)
      reads this, buf
    {
      |cfgParam| == 4 && Ready(p, buf)
    }

    /** The zeroed allocation of open, with the type and parameters copied from the radio. */
    constructor (p: Params, statsType: nat, cfgParam: seq<nat>)
      requires ValidParams(p) && |cfgParam| == 4
      ensures Valid(p) && fresh(buf) && fresh(buf.data)
      ensures this.statsType == statsType && this.cfgParam == cfgParam && overrideCfgParam == Override(cfgParam)
      ensures !done && pdevId == 0 && buf.Text() == ""
    {
      this.statsType := statsType;
      this.cfgParam := cfgParam;
      overrideCfgParam := Override(cfgParam);
      done := false;
      pdevId := 0;
      buf := new StatsBuf(p.bufSize);
    }

    /**
     * The handler's work once it found this request: `done` is overwritten
     * from the DONE bit first; a declared length beyond `skb->len` then stops
     * it; otherwise the records are parsed into the buffer (a failing
     * iteration is only logged) and completion is signalled if DONE was set.
     */
    method Receive(p: Params, msg: ExtStatsMsg) returns (completion: bool)
      requires Valid(p) && WfMsg(msg)
      modifies this, buf, buf.data
      ensures completion <==> DoneBit(p, msg.info1) && Bits.Get(msg.info1, p.infoLength) <= msg.skbLen
      ensures Received(p, this, old(statsType), old(cfgParam), old(pdevId), old(overrideCfgParam), old(buf.Text()), msg)
    {
      done := DoneBit(p, msg.info1);
      var sendCompletion := done;
      var len := Bits.Get(msg.info1, p.infoLength);
      if len > msg.skbLen {
        return false;
      }
      ParseRecords(p, buf, msg.records);
      completion := sendCompletion;
    }

    /**
     * `ath12k_read_htt_stats`: the bytes handed to `simple_read_from_buffer`,
     * `min(buf_len, BUF_SIZE)` of them, which is all of the text.
     */
    function Readable(p: Params): (r: string)
      reads this, buf, buf.data
      requires Valid(p)
      ensures r == buf.Text() && |r| < p.bufSize
    {
      buf.data[..Min(buf.len, p.bufSize)]
    }
  }

  /** What `wait_for_completion_timeout` reported, and the `done` that handler calls left meanwhile. */
  datatype Wait = Wait(completed: bool, done: bool)

  /** The handler signals completion only after setting `done`. */
  predicate WfWait(w: Wait)
  {
    w.completed ==> w.done
  }

  /** The arguments of `ath12k_dp_tx_htt_h2t_ext_stats_req`: the type, cfg0..cfg3 and the cookie. */
  datatype ExtStatsReq = ExtStatsReq(statsType: nat, cfg: seq<nat>, cookie: nat)

  /** What `ath12k_debugfs_htt_stats_req` returns for a send status and a wait outcome. */
  function RequestResult(sendStatus: int, w: Wait): int
  {
    if sendStatus != 0 then sendStatus
    else if w.completed || w.done then 0
    else -ETIMEDOUT
  }

  /** The types both user-facing writes accept: below NUM and not RESET. */
  predicate TypeAccepted(p: Params, t: nat)
  {
    t != p.typeReset && t < p.numExtStats
  }

  /** What `sscanf(buf, "%u %u %u %u %u\n", ...)` returned: how many values it converted, and those values. */
  datatype Scan = Scan(numArgs: nat, values: seq<nat>)

  predicate WfScan(s: Scan)
  {
    s.numArgs <= 5 && |s.values| == s.numArgs &&
    forall i :: 0 <= i < |s.values| ==> s.values[i] < U32
  }

  /** `cfg_param[4] = {0}` after the scan: the parameters it converted, zero for the rest. */
  function ScannedCfg(s: Scan): (r: seq<nat>)
    requires WfScan(s)
    ensures |r| == 4
    ensures forall i :: 0 <= i < 4 ==> (r[i] != 0 ==> i + 1 < s.numArgs && r[i] == s.values[i + 1])
    ensures forall i :: 0 <= i < 4 && i + 1 < s.numArgs ==> r[i] == s.values[i + 1]
  {
    (s.values + [0, 0, 0, 0, 0])[1..5]
  }

  /** Parameters written by the type write make the next session override the defaults exactly when one is nonzero. */
  lemma ScannedOverride(s: Scan)
    requires WfScan(s)
    ensures Override(ScannedCfg(s)) <==> exists i :: 1 <= i < s.numArgs && s.values[i] != 0
  {
    var r := ScannedCfg(s);
    if Override(r) {
      var i :| 0 <= i < 4 && r[i] != 0;
      assert s.values[i + 1] != 0;
    }
    if i :| 1 <= i < s.numArgs && s.values[i] != 0 {
      assert r[i - 1] != 0;
    }
  }

  /** `const int size = 32`: the buffer the type write copies into. */
  const TypeBufSize: nat := 32

  /**
   * The zeroed 32-byte buffer after the user's bytes are copied in, with the
   * copy limited to `size - 1` bytes so a NUL always ends the text (the
   * source copies `count` bytes; see `HttStatsFindings.TypeCopyOverruns`).
   */
  function TypeBuffer(user: seq<char>, count: nat): (r: seq<char>)
    requires count <= |user|
    ensures |r| == TypeBufSize && r[TypeBufSize - 1] == '\0'
    ensures r[..Min(count, TypeBufSize - 1)] == user[..Min(count, TypeBufSize - 1)]
  {
    var n := Min(count, TypeBufSize - 1);
    user[..n] + seq(TypeBufSize - n, _ => '\0')
  }

  /** `param_pos = (type >> 5) + 1`, stored in a u8. */
  function ParamPos(t: nat): (r: nat)
    ensures r < 0x100
  {
    (t / 32 + 1) % 0x100
  }

  /** Each block of 32 types selects its own cfg word: 1 for types 0..31, 2 for 32..63, 3 for 64..95. */
  lemma ParamPosBlocks(t: nat)
    requires t < 255 * 32
    ensures ParamPos(t) == 1 <==> t < 32
    ensures ParamPos(t) == 2 <==> 32 <= t < 64
    ensures ParamPos(t) == 3 <==> 64 <= t < 96
  {
  }

  /** The u8 wraps: type 8160 selects position 0 and type 8192 position 1 again. */
  lemma ParamPosWraps()
    ensures ParamPos(255 * 32) == 0 && ParamPos(256 * 32) == 1
  {
  }

  /**
   * The `cfg_params` of a reset of type `t`: cfg0 is the start offset, and the
   * bit for `cfg0 + t` goes into the one cfg word `param_pos` selects (`1 <<`
   * for cfg1, truncated to the u32 word; the BITMAP32/64 macros for cfg2 and
   * cfg3); no word for any other position.
   */
  function ResetCfg(p: Params, t: nat): (r: seq<nat>)
    ensures |r| == 4 && r[0] == p.resetStartOffset
    ensures forall i, j :: 1 <= i < j < 4 ==> r[i] == 0 || r[j] == 0
  {
    var off := p.resetStartOffset + t;
    var pos := ParamPos(t);
    if pos == p.resetParam32 then [p.resetStartOffset, Bits.Pow2(off) % U32, 0, 0]
    else if pos == p.resetParam64 then [p.resetStartOffset, 0, p.bitmap32Bit(off), 0]
    else if pos == p.resetParam128 then [p.resetStartOffset, 0, 0, p.bitmap64Bit(off)]
    else [p.resetStartOffset, 0, 0, 0]
  }

  /** The bit a reset sets lands in the word of its position, and only there. */
  lemma ResetCfgWord(p: Params, t: nat)
    ensures ResetCfg(p, t)[1] != 0 ==> ParamPos(t) == p.resetParam32
    ensures ResetCfg(p, t)[2] != 0 ==> ParamPos(t) == p.resetParam64 && ParamPos(t) != p.resetParam32
    ensures ResetCfg(p, t)[3] != 0 ==> ParamPos(t) == p.resetParam128
    ensures ParamPos(t) == p.resetParam32 ==> ResetCfg(p, t)[1] == Bits.Pow2(p.resetStartOffset + t) % U32
    ensures ParamPos(t) !in {p.resetParam32, p.resetParam64, p.resetParam128} ==> ResetCfg(p, t)[1..] == [0, 0, 0]
  {
  }

  /** `ar->debug.htt_stats`: the configured type and parameters, the last reset type, and the request in flight. */
  class Radio {
    var statsType: nat
    var cfgParam: seq<nat>
    var reset: nat
    var statsReq: StatsReq?

    ghost predicate Valid(p: Params)
      reads this, statsReq, if statsReq == null then {} else {statsReq.buf}
    {
      ValidParams(p) && |cfgParam| == 4 && (statsReq != null ==> statsReq.Valid(p))
    }

    /**
     * `ath12k_debugfs_htt_stats_req`: clears `done`, records the pdev id,
     * sends the type, the parameters (zero unless overridden) and the cookie,
     * then waits. A timeout with `done` still false sets it and yields
     * -ETIMEDOUT; a timeout after a late handler set it yields 0.
     */
    method Request(p: Params, targetPdev: int, sendStatus: int, wait: Wait) returns (r: int, sent: ExtStatsReq)
      requires Valid(p) && statsReq != null && WfWait(wait)
      modifies statsReq
      ensures Valid(p)
      ensures sent == ExtStatsReq(statsReq.statsType, if statsReq.overrideCfgParam then statsReq.cfgParam else [0, 0, 0, 0],
                                  Cookie(p, targetPdev))
      ensures statsReq.pdevId == targetPdev
      ensures statsReq.statsType == old(statsReq.statsType) && statsReq.cfgParam == old(statsReq.cfgParam)
      ensures statsReq.overrideCfgParam == old(statsReq.overrideCfgParam)
      ensures r == RequestResult(sendStatus, wait)
      ensures statsReq.done <==> sendStatus == 0
    {
      var req := statsReq;
      req.done := false;
      req.pdevId := targetPdev;
      var cookie := Cookie(p, targetPdev);
      var cfg := [0, 0, 0, 0];
      if req.overrideCfgParam {
        cfg := req.cfgParam;
      }
      sent := ExtStatsReq(req.statsType, cfg, cookie);
      if sendStatus != 0 {
        return sendStatus, sent;
      }
      req.done := wait.done;
      if !wait.completed {
        if !req.done {
          req.done := true;
          return -ETIMEDOUT, sent;
        }
      }
      r := 0;
    }

    /**
     * `ath12k_open_htt_stats`: refuses RESET (-EPERM), a hardware that is not
     * on (-ENETDOWN), a request already in flight (-EAGAIN) and a failed
     * allocation (-ENOMEM), in that order; otherwise installs a fresh request
     * and sends it, dropping it again when the request fails.
     */
    method Open(p: Params, hwOn: bool, allocOk: bool, targetPdev: int, sendStatus: int, wait: Wait)
      returns (r: int, file: StatsReq?)
      requires Valid(p) && WfWait(wait)
      modifies this
      ensures Valid(p)
      ensures statsType == old(statsType) && cfgParam == old(cfgParam) && reset == old(reset)
      ensures r <= 0 && (r == 0 <==> file != null)
      ensures old(statsType) == p.typeReset ==> r == -EPERM
      ensures old(statsType) != p.typeReset && !hwOn ==> r == -ENETDOWN
      ensures old(statsType) != p.typeReset && hwOn && old(statsReq) != null ==> r == -EAGAIN
      ensures old(statsType) != p.typeReset && hwOn && old(statsReq) == null && !allocOk ==> r == -ENOMEM
      ensures old(statsType) != p.typeReset && hwOn && old(statsReq) == null && allocOk ==>
                var ret := RequestResult(sendStatus, wait); r == (if ret < 0 then ret else 0)
      ensures old(statsReq) != null ==> statsReq == old(statsReq)
      ensures old(statsReq) == null ==> (statsReq == null <==> r != 0)
      ensures file != null ==> file == statsReq && fresh(file) && file.done == (sendStatus == 0) && file.pdevId == targetPdev &&
                               file.statsType == statsType && file.cfgParam == cfgParam &&
                               file.overrideCfgParam == Override(cfgParam) && file.buf.Text() == ""
    {
      if statsType == p.typeReset {
        return -EPERM, null;
      }
      if !hwOn {
        return -ENETDOWN, null;
      }
      if statsReq != null {
        return -EAGAIN, null;
      }
      if !allocOk {
        return -ENOMEM, null;
      }
      var req := new StatsReq(p, statsType, cfgParam);
      statsReq := req;
      var ret, sent := Request(p, targetPdev, sendStatus, wait);
      if ret < 0 {
        statsReq := null;
        return ret, null;
      }
      r, file := 0, req;
    }

    /** `ath12k_release_htt_stats`: the request is freed and the radio has none in flight. */
    method Release() returns (r: int)
      modifies this
      ensures r == 0 && statsReq == null
      ensures statsType == old(statsType) && cfgParam == old(cfgParam) && reset == old(reset)
    {
      statsReq := null;
      r := 0;
    }

    /**
     * `ath12k_write_htt_stats_type`: -ENOMEM, -EFAULT, -EINVAL for a scan
     * that converted nothing, -EINVAL for RESET or a type beyond NUM, in that
     * order; otherwise stores the type and the four parameters and returns
     * `count`.
     */
    method WriteType(p: Params, allocOk: bool, user: seq<char>, count: nat, copyOk: bool, scan: seq<char> -> Scan)
      returns (r: int)
      requires Valid(p) && count <= |user|
      requires forall text :: WfScan(scan(text))
      modifies this
      ensures Valid(p) && statsReq == old(statsReq) && reset == old(reset)
      ensures var s := scan(TypeBuffer(user, count));
              WfScan(s) &&
              r == (if !allocOk then -ENOMEM
                    else if !copyOk then -EFAULT
                    else if s.numArgs == 0 then -EINVAL
                    else if !TypeAccepted(p, s.values[0]) then -EINVAL
                    else count)
      ensures var s := scan(TypeBuffer(user, count));
              WfScan(s) &&
              if r == count then statsType == s.values[0] && cfgParam == ScannedCfg(s)
              else statsType == old(statsType) && cfgParam == old(cfgParam)
    {
      if !allocOk {
        return -ENOMEM;
      }
      if !copyOk {
        return -EFAULT;
      }
      var s := scan(TypeBuffer(user, count));
      if s.numArgs == 0 || s.numArgs > 5 {
        return -EINVAL;
      }
      if s.values[0] == p.typeReset || s.values[0] >= p.numExtStats {
        return -EINVAL;
      }
      statsType := s.values[0];
      cfgParam := ScannedCfg(s);
      r := count;
    }

    /**
     * `ath12k_write_htt_stats_reset`: a parse error is returned as is, RESET
     * or a type beyond NUM gives -E2BIG; otherwise a RESET request with the
     * reset parameters and cookie 0 is sent, and on success the type is
     * recorded and `count` returned.
     */
    method WriteReset(p: Params, parseStatus: int, t: nat, count: nat, sendStatus: int)
      returns (r: int, sent: Option<ExtStatsReq>)
      requires Valid(p) && t < U32
      modifies this
      ensures Valid(p) && statsReq == old(statsReq) && statsType == old(statsType) && cfgParam == old(cfgParam)
      ensures parseStatus != 0 ==> r == parseStatus && sent == None
      ensures parseStatus == 0 && !TypeAccepted(p, t) ==> r == -E2BIG && sent == None
      ensures parseStatus == 0 && TypeAccepted(p, t) ==>
                sent == Some(ExtStatsReq(p.typeReset, ResetCfg(p, t), 0)) &&
                r == (if sendStatus != 0 then sendStatus else count)
      ensures reset == (if parseStatus == 0 && TypeAccepted(p, t) && sendStatus == 0 then t else old(reset))
    {
      if parseStatus != 0 {
        return parseStatus, None;
      }
      if t >= p.numExtStats || t == p.typeReset {
        return -E2BIG, None;
      }
      sent := Some(ExtStatsReq(p.typeReset, ResetCfg(p, t), 0));
      if sendStatus != 0 {
        return sendStatus, sent;
      }
      reset := t;
      r := count;
    }
  }

  // ---------------------------------------------------------------- handler

  /**
   * An `ath12k_htt_extd_stats_msg` as the handler sees it: the cookie, the
   * `info1` word, `skb->len`, and the records the TLV iterator hands to the
   * parse callback.
   */
  datatype ExtStatsMsg = ExtStatsMsg(cookie: nat, info1: nat, skbLen: nat, records: seq<Tlv>)

  predicate AllWf(rs: seq<Tlv>)
  {
    forall i :: 0 <= i < |rs| ==> WfTlv(rs[i])
  }

  predicate WfMsg(m: ExtStatsMsg)
  {
    m.info1 < U32 && AllWf(m.records)
  }

  /** `u32_get_bits(info1, DONE)`, as the bool `done`. */
  predicate DoneBit(p: Params, info1: nat)
  {
    Bits.Get(info1, p.infoDone) != 0
  }

  /** The text after the parse callback has handled each record in turn. */
  function ParseAll(p: Params, t: string, rs: seq<Tlv>): (r: string)
    requires ValidParams(p) && |t| < p.bufSize && AllWf(rs)
    ensures |r| < p.bufSize
    decreases |rs|
  {
    if rs == [] then t
    else FormatText(p, ParseAll(p, t, rs[..|rs| - 1]), rs[|rs| - 1])
  }

  /** No record moves text already written, except for the last byte an array block may overwrite. */
  lemma {:induction false} ParseAllKeepsText(p: Params, t: string, rs: seq<Tlv>)
    requires ValidParams(p) && 0 < |t| < p.bufSize && AllWf(rs)
    ensures |ParseAll(p, t, rs)| >= |t|
    ensures t[..|t| - 1] <= ParseAll(p, t, rs)
    decreases |rs|
  {
    if rs != [] {
      var front := rs[..|rs| - 1];
      ParseAllKeepsText(p, t, front);
      var u := ParseAll(p, t, front);
      FormatKeepsText(p, u, rs[|rs| - 1]);
      assert t[..|t| - 1] == u[..|t| - 1];
      assert u[..|t| - 1] <= u[..|u| - 1];
    }
  }

  /** Records whose tags the switch does not know leave the text as it was. */
  lemma {:induction false} ParseAllUnknown(p: Params, t: string, rs: seq<Tlv>)
    requires ValidParams(p) && |t| < p.bufSize && AllWf(rs)
    requires forall i :: 0 <= i < |rs| ==> rs[i].tag == Other
    ensures ParseAll(p, t, rs) == t
    decreases |rs|
  {
    if rs != [] {
      ParseAllUnknown(p, t, rs[..|rs| - 1]);
      UnknownTagNoop(p, t, rs[|rs| - 1]);
    }
  }

  /** The TLV iteration with the parse callback: each record in turn, into the request's buffer. */
  method ParseRecords(p: Params, b: StatsBuf, rs: seq<Tlv>)
    requires Ready(p, b) && AllWf(rs)
    modifies b, b.data
    ensures b.Valid()
    ensures b.Text() == ParseAll(p, old(b.Text()), rs)
  {
    ghost var t := b.Text();
    var i := 0;
    while i < |rs|
      invariant i <= |rs| && Ready(p, b)
      invariant b.Text() == ParseAll(p, t, rs[..i])
    {
      var ret := Parse(p, b, rs[i]);
      assert rs[..i + 1][..i] == rs[..i];
      i := i + 1;
    }
    assert rs[..i] == rs;
  }

  /** The objects the handler may write: the request of the radio a lookup found, and its buffer. */
  ghost function ReqFootprint(ar: Radio?): set<object>
    reads ar
  {
    if ar == null || ar.statsReq == null then {} else {ar.statsReq, ar.statsReq.buf, ar.statsReq.buf.data}
  }

  /**
   * `ath12k_debugfs_htt_ext_stats_handler`: drops a message whose cookie
   * lacks MAGIC, whose pdev has no radio (`lookup` returns null) or whose
   * radio has no request in flight; otherwise hands it to the request
   * (`StatsReq.Receive`). `completion` is the `complete()` call.
   */
  method Handler(p: Params, lookup: nat -> Radio?, msg: ExtStatsMsg) returns (completion: bool)
    requires WfMsg(msg)
    requires var ar := lookup(CookiePdev(p, msg.cookie)); ar != null ==> ar.Valid(p)
    modifies ReqFootprint(lookup(CookiePdev(p, msg.cookie)))
    ensures var ar := lookup(CookiePdev(p, msg.cookie));
            completion <==> MagicOk(p, msg.cookie) && ar != null && old(ar.statsReq) != null &&
                            DoneBit(p, msg.info1) && Bits.Get(msg.info1, p.infoLength) <= msg.skbLen
    ensures var ar := lookup(CookiePdev(p, msg.cookie));
            !MagicOk(p, msg.cookie) ==> unchanged(ReqFootprint(ar))
    ensures var ar := lookup(CookiePdev(p, msg.cookie));
            MagicOk(p, msg.cookie) && ar != null && old(ar.statsReq) != null ==>
              Received(p, old(ar.statsReq), old(ar.statsReq.statsType), old(ar.statsReq.cfgParam), old(ar.statsReq.pdevId),
                       old(ar.statsReq.overrideCfgParam), old(ar.statsReq.buf.Text()), msg)
  {
    if !MagicOk(p, msg.cookie) {
      return false;
    }
    var pdevId := CookiePdev(p, msg.cookie);
    var ar := lookup(pdevId);
    if ar == null {
      return false;
    }
    var req := ar.statsReq;
    if req == null {
      return false;
    }
    completion := req.Receive(p, msg);
  }

  /** The state of a request after it received `msg`, given its fields before. */
  ghost predicate Received(p: Params, req: StatsReq, statsType: nat, cfgParam: seq<nat>, pdevId: int,
                           overrideCfgParam: bool, text: string, msg: ExtStatsMsg)
    reads req, req.buf, req.buf.data
    requires WfMsg(msg)
  {
    req.Valid(p) && |text| < p.bufSize && req.done == DoneBit(p, msg.info1) &&
    req.statsType == statsType && req.cfgParam == cfgParam && req.pdevId == pdevId &&
    req.overrideCfgParam == overrideCfgParam &&
    req.buf.Text() == (if Bits.Get(msg.info1, p.infoLength) <= msg.skbLen
                       then ParseAll(p, text, msg.records)
                       else text)
  }
}
