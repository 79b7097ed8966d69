/**
 * Three places where debugfs_htt_stats.c does not do what its surroundings
 * evidently intend. Each is modelled as written, with the input that shows
 * the discrepancy; the rest of the model uses the corrected behaviour, whose
 * property is proved here or in the member it names.
 */
module HttStatsFindings {
  import opened HttText
  import opened HttStatsTlv
  import opened HttStatsFormat
  import opened HttStatsDebugfs

  // ---------------------------------------------------------------- ctrl_path guard

  /**
   * The guard of `htt_print_pdev_ctrl_path_tx_stats_tlv` as written: the
   * formatter returns early when the accumulator offset `len` (not the
   * record's `tag_len`) is below the struct size. The result is how many
   * words of `fw_tx_mgmt_subtype` it then reads from the record.
   */
  function CtrlPathWordsReadAsWritten(p: Params, bufLen: nat, tagLen: nat): (r: nat)
    ensures r == 0 || r == p.subtypeMax
    ensures r == 0 <==> bufLen < p.sizeOf(PdevCtrlPathTxStatsTlv) || p.subtypeMax == 0
  {
    if bufLen < p.sizeOf(PdevCtrlPathTxStatsTlv) then 0 else p.subtypeMax
  }

  /**
   * The guard lets an empty record through once the buffer holds a struct's
   * worth of text, and the formatter reads words the record does not have;
   * on a fresh buffer it drops a complete record.
   */
  lemma CtrlPathGuardMisfires(p: Params)
    requires 0 < p.subtypeMax && 4 * p.subtypeMax <= p.sizeOf(PdevCtrlPathTxStatsTlv)
    ensures CtrlPathWordsReadAsWritten(p, p.sizeOf(PdevCtrlPathTxStatsTlv), 0) > 0
    ensures CtrlPathWordsReadAsWritten(p, 0, p.sizeOf(PdevCtrlPathTxStatsTlv)) == 0
  {
  }

  /** With the guard on `tag_len`, the formatter reads only words the record holds. */
  lemma CtrlPathReadsWithinRecord(p: Params, title: string, tlv: Tlv)
    requires ValidParams(p) && WfTlv(tlv)
    ensures CtrlPathPieces(p, title, tlv) != [] ==> p.subtypeMax <= |tlv.payload|
  {
    var size := p.sizeOf(PdevCtrlPathTxStatsTlv);
    if CtrlPathPieces(p, title, tlv) != [] {
      assert size <= tlv.len && 4 * p.subtypeMax <= size;
      assert size / 4 <= tlv.len / 4;
    }
  }

  // ---------------------------------------------------------------- u8 loop counters

  /** The value of a `u8` loop counter after `k` increments from 0. */
  function U8Counter(k: nat): (r: nat)
    ensures r < 0x100
  {
    k % 0x100
  }

  /**
   * `for (u8 i = 0; i < n; i++)` as written in `print_array_to_buf_index`
   * (n = `array_len`) and in the string formatter (n = `tag_len >> 2`, whose
   * `break` never fires because `scnprintf` keeps the index below the
   * maximum): for n of 256 or more the condition holds after every number of
   * increments, so the loop never ends. The unclamped array formatters pass
   * `tag_len >> 2`, which reaches 16383.
   */
  lemma U8LoopExit(n: nat, k: nat)
    requires 0x100 <= n
    ensures U8Counter(k) < n
  {
  }

  /** Below 256 the counter leaves the loop after exactly `n` increments, as an unbounded one does. */
  lemma U8LoopExitSmall(n: nat)
    requires n < 0x100
    ensures U8Counter(n) == n
    ensures forall k :: 0 <= k < n ==> U8Counter(k) < n
  {
  }

  // ---------------------------------------------------------------- write_type copy

  /**
   * The bytes starting at `buf` after `kzalloc(32)` and
   * `copy_from_user(buf, user_buf, count)` as written: the user's first
   * `count` bytes, then the zeroes of the allocation if any are left. When
   * `count` exceeds 32, the result runs past the allocation.
   */
  function TypeCopyAsWritten(user: seq<char>, count: nat): (r: seq<char>)
    requires count <= |user|
    ensures |r| == (if count < TypeBufSize then TypeBufSize else count)
    ensures r[..count] == user[..count]
    ensures forall i :: count <= i < |r| ==> r[i] == '\0'
  {
    user[..count] + seq(if count < TypeBufSize then TypeBufSize - count else 0, _ => '\0')
  }

  /** A 33-byte write stores its last byte at index 32, one past the 32-byte allocation. */
  lemma TypeCopyOverruns(user: seq<char>)
    requires 33 <= |user|
    ensures |TypeCopyAsWritten(user, 33)| > TypeBufSize
    ensures TypeCopyAsWritten(user, 33)[TypeBufSize] == user[TypeBufSize]
  {
    assert TypeCopyAsWritten(user, 33)[..33][TypeBufSize] == user[..33][TypeBufSize];
  }

  /** A 32-byte write of non-NUL bytes leaves no NUL in the buffer for `sscanf` to stop at. */
  lemma TypeCopyUnterminated(user: seq<char>)
    requires 32 <= |user| && forall i :: 0 <= i < 32 ==> user[i] != '\0'
    ensures forall i :: 0 <= i < TypeBufSize ==> TypeCopyAsWritten(user, 32)[i] != '\0'
  {
    var r := TypeCopyAsWritten(user, 32);
    forall i | 0 <= i < TypeBufSize
      ensures r[i] != '\0'
    {
      assert r[..32][i] == user[..32][i];
    }
  }

  /** Below 32 bytes the source's copy and the corrected `TypeBuffer` leave the same buffer. */
  lemma TypeCopyAgreesBelowSize(user: seq<char>, count: nat)
    requires count < TypeBufSize && count <= |user|
    ensures TypeCopyAsWritten(user, count) == TypeBuffer(user, count)
  {
  }
}
