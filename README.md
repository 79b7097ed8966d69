# Eight Linux 6.13.1 driver cores, modelled and proved in Dafny

This project models eight pieces of the Linux 6.13.1 kernel and proves
properties of each model. Each piece is small and self-contained. All source
paths below are under `linux-6.13.1/`.

| Dafny module(s) | Source | Flavour |
|---|---|---|
| `HttText`, `HttStatsBuf`, `HttStatsTlv`, `HttStatsFormat`, `HttStatsPrint`, `HttStatsDebugfs`, `HttStatsFindings` | ath12k HTT extended statistics over debugfs (`drivers/net/wireless/ath/ath12k/debugfs_htt_stats.c`) | mixed |
| `Zl6100` | PMBus driver for Renesas ZL6100 and related chips (`drivers/hwmon/pmbus/zl6100.c`) | mixed |
| `MicrochipT1s` | 10BASE-T1S PHY configuration for LAN865x/LAN867x (`drivers/net/phy/microchip_t1s.c`) | mixed |
| `BcachefsLru` | bcachefs LRU btree positions (`fs/bcachefs/lru.h`) | pure |
| `S390Insn` | s390 instruction length from the opcode (`tools/testing/selftests/kvm/include/s390x/processor.h`) | pure |
| `XeGfxpipe` | Xe GPU GFXPIPE command encodings (`drivers/gpu/drm/xe/instructions/xe_gfxpipe_commands.h`) | pure |
| `Rk3576Reset` | RK3576 reset-id to register-bit table (`drivers/clk/rockchip/rst-rk3576.c`) | pure |
| `SamsungSdiBattery` | Samsung SDI battery tables and lookup (`drivers/power/supply/samsung-sdi-battery.c`) | imperative |

Shared support lives in its own modules:

- `Bits`: bit fields as unbounded integers (`FIELD_PREP`/`FIELD_GET`, `GENMASK`, a bitwise OR).
- `Errno`: the errno constants.
- `Wrappers`: `Option`.
- `Order`: strictly rising sequences.

**HTT statistics.** The request buffer `stats_req->buf` is a `StatsBuf` class: a
`char` array plus `buf_len`. Every `len += scnprintf(buf + len, BUF_SIZE - len, …)`
is one clamped append `Put`. `print_array_to_buf_index` is a method with its loop
over the array. It is proved to produce `ArrayText`, and `ArrayText` is proved to
be "header = i:v,i:v footer" when everything fits.

Each formatter is a method proved against a function that gives its text. That text
is either a list of lines or a list of `Piece`s (a line or an array block).
`ath12k_dbg_htt_ext_stats_parse` dispatches on the tag. The debugfs open, read,
write and release handlers and the firmware-message handler are methods of the
classes `Radio` (`ar->debug.htt_stats`) and `StatsReq` (`struct debug_htt_stats_req`).

The header-file constants (buffer sizes, field masks, struct sizes, the magic value)
are the parameters `Params`. The firmware transport and the completion wait are inputs.

**ZL6100.** The LINEAR11 conversions are:

- `l2d` as a function;
- `d2l` as a method with its two normalisation loops, proved equal to the function `Linear`.

What d2l promises is proved about `Linear`: the exponent range, the normalised
magnitude, the rounded and clamped mantissa, and that only 0 maps to 0. The
register remapping of `read_word_data`, `write_word_data` and `read_byte_data`
is modelled as functions, with the PMBus core's reads as function parameters. The
identification and capability parts of probe are methods.

**T1S PHY.** The PHY is a class whose `trace` field records every MMD
access in order. The bus outcome of each access is an oracle indexed by its
position. Each config routine is proved to make exactly the accesses of a
plan up to the first failing one, and to return that access's error, or 0.
Plans include the fixup write order, the cfgparam setup after index 1, and
Rev.C being the first nine Rev.B fixups. The offset sign extension and the
configuration words are proved field by field.

**Tables.** The RK3576 reset table, the Xe command constants and the Samsung
battery tables are transcribed as constants. Their order is proved, and so are
the decoding or matching properties the drivers rely on.

## Model

| member | source | states |
|---|---|---|
| HttText.Put | linux-6.13.1/drivers/net/wireless/ath/ath12k/debugfs_htt_stats.c:106-108 | an append to text `t` in a buffer of `cap` bytes yields min(\|t\|+\|s\|, cap-1) characters, starts with `t`, and stays below `cap` |
| HttText.PutIsPrefixOfFullText | linux-6.13.1/drivers/net/wireless/ath/ath12k/debugfs_htt_stats.c:106-108 | the clamped text is a prefix of `t + s`, and equals it when it fits |
| HttText.PutPut | linux-6.13.1/drivers/net/wireless/ath/ath12k/debugfs_htt_stats.c:106-110 | two successive clamped appends equal one clamped append of the concatenation |
| HttText.PutAllIsPut | linux-6.13.1/drivers/net/wireless/ath/ath12k/debugfs_htt_stats.c:106-236 | a run of line appends equals one clamped append of all lines |
| HttText.Elem | linux-6.13.1/drivers/net/wireless/ath/ath12k/debugfs_htt_stats.c:27-29 | each element text is non-empty and ends in its comma |
| HttText.ArrayText | linux-6.13.1/drivers/net/wireless/ath/ath12k/debugfs_htt_stats.c:14-41 | the text after an array block stays below the buffer size |
| HttText.ArrayTextFits | linux-6.13.1/drivers/net/wireless/ath/ath12k/debugfs_htt_stats.c:21-39 | when everything fits, the block is `header = ` then the elements joined by single commas (the NUL store removes exactly the trailing comma) then the footer |
| HttText.ArrayTextEmpty | linux-6.13.1/drivers/net/wireless/ath/ath12k/debugfs_htt_stats.c:21-39 | with no elements the NUL store eats the blank after `=`: `header =footer` |
| HttText.ArrayTextKeepsPrefix | linux-6.13.1/drivers/net/wireless/ath/ath12k/debugfs_htt_stats.c:32-33 | an array block changes at most the last character of the older text |
| HttText.EmitLines | linux-6.13.1/drivers/net/wireless/ath/ath12k/debugfs_htt_stats.c:106-236 | appending lines one by one is one clamped append of their concatenation |
| HttText.StepKeepsText | linux-6.13.1/drivers/net/wireless/ath/ath12k/debugfs_htt_stats.c:32-33 | a piece never shortens the text; only a block on a full buffer may overwrite its last character |
| HttText.EmitKeepsText | linux-6.13.1/drivers/net/wireless/ath/ath12k/debugfs_htt_stats.c:253-257 | a formatter keeps all earlier text except possibly its last character |
| HttStatsBuf.StatsBuf.constructor | linux-6.13.1/drivers/net/wireless/ath/ath12k/debugfs_htt_stats.c:3082-3086 | the fresh request buffer has the given size and holds no text |
| HttStatsBuf.Scnprintf | linux-6.13.1/drivers/net/wireless/ath/ath12k/debugfs_htt_stats.c:22-24 | copies min(\|s\|, size-1) characters followed by a NUL and returns the count; size 0 writes nothing |
| HttStatsBuf.Append | linux-6.13.1/drivers/net/wireless/ath/ath12k/debugfs_htt_stats.c:106-107 | the new `buf[..len']` is `Put` of the old text |
| HttStatsBuf.PrintArrayToBufIndex | linux-6.13.1/drivers/net/wireless/ath/ath12k/debugfs_htt_stats.c:14-41 | the buffer holds `ArrayText` of the first `array_len` words, with indices counting from `stats_index`; its counter is unbounded, the correction of the `u8 i` finding |
| HttStatsBuf.PrintElems | linux-6.13.1/drivers/net/wireless/ath/ath12k/debugfs_htt_stats.c:26-30 | the loop appends the elements as one clamped append; its counter is unbounded, the correction of the `u8 i` finding |
| HttStatsBuf.PrintArrayToBuf | linux-6.13.1/drivers/net/wireless/ath/ath12k/debugfs_htt_stats.c:43-49 | the same block with indices from 0 |
| HttStatsBuf.EmitPieces | linux-6.13.1/drivers/net/wireless/ath/ath12k/debugfs_htt_stats.c:253-259 | appends the pieces in order, as `Emit` says |
| HttStatsTlv.DispatchUnknown | linux-6.13.1/drivers/net/wireless/ath/ath12k/debugfs_htt_stats.c:2705-2883 | a tag selects no formatter exactly when it is outside the switch |
| HttStatsTlv.CcaTagsShareFormatter | linux-6.13.1/drivers/net/wireless/ath/ath12k/debugfs_htt_stats.c:2705-2883 | the three CCA histogram tags share one formatter |
| HttStatsFormat.ArrayCount | linux-6.13.1/drivers/net/wireless/ath/ath12k/debugfs_htt_stats.c:250-251 | the count is `tag_len >> 2`, or the smaller of it and the maximum for clamped formatters |
| HttStatsFormat.StructPieces | linux-6.13.1/drivers/net/wireless/ath/ath12k/debugfs_htt_stats.c:101-102 | a fixed-struct formatter prints nothing exactly when the record is shorter than its struct |
| HttStatsFormat.ArrayPieces | linux-6.13.1/drivers/net/wireless/ath/ath12k/debugfs_htt_stats.c:242-260 | a title, then one block of a prefix of the payload with indices from 0 |
| HttStatsFormat.CtrlPathPieces | linux-6.13.1/drivers/net/wireless/ath/ath12k/debugfs_htt_stats.c:417-435 | nothing for a short record; otherwise a block of exactly SUBTYPE_MAX payload words (the guard is corrected; see Findings) |
| HttStatsFormat.PpduMode | linux-6.13.1/drivers/net/wireless/ath/ath12k/debugfs_htt_stats.c:324-342 | a mode prefix exists exactly for the AC, AX and BE hardware modes |
| HttStatsFormat.BurstText | linux-6.13.1/drivers/net/wireless/ath/ath12k/debugfs_htt_stats.c:350-358 | the local burst string stays below MAX_STRING_LEN - 1 |
| HttStatsFormat.BurstTextFits | linux-6.13.1/drivers/net/wireless/ath/ath12k/debugfs_htt_stats.c:350-358 | with room, a burst is its elements joined by commas |
| HttStatsFormat.PpduUnknownModeNoop | linux-6.13.1/drivers/net/wireless/ath/ath12k/debugfs_htt_stats.c:322-342 | `mu_ppdu_dist` prints nothing exactly when the u8 hardware mode is unknown; otherwise a title and four lines per bin |
| HttStatsFormat.WarCount | linux-6.13.1/drivers/net/wireless/ath/ath12k/debugfs_htt_stats.c:881-883 | the u8 word count is below 256, and exact unless the tail has 256 words or more |
| HttStatsFormat.WarText | linux-6.13.1/drivers/net/wireless/ath/ath12k/debugfs_htt_stats.c:866-895 | nothing exactly for a short record; otherwise 2 + count lines |
| HttStatsFormat.WarTextLines | linux-6.13.1/drivers/net/wireless/ath/ath12k/debugfs_htt_stats.c:885-892 | the lines are the title, `mac_id` from word 0, and one `hw_war i = v` per tail word, reading only words the record holds |
| HttStatsFormat.WarCountWraps | linux-6.13.1/drivers/net/wireless/ath/ath12k/debugfs_htt_stats.c:881-883 | a tail of 256 words wraps the count to 0, leaving only the title and mac id |
| HttStatsFormat.WarCountExact | linux-6.13.1/drivers/net/wireless/ath/ath12k/debugfs_htt_stats.c:881-883 | below 256 tail words the count is exact |
| HttStatsFormat.Chunk | linux-6.13.1/drivers/net/wireless/ath/ath12k/debugfs_htt_stats.c:1970-1973 | `%.*s` of a word: at most four characters, none of them NUL |
| HttStatsFormat.ChunkNoNul | linux-6.13.1/drivers/net/wireless/ath/ath12k/debugfs_htt_stats.c:1970-1973 | a word with no zero byte prints all four bytes, little-endian |
| HttStatsFormat.StringData | linux-6.13.1/drivers/net/wireless/ath/ath12k/debugfs_htt_stats.c:1965-1976 | the local data is a C string below MAX_STRING_LEN |
| HttStatsFormat.StringDataBound | linux-6.13.1/drivers/net/wireless/ath/ath12k/debugfs_htt_stats.c:1970-1976 | the data is a prefix of all chunks, and all of them when they fit, so the `break` never fires |
| HttStatsFormat.StringText | linux-6.13.1/drivers/net/wireless/ath/ath12k/debugfs_htt_stats.c:1955-1980 | the TLV prints exactly a title and one data line |
| HttStatsFormat.MpduBranch | linux-6.13.1/drivers/net/wireless/ath/ath12k/debugfs_htt_stats.c:2307-2341 | a block prints only for its scheduler mode: a title for user 0, and seven lines for a user below the limit |
| HttStatsFormat.MpduBranchUsers | linux-6.13.1/drivers/net/wireless/ath/ath12k/debugfs_htt_stats.c:2307-2341 | the title appears exactly for user 0, and a user at or past the limit prints no counters |
| HttStatsFormat.MpduText | linux-6.13.1/drivers/net/wireless/ath/ath12k/debugfs_htt_stats.c:2301-2302 | a short record prints nothing |
| HttStatsFormat.MpduOneMode | linux-6.13.1/drivers/net/wireless/ath/ath12k/debugfs_htt_stats.c:2307-2416 | with distinct modes, at most one of the AC, AX and OFDMA blocks prints |
| HttStatsFormat.FormatText | linux-6.13.1/drivers/net/wireless/ath/ath12k/debugfs_htt_stats.c:2699-2886 | the text after a record stays below the buffer size |
| HttStatsFormat.UnknownTagNoop | linux-6.13.1/drivers/net/wireless/ath/ath12k/debugfs_htt_stats.c:2881-2882 | an unknown tag leaves the text unchanged |
| HttStatsFormat.ShortStructNoop | linux-6.13.1/drivers/net/wireless/ath/ath12k/debugfs_htt_stats.c:101-102 | a fixed struct prints nothing for a short record |
| HttStatsFormat.ShortCtrlPathNoop | linux-6.13.1/drivers/net/wireless/ath/ath12k/debugfs_htt_stats.c:425-426 | the (corrected) control-path formatter prints nothing for a short record |
| HttStatsFormat.ShortPpduNoop | linux-6.13.1/drivers/net/wireless/ath/ath12k/debugfs_htt_stats.c:319-320 | `mu_ppdu_dist` prints nothing for a short record |
| HttStatsFormat.ShortWarNoop | linux-6.13.1/drivers/net/wireless/ath/ath12k/debugfs_htt_stats.c:877-878 | `hw_war` prints nothing for a short record |
| HttStatsFormat.ShortMpduNoop | linux-6.13.1/drivers/net/wireless/ath/ath12k/debugfs_htt_stats.c:2301-2302 | `mu_mimo_mpdu` prints nothing for a short record |
| HttStatsFormat.StructPrintsTitle | linux-6.13.1/drivers/net/wireless/ath/ath12k/debugfs_htt_stats.c:101-106 | a fixed struct past its guard prints its title first |
| HttStatsFormat.ArrayElements | linux-6.13.1/drivers/net/wireless/ath/ath12k/debugfs_htt_stats.c:242-260 | an array formatter prints its title and exactly the first min(tag_len >> 2, MAX) words (tag_len >> 2 when unclamped), ending in a blank line |
| HttStatsFormat.FormatKeepsText | linux-6.13.1/drivers/net/wireless/ath/ath12k/debugfs_htt_stats.c:2699-2886 | handling a record keeps earlier text, except the byte a full buffer's block overwrites |
| HttStatsFormat.RuIndexFrom | linux-6.13.1/drivers/net/wireless/ath/ath12k/debugfs_htt_stats.c:53-88 | the first matching case from `k` on, or none when no case matches |
| HttStatsFormat.RuSizeToStrSpec | linux-6.13.1/drivers/net/wireless/ath/ath12k/debugfs_htt_stats.c:51-89 | each RU size code gets its own name; any other u8 value gets "unknown" |
| HttStatsFormat.RuSizeNamesDistinct | linux-6.13.1/drivers/net/wireless/ath/ath12k/debugfs_htt_stats.c:53-88 | the names are pairwise distinct, and none is "unknown" |
| HttStatsPrint.PrintStruct | linux-6.13.1/drivers/net/wireless/ath/ath12k/debugfs_htt_stats.c:92-239 | the buffer's text becomes the `Emit` of `StructPieces` |
| HttStatsPrint.PrintTitledArray | linux-6.13.1/drivers/net/wireless/ath/ath12k/debugfs_htt_stats.c:253-257 | a title line, then one array block of the first `n` words |
| HttStatsPrint.PrintArray | linux-6.13.1/drivers/net/wireless/ath/ath12k/debugfs_htt_stats.c:242-260 | the text becomes the `Emit` of `ArrayPieces` |
| HttStatsPrint.PrintCtrlPath | linux-6.13.1/drivers/net/wireless/ath/ath12k/debugfs_htt_stats.c:417-435 | the text becomes the `Emit` of `CtrlPathPieces` |
| HttStatsPrint.BurstToStr | linux-6.13.1/drivers/net/wireless/ath/ath12k/debugfs_htt_stats.c:350-358 | the inner loop and its NUL store give `BurstText` |
| HttStatsPrint.PrintPpduBins | linux-6.13.1/drivers/net/wireless/ath/ath12k/debugfs_htt_stats.c:344-390 | the bin loop appends the four lines of every bin, in order |
| HttStatsPrint.PrintMuPpduDist | linux-6.13.1/drivers/net/wireless/ath/ath12k/debugfs_htt_stats.c:305-393 | the text becomes the clamped append of `PpduText` |
| HttStatsPrint.PrintWarLines | linux-6.13.1/drivers/net/wireless/ath/ath12k/debugfs_htt_stats.c:889-892 | the counter loop appends `WarLines` |
| HttStatsPrint.PrintHwWar | linux-6.13.1/drivers/net/wireless/ath/ath12k/debugfs_htt_stats.c:866-895 | the text becomes the clamped append of `WarText` |
| HttStatsPrint.BuildStringData | linux-6.13.1/drivers/net/wireless/ath/ath12k/debugfs_htt_stats.c:1965-1976 | the chunk loop gives `StringData`; its counter is unbounded, the correction of the `u8 i` finding |
| HttStatsPrint.PrintString | linux-6.13.1/drivers/net/wireless/ath/ath12k/debugfs_htt_stats.c:1955-1980 | the text becomes the clamped append of `StringText` |
| HttStatsPrint.PrintMpduBranch | linux-6.13.1/drivers/net/wireless/ath/ath12k/debugfs_htt_stats.c:2307-2341 | one mode block appends `MpduBranch` |
| HttStatsPrint.PrintMuMimoMpdu | linux-6.13.1/drivers/net/wireless/ath/ath12k/debugfs_htt_stats.c:2291-2419 | the text becomes the clamped append of `MpduText` |
| HttStatsPrint.Format | linux-6.13.1/drivers/net/wireless/ath/ath12k/debugfs_htt_stats.c:2705-2883 | a formatter of the given shape appends `ShapePieces` |
| HttStatsPrint.Parse | linux-6.13.1/drivers/net/wireless/ath/ath12k/debugfs_htt_stats.c:2699-2886 | returns 0 and leaves `FormatText` of the record in the buffer |
| HttStatsDebugfs.CookieRoundTrip | linux-6.13.1/drivers/net/wireless/ath/ath12k/debugfs_htt_stats.c:3028-3030 | a request's cookie passes the handler's magic check and yields its pdev id (modulo the field) |
| HttStatsDebugfs.CookiePdevExact | linux-6.13.1/drivers/net/wireless/ath/ath12k/debugfs_htt_stats.c:2902-2910 | a pdev id that fits the LSB field comes back unchanged |
| HttStatsDebugfs.ZeroCookieDropped | linux-6.13.1/drivers/net/wireless/ath/ath12k/debugfs_htt_stats.c:3189-3197 | a reset's cookie 0 passes the magic check only if MAGIC is 0 |
| HttStatsDebugfs.Override | linux-6.13.1/drivers/net/wireless/ath/ath12k/debugfs_htt_stats.c:3032-3037 | the override flag is set exactly when some cfg parameter is nonzero |
| HttStatsDebugfs.StatsReq.constructor | linux-6.13.1/drivers/net/wireless/ath/ath12k/debugfs_htt_stats.c:3082-3097 | a fresh request copies the type and parameters, computes the override, is not done, and has an empty buffer |
| HttStatsDebugfs.StatsReq.Receive | linux-6.13.1/drivers/net/wireless/ath/ath12k/debugfs_htt_stats.c:2922-2942 | completion is signalled exactly for DONE with a declared length within the skb; the fields and text are as `Received` says |
| HttStatsDebugfs.StatsReq.Readable | linux-6.13.1/drivers/net/wireless/ath/ath12k/debugfs_htt_stats.c:3130-3141 | a read sees the whole text, which is below BUF_SIZE |
| HttStatsDebugfs.ScannedCfg | linux-6.13.1/drivers/net/wireless/ath/ath12k/debugfs_htt_stats.c:2982-2985 | the four parameters are the converted values, zero for the rest |
| HttStatsDebugfs.ScannedOverride | linux-6.13.1/drivers/net/wireless/ath/ath12k/debugfs_htt_stats.c:2982-2997 | the next session overrides the defaults exactly when a scanned parameter is nonzero |
| HttStatsDebugfs.TypeBuffer | linux-6.13.1/drivers/net/wireless/ath/ath12k/debugfs_htt_stats.c:2972-2980 | the 32-byte buffer holds the user's first bytes and always ends in NUL (the copy is corrected; see Findings) |
| HttStatsDebugfs.ParamPos | linux-6.13.1/drivers/net/wireless/ath/ath12k/debugfs_htt_stats.c:3171 | the u8 position is below 256 |
| HttStatsDebugfs.ParamPosBlocks | linux-6.13.1/drivers/net/wireless/ath/ath12k/debugfs_htt_stats.c:3171 | types 0-31, 32-63 and 64-95 select positions 1, 2 and 3, each exactly |
| HttStatsDebugfs.ParamPosWraps | linux-6.13.1/drivers/net/wireless/ath/ath12k/debugfs_htt_stats.c:3171 | the u8 wraps: type 8160 gives position 0 and 8192 gives 1 |
| HttStatsDebugfs.ResetCfg | linux-6.13.1/drivers/net/wireless/ath/ath12k/debugfs_htt_stats.c:3170-3187 | cfg0 is the start offset, and at most one of cfg1..cfg3 is nonzero |
| HttStatsDebugfs.ResetCfgWord | linux-6.13.1/drivers/net/wireless/ath/ath12k/debugfs_htt_stats.c:3173-3187 | the reset bit lands in the word its position selects and only there; cfg1 holds `1 << (offset + type)` truncated to u32 |
| HttStatsDebugfs.Radio.Request | linux-6.13.1/drivers/net/wireless/ath/ath12k/debugfs_htt_stats.c:3012-3056 | sends the type, the parameters or zeros, and the cookie; records the pdev; returns the send error, -ETIMEDOUT or 0 |
| HttStatsDebugfs.Radio.Open | linux-6.13.1/drivers/net/wireless/ath/ath12k/debugfs_htt_stats.c:3058-3115 | -EPERM, -ENETDOWN, -EAGAIN and -ENOMEM in that order; otherwise installs the request and drops it again on failure |
| HttStatsDebugfs.Radio.Release | linux-6.13.1/drivers/net/wireless/ath/ath12k/debugfs_htt_stats.c:3117-3128 | returns 0 with no request in flight; the configuration is unchanged |
| HttStatsDebugfs.Radio.WriteType | linux-6.13.1/drivers/net/wireless/ath/ath12k/debugfs_htt_stats.c:2965-3002 | -ENOMEM, -EFAULT, then -EINVAL for nothing scanned or a refused type; otherwise stores the type and parameters and returns `count`; it scans the corrected `TypeBuffer`, not the source's unbounded copy |
| HttStatsDebugfs.Radio.WriteReset | linux-6.13.1/drivers/net/wireless/ath/ath12k/debugfs_htt_stats.c:3151-3203 | passes a parse error on, -E2BIG for a refused type; otherwise sends RESET with `ResetCfg` and cookie 0, and records the type on success |
| HttStatsDebugfs.ParseAll | linux-6.13.1/drivers/net/wireless/ath/ath12k/debugfs_htt_stats.c:2935-2939 | the text after every record stays below BUF_SIZE |
| HttStatsDebugfs.ParseAllKeepsText | linux-6.13.1/drivers/net/wireless/ath/ath12k/debugfs_htt_stats.c:2935-2939 | parsing records keeps earlier text, except one byte a block may overwrite |
| HttStatsDebugfs.ParseAllUnknown | linux-6.13.1/drivers/net/wireless/ath/ath12k/debugfs_htt_stats.c:2881-2885 | records with unknown tags leave the text unchanged |
| HttStatsDebugfs.ParseRecords | linux-6.13.1/drivers/net/wireless/ath/ath12k/debugfs_htt_stats.c:2935-2939 | the TLV iteration leaves `ParseAll` of the records in the buffer |
| HttStatsDebugfs.Handler | linux-6.13.1/drivers/net/wireless/ath/ath12k/debugfs_htt_stats.c:2888-2945 | drops a message without MAGIC, without a radio or without a request; otherwise the request receives it; completion is exactly as `Receive` says |
| HttStatsFindings.CtrlPathWordsReadAsWritten | linux-6.13.1/drivers/net/wireless/ath/ath12k/debugfs_htt_stats.c:425-432 | as written, the formatter reads SUBTYPE_MAX words exactly when the accumulator offset is at least the struct size |
| HttStatsFindings.CtrlPathGuardMisfires | linux-6.13.1/drivers/net/wireless/ath/ath12k/debugfs_htt_stats.c:425-426 | an empty record is read from once the buffer is long, and a full record is dropped on a fresh buffer |
| HttStatsFindings.CtrlPathReadsWithinRecord | linux-6.13.1/drivers/net/wireless/ath/ath12k/debugfs_htt_stats.c:425-432 | with the guard on `tag_len`, only words the record holds are read |
| HttStatsFindings.U8Counter | linux-6.13.1/drivers/net/wireless/ath/ath12k/debugfs_htt_stats.c:19 | a u8 counter stays below 256 |
| HttStatsFindings.U8LoopExit | linux-6.13.1/drivers/net/wireless/ath/ath12k/debugfs_htt_stats.c:19-30 | for a bound of 256 or more, the loop condition holds after every number of increments |
| HttStatsFindings.U8LoopExitSmall | linux-6.13.1/drivers/net/wireless/ath/ath12k/debugfs_htt_stats.c:1962-1976 | below 256 the loop ends after exactly `n` increments |
| HttStatsFindings.TypeCopyAsWritten | linux-6.13.1/drivers/net/wireless/ath/ath12k/debugfs_htt_stats.c:2972-2980 | as written, the buffer holds all `count` user bytes, zero-filled up to the 32 allocated |
| HttStatsFindings.TypeCopyOverruns | linux-6.13.1/drivers/net/wireless/ath/ath12k/debugfs_htt_stats.c:2972-2980 | a 33-byte write puts the 33rd user byte past the end of the 32-byte buffer |
| HttStatsFindings.TypeCopyUnterminated | linux-6.13.1/drivers/net/wireless/ath/ath12k/debugfs_htt_stats.c:2972-2980 | a 32-byte write of non-NUL bytes leaves no NUL in the buffer for `sscanf` |
| HttStatsFindings.TypeCopyAgreesBelowSize | linux-6.13.1/drivers/net/wireless/ath/ath12k/debugfs_htt_stats.c:2972-2980 | below 32 bytes the source's copy and the corrected `TypeBuffer` are the same buffer |
| Zl6100.S16 | linux-6.13.1/drivers/hwmon/pmbus/zl6100.c:64-65 | the `s16` cast gives the value in [-2^15, 2^15) congruent modulo 2^16 |
| Zl6100.CDiv | linux-6.13.1/drivers/hwmon/pmbus/zl6100.c:109 | C `/` truncates toward zero: the quotient times the divisor is at most one divisor below a non-negative dividend, or above a negative one |
| Zl6100.RoundClosest | linux-6.13.1/drivers/hwmon/pmbus/zl6100.c:109 | `DIV_ROUND_CLOSEST` is the nearest integer to the exact quotient, with halves rounded away from zero |
| Zl6100.Exponent | linux-6.13.1/drivers/hwmon/pmbus/zl6100.c:58-78 | the exponent is in [-16, 15] |
| Zl6100.Mantissa | linux-6.13.1/drivers/hwmon/pmbus/zl6100.c:58-78 | the mantissa is the low 11 bits sign-extended |
| Zl6100.FieldsSplit | linux-6.13.1/drivers/hwmon/pmbus/zl6100.c:58-78 | the word is the exponent above the 11 mantissa bits |
| Zl6100.L2d | linux-6.13.1/drivers/hwmon/pmbus/zl6100.c:58-78 | the result is Y·1000·2^N for N >= 0, and its floor for N < 0 |
| Zl6100.PackFields | linux-6.13.1/drivers/hwmon/pmbus/zl6100.c:120 | unpacking a packed word returns both fields |
| Zl6100.Reduce | linux-6.13.1/drivers/hwmon/pmbus/zl6100.c:98-101 | halving stops below MAX_MANTISSA or at N = 15 |
| Zl6100.Grow | linux-6.13.1/drivers/hwmon/pmbus/zl6100.c:103-106 | doubling stops at MIN_MANTISSA or at N = -15 |
| Zl6100.ReduceValue | linux-6.13.1/drivers/hwmon/pmbus/zl6100.c:98-101 | halving k times is division by 2^k |
| Zl6100.GrowValue | linux-6.13.1/drivers/hwmon/pmbus/zl6100.c:103-106 | doubling k times is multiplication by 2^k |
| Zl6100.Normalize | linux-6.13.1/drivers/hwmon/pmbus/zl6100.c:98-106 | the exponent is in [-15, 15], and the value is in range unless N sits at an end |
| Zl6100.Linear | linux-6.13.1/drivers/hwmon/pmbus/zl6100.c:83-121 | the word fits in 16 bits |
| Zl6100.D2l | linux-6.13.1/drivers/hwmon/pmbus/zl6100.c:83-121 | the method with its two loops returns `Linear(val)` |
| Zl6100.NormalizeValue | linux-6.13.1/drivers/hwmon/pmbus/zl6100.c:98-106 | the normalised value is the magnitude scaled by 2^-N |
| Zl6100.NormalizeReduced | linux-6.13.1/drivers/hwmon/pmbus/zl6100.c:98-106 | a value that was halved is not doubled again |
| Zl6100.NormalizeGrown | linux-6.13.1/drivers/hwmon/pmbus/zl6100.c:98-106 | a value that needed no halving is only doubled |
| Zl6100.PackedMantissa | linux-6.13.1/drivers/hwmon/pmbus/zl6100.c:109-120 | the packed mantissa is the rounded value clamped to 0x3ff with the sign, and the exponent is kept |
| Zl6100.LinearNormalized | linux-6.13.1/drivers/hwmon/pmbus/zl6100.c:83-121 | for nonzero input: exponent in [-15, 15], scaled magnitude in [511000, 1023000) away from the range ends, mantissa rounded, clamped and signed unless rounding overflows s16 |
| Zl6100.PackExponent | linux-6.13.1/drivers/hwmon/pmbus/zl6100.c:120 | packing keeps the exponent whatever the mantissa |
| Zl6100.LinearZero | linux-6.13.1/drivers/hwmon/pmbus/zl6100.c:89-90 | only 0 converts to the word 0 |
| Zl6100.OvScaleInverse | linux-6.13.1/drivers/hwmon/pmbus/zl6100.c:169-176 | the two `DIV_ROUND_CLOSEST` steps of an OV limit, 10/9 on write and 9/10 on read, compose to the identity |
| Zl6100.UvScaleNearInverse | linux-6.13.1/drivers/hwmon/pmbus/zl6100.c:169-176 | the two `DIV_ROUND_CLOSEST` steps of a UV limit compose to within one milli-unit, and 5 shows the error |
| Zl6100.ReadWordTarget | linux-6.13.1/drivers/hwmon/pmbus/zl6100.c:130-163 | -ENXIO exactly for a bad page, a ZL2005 hidden register or an unknown virtual register; otherwise the register actually read |
| Zl6100.ReadWord | linux-6.13.1/drivers/hwmon/pmbus/zl6100.c:123-179 | -ENXIO where the target is missing; real registers, READ_VMON and the two VMON fault limits pass through the PMBus read of their target (0xf7, 0xf5, 0xf6) |
| Zl6100.OvWarnReadScalesFault | linux-6.13.1/drivers/hwmon/pmbus/zl6100.c:146-176 | the OV warn limit reads as 9/10 of the fault limit, and fails when that read fails |
| Zl6100.UvWarnReadScalesFault | linux-6.13.1/drivers/hwmon/pmbus/zl6100.c:146-176 | the UV warn limit reads as 11/10 of the fault limit, and fails when that read fails |
| Zl6100.WriteWord | linux-6.13.1/drivers/hwmon/pmbus/zl6100.c:215-250 | -ENXIO exactly for a bad page or an unknown virtual register; cache cleared exactly for VMON limits; real registers and the VMON fault limits (to 0xf5/0xf6) written unchanged; a warn limit goes to its fault register as the Linear11 word of a value whose 9/10 (OV) rounding is the decoded limit, or whose 11/10 (UV) rounding is within one of it |
| Zl6100.WarnWriteTarget | linux-6.13.1/drivers/hwmon/pmbus/zl6100.c:146-163 | a warn limit is written to the register its read comes from |
| Zl6100.VmonStatus | linux-6.13.1/drivers/hwmon/pmbus/zl6100.c:190-206 | each STATUS_VOUT bit is set exactly when its MFR_SPECIFIC bit is |
| Zl6100.ReadByte | linux-6.13.1/drivers/hwmon/pmbus/zl6100.c:181-213 | -ENXIO for a bad page; VMON status translated from page 0; other registers passed through |
| Zl6100.MatchId | linux-6.13.1/drivers/hwmon/pmbus/zl6100.c:302-305 | the first table entry whose name is a case-insensitive prefix of the id, or none if none is |
| Zl6100.Pages | linux-6.13.1/drivers/hwmon/pmbus/zl6100.c:331-332 | two pages exactly for the ZL8802 |
| Zl6100.Identify | linux-6.13.1/drivers/hwmon/pmbus/zl6100.c:287-344 | -ENODEV, the id-read error, -ENODEV for an unknown id, -ENOMEM in that order; once an entry matches, -ENOMEM exactly when allocation fails and success otherwise, with the first matching chip, its pages and VMON support |
| Zl6100.Capabilities | linux-6.13.1/drivers/hwmon/pmbus/zl6100.c:353-398 | the first failing configuration read's error, in the order probe reads them; when no read it makes fails, the per-page capabilities |
| MicrochipT1s.StopFromMeaning | linux-6.13.1/drivers/net/phy/microchip_t1s.c:248-274 | a run returns 0 exactly when every access succeeds, and otherwise the error of its last access, all earlier ones having succeeded |
| MicrochipT1s.Offset | linux-6.13.1/drivers/net/phy/microchip_t1s.c:150-155 | the offset is in [-16, 15], congruent modulo 32, and negative exactly when bit 4 is set |
| MicrochipT1s.CfgFieldPrep | linux-6.13.1/drivers/net/phy/microchip_t1s.c:205-208 | the words are the `FIELD_PREP` sums of the source |
| MicrochipT1s.CfgFields | linux-6.13.1/drivers/net/phy/microchip_t1s.c:205-208 | both words fit in 16 bits, and each field holds its sum modulo 64 |
| MicrochipT1s.SqiFieldsSeparate | linux-6.13.1/drivers/net/phy/microchip_t1s.c:225-230 | a low addend in 0..255 sits in bits 7:0 beside the field |
| MicrochipT1s.SqiWordsSeparate | linux-6.13.1/drivers/net/phy/microchip_t1s.c:225-230 | for offsets from -9 on, each SQI word has its high field and low byte as intended |
| MicrochipT1s.SqiNegativeFloods | linux-6.13.1/drivers/net/phy/microchip_t1s.c:225-230 | offset -10 floods the first SQI word to 0xFFFF |
| MicrochipT1s.FixupPlanOrder | linux-6.13.1/drivers/net/phy/microchip_t1s.c:248-260 | the fixups are written in table order, with the cfgparam setup right after index 1 |
| MicrochipT1s.FixupPlanPrefix | linux-6.13.1/drivers/net/phy/microchip_t1s.c:325-337 | Rev.C's fixups are a prefix of Rev.B's |
| MicrochipT1s.ResetCheckMeaning | linux-6.13.1/drivers/net/phy/microchip_t1s.c:277-300 | one or two STS2 reads; 0 exactly when a read shows bit 11 set; -ENODEV when both show it clear; else the failing read's error |
| MicrochipT1s.ColDetAfter | linux-6.13.1/drivers/net/phy/microchip_t1s.c:391-408 | bit 15 cleared when PLCA is enabled and set when disabled; every other bit kept |
| MicrochipT1s.MaskWriteBit | linux-6.13.1/drivers/net/phy/microchip_t1s.c:391-408 | a read-modify-write that masks one bit and sets it to 0 or 1 replaces that bit and keeps every other |
| MicrochipT1s.ColDetModify | linux-6.13.1/drivers/net/phy/microchip_t1s.c:391-408 | the COL_DET_CTRL0 write `PlcaSetCfg` records (mask BIT(15), set 0 or BIT(15)) leaves `ColDetAfter` of the old value |
| MicrochipT1s.Phy.constructor | linux-6.13.1/drivers/net/phy/microchip_t1s.c:236-237 | a fresh PHY has made no access |
| MicrochipT1s.Phy.ReadMmd | linux-6.13.1/drivers/net/phy/microchip_t1s.c:128 | one read is appended to the trace, returning the bus value |
| MicrochipT1s.Phy.WriteMmd | linux-6.13.1/drivers/net/phy/microchip_t1s.c:249-251 | one write is appended, returning its status |
| MicrochipT1s.Phy.ModifyMmd | linux-6.13.1/drivers/net/phy/microchip_t1s.c:369-372 | one read-modify-write is appended, returning its status |
| MicrochipT1s.Phy.IndirectRead | linux-6.13.1/drivers/net/phy/microchip_t1s.c:120-135 | a failing write stops the plan with its status; otherwise the data read's value |
| MicrochipT1s.Phy.GenerateCfgOffsets | linux-6.13.1/drivers/net/phy/microchip_t1s.c:140-159 | the first error, or the two sign-extended offsets after six accesses |
| MicrochipT1s.Phy.ReadCfgParams | linux-6.13.1/drivers/net/phy/microchip_t1s.c:161-176 | reads registers in order until one fails |
| MicrochipT1s.Phy.WriteCfgParams | linux-6.13.1/drivers/net/phy/microchip_t1s.c:178-192 | writes registers in order until one fails |
| MicrochipT1s.Phy.SetupCfgparam | linux-6.13.1/drivers/net/phy/microchip_t1s.c:194-212 | two reads, then the two computed words, stopping at the first error |
| MicrochipT1s.Phy.SetupSqiCfgparam | linux-6.13.1/drivers/net/phy/microchip_t1s.c:214-234 | three reads, then the three SQI words, stopping at the first error |
| MicrochipT1s.Phy.FixupLoop | linux-6.13.1/drivers/net/phy/microchip_t1s.c:248-260 | the first `n` fixups with the cfgparam setup after index 1, stopping at the first error |
| MicrochipT1s.Phy.FixupIteration | linux-6.13.1/drivers/net/phy/microchip_t1s.c:249-259 | one write, and the cfgparam setup after index 1 |
| MicrochipT1s.Phy.ConfigFixups | linux-6.13.1/drivers/net/phy/microchip_t1s.c:248-272 | the fixups, the SQI cfgparams and the SQI fixups, stopping at the first error |
| MicrochipT1s.Phy.OffsetsThenFixups | linux-6.13.1/drivers/net/phy/microchip_t1s.c:244-274 | the offset reads, then the fixups and the SQI part with the offsets read, up to the first failure |
| MicrochipT1s.Phy.RevBConfigInit | linux-6.13.1/drivers/net/phy/microchip_t1s.c:236-275 | exactly the Rev.B plan's accesses up to the first failure, returning its error or 0 |
| MicrochipT1s.Phy.CheckResetComplete | linux-6.13.1/drivers/net/phy/microchip_t1s.c:277-300 | one or two STS2 reads, with the result `ResetCheck` gives |
| MicrochipT1s.Phy.RevCConfigInit | linux-6.13.1/drivers/net/phy/microchip_t1s.c:302-352 | the reset check, then the Rev.C plan up to the first failure |
| MicrochipT1s.Phy.RevB1ConfigInit | linux-6.13.1/drivers/net/phy/microchip_t1s.c:354-378 | the reset check, then the 12 read-modify-writes up to the first failure |
| MicrochipT1s.Phy.ModifyFixups | linux-6.13.1/drivers/net/phy/microchip_t1s.c:368-375 | one read-modify-write per entry until one fails |
| MicrochipT1s.Phy.PlcaSetCfg | linux-6.13.1/drivers/net/phy/microchip_t1s.c:391-408 | the generic error with no access, or one read-modify-write of COL_DET_CTRL0 bit 15 and its status; `ColDetModify` gives the register value that write leaves |
| MicrochipT1s.Phy.ReadStatus | linux-6.13.1/drivers/net/phy/microchip_t1s.c:410-423 | link up, half duplex, 10 Mb/s, no autonegotiation, no bus access |
| BcachefsLru.PosId | linux-6.13.1/fs/bcachefs/lru.h:5-8 | the id is the top 16 bits |
| BcachefsLru.PosTime | linux-6.13.1/fs/bcachefs/lru.h:10-13 | the time is at most LRU_TIME_MAX |
| BcachefsLru.LruPos | linux-6.13.1/fs/bcachefs/lru.h:15-25 | the bucket is the offset, and for a time up to LRU_TIME_MAX the id and time read back (the `EBUG_ON`s) |
| BcachefsLru.PosSplit | linux-6.13.1/fs/bcachefs/lru.h:5-25 | id and time recombine to the inode field, so `lru_pos` rebuilds any position |
| BcachefsLru.TimeOverflowSpills | linux-6.13.1/fs/bcachefs/lru.h:19-22 | a time above LRU_TIME_MAX spills into the id |
| BcachefsLru.LruType | linux-6.13.1/fs/bcachefs/lru.h:27-34 | the fragmentation LRU exactly when the top 16 bits are BCH_LRU_FRAGMENTATION_START |
| BcachefsLru.LruTypeOfPos | linux-6.13.1/fs/bcachefs/lru.h:15-34 | an entry's type is that of the id it was built with |
| S390Insn.InsnLength | linux-6.13.1/tools/testing/selftests/kvm/include/s390x/processor.h:36-39 | 2, 4 or 6 bytes for opcodes below 0x40, below 0xC0, and the rest |
| S390Insn.InsnLengthIsIlc | linux-6.13.1/tools/testing/selftests/kvm/include/s390x/processor.h:38 | the length is twice the halfword count of the top two bits |
| S390Insn.InsnLengthTopBits | linux-6.13.1/tools/testing/selftests/kvm/include/s390x/processor.h:38 | only the top two opcode bits matter |
| XeGfxpipe.PipelineValueInjective | linux-6.13.1/drivers/gpu/drm/xe/instructions/xe_gfxpipe_commands.h:11-15 | the four pipelines have distinct field values |
| XeGfxpipe.CmdFieldPrep | linux-6.13.1/drivers/gpu/drm/xe/instructions/xe_gfxpipe_commands.h:25-43 | a command is the sum of the macro's four field values |
| XeGfxpipe.CmdIsOr | linux-6.13.1/drivers/gpu/drm/xe/instructions/xe_gfxpipe_commands.h:25-43 | the macros' left-to-right OR of the GFXPIPE type and the three field values, on 32 bits, is the command |
| XeGfxpipe.ExtractorsAreGet | linux-6.13.1/drivers/gpu/drm/xe/instructions/xe_gfxpipe_commands.h:11-18 | the field readers are `FIELD_GET` of the masks |
| XeGfxpipe.Masked | linux-6.13.1/drivers/gpu/drm/xe/instructions/xe_gfxpipe_commands.h:20-23 | the match mask keeps a u32 and clears the low 16 bits |
| XeGfxpipe.CmdFields | linux-6.13.1/drivers/gpu/drm/xe/instructions/xe_gfxpipe_commands.h:25-43 | a built command reads back its type, pipeline, opcode and subopcode, with the low half clear |
| XeGfxpipe.MatchIgnoresLowBits | linux-6.13.1/drivers/gpu/drm/xe/instructions/xe_gfxpipe_commands.h:20-23 | data below bit 16 does not change what a command matches |
| XeGfxpipe.DwLenOutsideMask | linux-6.13.1/drivers/gpu/drm/xe/instructions/xe_gfxpipe_commands.h:154 | the SO_DECL_LIST dword length lies below bit 16 |
| XeGfxpipe.MatchIff | linux-6.13.1/drivers/gpu/drm/xe/instructions/xe_gfxpipe_commands.h:20-43 | two commands agree under the mask exactly when all three arguments agree |
| XeGfxpipe.NamedCommandsOrdered | linux-6.13.1/drivers/gpu/drm/xe/instructions/xe_gfxpipe_commands.h:45-161 | the named commands rise strictly by pipeline, opcode and subopcode |
| XeGfxpipe.NamedCommandsDistinct | linux-6.13.1/drivers/gpu/drm/xe/instructions/xe_gfxpipe_commands.h:45-161 | no two named commands match the same dword |
| Rk3576Reset.Decode | linux-6.13.1/drivers/clk/rockchip/rst-rk3576.c:14-21 | a decoded entry fits its block and lies at or above the block base |
| Rk3576Reset.DecodeOffset | linux-6.13.1/drivers/clk/rockchip/rst-rk3576.c:14-21 | decoding an entry's offset recovers the entry |
| Rk3576Reset.OffsetInjective | linux-6.13.1/drivers/clk/rockchip/rst-rk3576.c:14-21 | entries that fit have equal offsets exactly when they are equal |
| Rk3576Reset.EntriesOrdered | linux-6.13.1/drivers/clk/rockchip/rst-rk3576.c:24-641 | the table's offsets rise strictly in source order |
| Rk3576Reset.RegisterOffsetDecodes | linux-6.13.1/drivers/clk/rockchip/rst-rk3576.c:24-641 | there are 484 entries; each fits, and its offset decodes back to it |
| Rk3576Reset.RegisterOffsetDistinct | linux-6.13.1/drivers/clk/rockchip/rst-rk3576.c:24-641 | no two reset lines share a bit |
| SamsungSdiBattery.FirstMatch | linux-6.13.1/drivers/power/supply/samsung-sdi-battery.c:905-909 | the index the loop stops at: the first matching entry, or the table size |
| SamsungSdiBattery.InfoPointer.constructor | linux-6.13.1/drivers/power/supply/samsung-sdi-battery.c:900 | the caller's pointer starts at the given target |
| SamsungSdiBattery.GetInfo | linux-6.13.1/drivers/power/supply/samsung-sdi-battery.c:898-919 | -ENODEV with `*info` untouched when nothing matches; otherwise 0, with `*info` at the first match |
| SamsungSdiBattery.CompatiblesDistinct | linux-6.13.1/drivers/power/supply/samsung-sdi-battery.c:631-896 | six batteries with pairwise distinct compatible strings |
| SamsungSdiBattery.FirstMatchUnique | linux-6.13.1/drivers/power/supply/samsung-sdi-battery.c:905-912 | the lookup finds entry i exactly for i's own string |
| SamsungSdiBattery.OcvTablesSorted | linux-6.13.1/drivers/power/supply/samsung-sdi-battery.c:445-614 | every OCV table falls in voltage, with capacity falling strictly from 100% to 0% |
| SamsungSdiBattery.OcvRepeats | linux-6.13.1/drivers/power/supply/samsung-sdi-battery.c:486-487 | the voltage order is not strict: two EB485159LU rows share 3684000 µV |
| SamsungSdiBattery.TempTableFlat | linux-6.13.1/drivers/power/supply/samsung-sdi-battery.c:424-443 | every battery shares the temperature table: 100% from 50 °C down to -20 °C |

## Findings

| source | as written | input that shows it | evidently intended | confidence | as-written member | corrected member |
|---|---|---|---|---|---|---|
| linux-6.13.1/drivers/net/wireless/ath/ath12k/debugfs_htt_stats.c:425-426 | the control-path formatter compares the accumulator offset `len`, not `tag_len`, with the struct size | a record with `tag_len` 0 when the buffer already holds `sizeof` bytes (read past the record); a complete record on an empty buffer (dropped) | `if (tag_len < sizeof(*htt_stats_buf)) return;`, as in every other guarded formatter | not executed | HttStatsFindings.CtrlPathGuardMisfires | HttStatsFindings.CtrlPathReadsWithinRecord |
| linux-6.13.1/drivers/net/wireless/ath/ath12k/debugfs_htt_stats.c:19-30 | `u8 i` counts up to `array_len`, which the unclamped formatters pass as `tag_len >> 2` (up to 16383); the string formatter at 1962-1976 has the same counter | `array_len` = 256: `i < 256` holds for every u8 value, so the loop never ends | a counter as wide as the bound (`u32 i`) | not executed | HttStatsFindings.U8LoopExit | HttStatsFindings.U8LoopExitSmall |
| linux-6.13.1/drivers/net/wireless/ath/ath12k/debugfs_htt_stats.c:2972-2980 | `copy_from_user(buf, user_buf, count)` into a 32-byte `kzalloc` | a write of 33 bytes overruns the buffer; one of 32 leaves `sscanf` no NUL | copy at most `size - 1` bytes | not executed | HttStatsFindings.TypeCopyOverruns, HttStatsFindings.TypeCopyUnterminated | HttStatsDebugfs.TypeBuffer |

Two more wrap-arounds are modelled as written but not listed above, because the intended behaviour is unclear:

- HttStatsFormat.WarCountWraps: `u8 array_words` wraps for 256 or more tail words (see also HttStatsFormat.WarCount).
- HttStatsDebugfs.ParamPosWraps: `u8 param_pos` wraps only for types far beyond any NUM.

## Left out

- Bus and firmware I/O is not modelled as I/O. MMD accesses, PMBus reads and writes, the HTT send (`ath12k_dp_tx_htt_h2t_ext_stats_req`) and the completion wait are oracle parameters or inputs. Only the order and arguments of the accesses are modelled.
- Locking is not modelled: `ar->conf_mutex`, `wiphy_lock`, RCU and `complete()` are sequential steps or a returned flag.
- `udelay`, `dev_info`, `phydev_err` and `ath12k_warn` are left out: they have no effect on the results.
- The exact decimal text of fixed-struct formatter bodies is a parameter (`Params.body`). The roughly fifty fixed-struct formatters are one shape, `FixedStruct`. The array formatters are one shape, `WordArray`, with their titles, headers and clamping transcribed.
- The TLV iterator `ath12k_dp_htt_tlv_iter` is left out. It is not part of this model; the records it hands to the callback are the input. Its length validation and its error return are not claimed.
- `ath12k_get_ar_by_pdev_id` is a lookup parameter.
- The constants of `debugfs_htt_stats.h` are parameters: buffer sizes, field masks, struct sizes, the magic value, RU size codes and the reset bitmaps. Only what the code relies on is required of them.
- `ath12k_read_htt_stats_type` (2947-2963) and `ath12k_read_htt_stats_reset` are left out. They print one number with `scnprintf`.
- `ath12k_debugfs_htt_stats_register` (3212) and the `file_operations` tables are left out. They are registration glue.
- `sscanf` is a parameter (`Scan`). Its parsing of decimal text is not modelled.
- `kstrtou32_from_user` in the reset write is its returned status plus a value.
- HttStatsDebugfs.Radio.Open: the model installs the request and drops it again on failure in one step. It does not model the window at 3108-3110 in which a concurrent handler could see the request.
- HttStatsFormat.CtrlPathPieces: guards on the record's `tag_len`, the correction of the control-path finding; the source tests the accumulator offset `len` at 425. HttStatsPrint.PrintCtrlPath follows it.
- HttStatsBuf.PrintArrayToBufIndex: its counter is unbounded, the correction of the `u8 i` finding (19-30). For 256 or more words the source's loop does not end.
- HttStatsBuf.PrintElems: its counter is unbounded, the correction of the `u8 i` finding (19-30). For 256 or more words the source's loop does not end.
- HttStatsPrint.BuildStringData: its counter is unbounded, the correction of the `u8 i` finding at 1962-1976. For 256 or more words the source's loop does not end.
- HttStatsDebugfs.Radio.WriteType: scans the corrected `TypeBuffer`, at most 31 user bytes and a NUL. The source copies all `count` bytes into the 32-byte buffer at 2979; that is the `copy_from_user` finding.
- Zl6100.OvScaleInverse: covers the two `DIV_ROUND_CLOSEST` roundings only. The L2d/Linear11 encoding between them quantises again, and that is not covered.
- Zl6100.UvScaleNearInverse: covers the two `DIV_ROUND_CLOSEST` roundings only. The L2d/Linear11 encoding between them quantises again, and that is not covered.
- HttStatsBuf.PrintArrayToBufIndex: requires a non-empty footer and always prints the header. Every caller passes both strings, so the `NULL` branches at 21 and 35 are not modelled.
- Zl6100: the PMBus command codes and `PB_STATUS_*`/`PMBUS_HAVE_*` values come from `pmbus.h`, which is not part of this model. They are transcribed.
- Zl6100: `pmbus_do_probe`, the `i2c_device_id`/`of_device_id` tables, the delay bookkeeping (`access_delay`, `write_delay`) and devm allocation are left out. Allocation is an input flag.
- Zl6100.D2l: `val` is a `long`. Its negation is taken in unbounded integers, so `LONG_MIN` is not modelled.
- Zl6100.L2d: `long` is taken as 64 bits, where `mantissa * 1000 << exponent` (71-74) always fits. On a 32-bit `long` it overflows once the product passes 2^31 (1023000 · 2^11 already does), and so do the scaled VMON reads at 169-173. That overflow is not modelled.
- MicrochipT1s: `genphy_c45_plca_set_cfg` is an input result.
- MicrochipT1s: the LAN865x `read_mmd`/`write_mmd` overrides from line 435 on, the `phy_driver` table and the module glue are left out. They are the PHY core's interface.
- MicrochipT1s.Phy.ModifyMmd: `phy_modify_mmd`'s read-modify-write is one access with one status. Its internal read is not a separate trace entry.
- BcachefsLru: the `bcachefs_format.h` constants are transcribed. The `snapshot` field of `struct bpos` is left out; these helpers do not read it.
- SamsungSdiBattery: the rows of the `samsung_vbat2res_*` tables (28-422) are left out. The batteries refer to them by name, and nothing is proved about their contents.
- Rk3576Reset: the dt-binding reset ids that index the table are left out, and the table's order is kept.
- Rk3576Reset: `rk3576_rst_init` and `rockchip_register_softrst_lut` are foreign calls and are left out.
- XeGfxpipe: `XE_INSTR_CMD_TYPE` (bits 31:29) and `XE_INSTR_GFXPIPE` (type 3) come from `xe_instr_defs.h`, which is not part of this model; they are transcribed. The macros' bitwise OR is written as a sum; `CmdIsOr` proves the 32-bit OR of the four fields equal to it.
- The other files of the repository are context, not core, and are not modelled. They include `send_signal.c`, `timerlat_load.py` and the header-only register definition files.
