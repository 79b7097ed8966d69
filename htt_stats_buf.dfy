/**
 * The byte buffer of a `struct debug_htt_stats_req` and the two primitives
 * every formatter writes through: `scnprintf` and `print_array_to_buf_index`.
 */
module HttStatsBuf {
  import opened HttText
  import Bits

  /** `stats_req->buf` (ATH12K_HTT_STATS_BUF_SIZE bytes) and `stats_req->buf_len`. */
  class StatsBuf {
    const data: array<char>
    var len: nat

    ghost predicate Valid()
      reads this
    {
      2 <= data.Length && len < data.Length
    }

    /** The text accumulated so far. */
    function Text(): string
      reads this, data
      requires len <= data.Length
    {
      data[..len]
    }

    /** The zeroed buffer of a freshly allocated request. */
    constructor (size: nat)
      requires 2 <= size
      ensures Valid() && fresh(data)
      ensures data.Length == size && len == 0 && Text() == ""
    {
      data := new char[size](_ => '\0');
      len := 0;
    }
  }

  /**
   * `scnprintf(buf + at, size, "%s", s)`: with room for at least the NUL it
   * copies `min(|s|, size - 1)` characters, terminates them and returns how
   * many it copied; with `size == 0` it writes nothing and returns 0.
   */
  method Scnprintf(buf: array<char>, at: nat, size: nat, s: string) returns (n: nat)
    requires at + size <= buf.Length
    modifies buf
    ensures size == 0 ==> n == 0 && buf[..] == old(buf[..])
    ensures size > 0 ==> n == Min(|s|, size - 1) && buf[at + n] == '\0'
    ensures buf[..at + n] == old(buf[..at]) + s[..n]
  {
    if size == 0 {
      return 0;
    }
    n := Min(|s|, size - 1);
    var i := 0;
    while i < n
      invariant 0 <= i <= n
      invariant buf[..at + i] == old(buf[..at]) + s[..i]
    {
      buf[at + i] := s[i];
      assert buf[..at + i + 1] == buf[..at + i] + [s[i]];
      assert s[..i + 1] == s[..i] + [s[i]];
      i := i + 1;
    }
    buf[at + n] := '\0';
    assert buf[..at + n] == old(buf[..at]) + s[..n];
  }

  /** `len += scnprintf(buf + len, BUF_SIZE - len, ...)`: one clamped append to the text `buf[..len]`. */
  method Append(buf: array<char>, len: nat, s: string) returns (len': nat)
    requires len < buf.Length
    modifies buf
    ensures len' < buf.Length
    ensures buf[..len'] == Put(old(buf[..len]), buf.Length, s)
  {
    var n := Scnprintf(buf, len, buf.Length - len, s);
    len' := len + n;
  }

  /**
   * `print_array_to_buf_index(buf, offset, header, stats_index, words, array_len, footer)`:
   * prints `"<header> = "`, then `" <index>:<value>,"` for each of the first
   * `array_len` words with indices counting up from `stats_index` in a u32,
   * backs up one byte over the trailing comma, prints the footer, and returns
   * how far the text now extends beyond `offset`.
   *
   * The loop counter is unbounded here; the source's `u8` counter is the
   * finding modelled by `HttStatsFindings.U8LoopExit`.
   */
  method PrintArrayToBufIndex(buf: array<char>, offset: nat, header: string, statsIndex: nat,
                              words: seq<nat>, arrayLen: nat, footer: string) returns (index: nat)
    requires 2 <= buf.Length && offset < buf.Length
    requires arrayLen <= |words|
    requires |footer| > 0
    modifies buf
    ensures offset + index < buf.Length
    ensures buf[..offset + index] == ArrayText(old(buf[..offset]), buf.Length, header, statsIndex, words[..arrayLen], footer)
  {
    ghost var t := old(buf[..offset]);
    var cap := buf.Length;
    var head := header + " = ";
    var k := Scnprintf(buf, offset, cap - offset, head);
    var pos := PrintElems(buf, offset + k, statsIndex, words, arrayLen);
    var idx: int := pos - offset;
    PutPut(t, cap, head, Elems(statsIndex, words[..arrayLen]));
    ghost var body := buf[..offset + idx];
    assert body == Put(t, cap, head + Elems(statsIndex, words[..arrayLen]));
    PutNonEmpty(t, cap, head + Elems(statsIndex, words[..arrayLen]));
    // To overwrite the last trailing comma
    idx := idx - 1;
    buf[offset + idx] := '\0';
    assert buf[..offset + idx] == DropLast(body);
    k := Scnprintf(buf, offset + idx, (cap - offset) - idx, footer);
    index := idx + k;
  }

  /** The loop of `print_array_to_buf_index`: one `" %u:%u,"` per word, appended at `pos`. */
  method PrintElems(buf: array<char>, pos: nat, statsIndex: nat, words: seq<nat>, arrayLen: nat) returns (pos': nat)
    requires pos < buf.Length
    requires arrayLen <= |words|
    modifies buf
    ensures pos' < buf.Length
    ensures buf[..pos'] == Put(old(buf[..pos]), buf.Length, Elems(statsIndex, words[..arrayLen]))
  {
    ghost var t := old(buf[..pos]);
    ghost var ps := ElemPieces(statsIndex, words[..arrayLen]);
    var cap := buf.Length;
    var i: nat := 0;
    var statsIdx := statsIndex % U32;
    assert statsIdx == ElemIndex(statsIndex, 0);
    pos' := pos;
    assert ps[..0] == [];
    while i < arrayLen
      invariant i <= arrayLen
      invariant pos' < cap
      invariant statsIdx == ElemIndex(statsIndex, i)
      invariant buf[..pos'] == Put(t, cap, Concat(ps[..i]))
    {
      pos' := AppendElem(buf, pos', statsIdx, words[i], t, ps, i);
      NextIndex(statsIndex, i, statsIdx);
      statsIdx := NextU32(statsIdx);
      i := i + 1;
    }
    assert ps[..i] == ps;
  }

  method AppendElem(buf: array<char>, pos: nat, index: nat, value: nat,
                    ghost t: string, ghost ps: seq<string>, ghost i: nat) returns (pos': nat)
    requires pos < buf.Length && |t| < buf.Length && i < |ps|
    requires buf[..pos] == Put(t, buf.Length, Concat(ps[..i]))
    requires ps[i] == Elem(index, value)
    modifies buf
    ensures pos' < buf.Length
    ensures buf[..pos'] == Put(t, buf.Length, Concat(ps[..i + 1]))
  {
    ghost var before := buf[..pos];
    pos' := Append(buf, pos, Elem(index, value));
    PutStep(t, buf.Length, ps, i, before, buf[..pos']);
  }

  lemma NextIndex(start: nat, i: nat, idx: nat)
    requires idx == ElemIndex(start, i)
    ensures NextU32(idx) == ElemIndex(start, i + 1)
  {
    Bits.ModSucc(start + i, U32);
  }

  lemma PutStep(t: string, cap: nat, ps: seq<string>, i: nat, before: string, after: string)
    requires |t| < cap && i < |ps|
    requires before == Put(t, cap, Concat(ps[..i]))
    requires after == Put(before, cap, ps[i])
    ensures after == Put(t, cap, Concat(ps[..i + 1]))
  {
    PutPut(t, cap, Concat(ps[..i]), ps[i]);
    ConcatSnoc(ps, i);
  }

  /** `print_array_to_buf`: the same with indices from 0. */
  method PrintArrayToBuf(buf: array<char>, offset: nat, header: string, words: seq<nat>,
                         arrayLen: nat, footer: string) returns (index: nat)
    requires 2 <= buf.Length && offset < buf.Length
    requires arrayLen <= |words|
    requires |footer| > 0
    modifies buf
    ensures offset + index < buf.Length
    ensures buf[..offset + index] == ArrayText(old(buf[..offset]), buf.Length, header, 0, words[..arrayLen], footer)
  {
    index := PrintArrayToBufIndex(buf, offset, header, 0, words, arrayLen, footer);
  }

  /** Appends one piece at `len`, as the source prints it. */
  method EmitPiece(buf: array<char>, len: nat, q: Piece) returns (len': nat)
    requires 2 <= buf.Length && len < buf.Length && WfPiece(q)
    modifies buf
    ensures len' < buf.Length
    ensures buf[..len'] == Step(old(buf[..len]), buf.Length, q)
  {
    match q {
      case Line(s) =>
        len' := Append(buf, len, s);
      case Block(header, start, values, footer) =>
        var n := PrintArrayToBufIndex(buf, len, header, start, values, |values|, footer);
        assert values[..|values|] == values;
        len' := len + n;
    }
  }

  /** Appends the pieces at `len` in order. */
  method EmitPieces(buf: array<char>, len: nat, ps: seq<Piece>) returns (len': nat)
    requires 2 <= buf.Length && len < buf.Length && WfPieces(ps)
    modifies buf
    ensures len' < buf.Length
    ensures buf[..len'] == Emit(old(buf[..len]), buf.Length, ps)
  {
    ghost var t := old(buf[..len]);
    var cap := buf.Length;
    len' := len;
    var i := 0;
    assert ps[..0] == [];
    while i < |ps|
      invariant i <= |ps| && len' < cap
      invariant buf[..len'] == Emit(t, cap, ps[..i])
    {
      EmitSnoc(t, cap, ps, i);
      len' := EmitPiece(buf, len', ps[i]);
      i := i + 1;
    }
    assert ps[..i] == ps;
  }
}
