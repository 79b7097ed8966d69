/**
 * The text that the ath12k HTT stats formatters accumulate in `stats_req->buf`,
 * as a pure value.
 *
 * Every append in debugfs_htt_stats.c is `scnprintf(buf + len, cap - len, ...)`:
 * it copies at most `cap - len - 1` characters, so the text never reaches the
 * capacity and one byte is always left for the terminating NUL.
 */
module HttText {

  function Min(a: int, b: int): int
  {
    if a < b then a else b
  }

  /** A C string: no embedded NUL. */
  predicate CStr(s: string)
  {
    '\0' !in s
  }

  predicate AllCStr(ss: seq<string>)
  {
    forall i :: 0 <= i < |ss| ==> CStr(ss[i])
  }

  /** The text after `scnprintf(buf + |t|, cap - |t|, "%s", s)` on a buffer holding `t`. */
  function Put(t: string, cap: nat, s: string): (r: string)
    requires |t| < cap
    ensures |r| < cap
    ensures |r| == Min(|t| + |s|, cap - 1)
    ensures r[..|t|] == t
  {
    t + s[..Min(|s|, cap - 1 - |t|)]
  }

  /** The characters of `r` after the prefix `t` come from `s`, in order. */
  lemma PutIsPrefixOfFullText(t: string, cap: nat, s: string)
    requires |t| < cap
    ensures Put(t, cap, s) <= t + s
    ensures |t| + |s| < cap ==> Put(t, cap, s) == t + s
  {
  }

  /** Two clamped appends are one clamped append of the concatenation. */
  lemma PutPut(t: string, cap: nat, a: string, b: string)
    requires |t| < cap
    ensures Put(Put(t, cap, a), cap, b) == Put(t, cap, a + b)
  {
    var ta := Put(t, cap, a);
    var na := Min(|a|, cap - 1 - |t|);
    var nb := Min(|b|, cap - 1 - |ta|);
    var n := Min(|a + b|, cap - 1 - |t|);
    if na == |a| {
      assert (a + b)[..n] == a + b[..nb];
    } else {
      assert nb == 0;
      assert (a + b)[..n] == a[..na];
    }
  }

  /** The pieces in order, as one string. */
  function Concat(ss: seq<string>): string
  {
    if |ss| == 0 then "" else Concat(ss[..|ss| - 1]) + ss[|ss| - 1]
  }

  lemma ConcatAppend(ss: seq<string>, s: string)
    ensures Concat(ss + [s]) == Concat(ss) + s
  {
    assert (ss + [s])[..|ss|] == ss;
  }

  /** Concatenation distributes over appending sequences of pieces. */
  lemma {:induction false} ConcatJoin(a: seq<string>, b: seq<string>)
    ensures Concat(a + b) == Concat(a) + Concat(b)
  {
    if |b| > 0 {
      var init := b[..|b| - 1];
      assert (a + b)[..|a + b| - 1] == a + init;
      assert (a + b)[|a + b| - 1] == b[|b| - 1];
      ConcatJoin(a, init);
      assert Concat(b) == Concat(init) + b[|b| - 1];
    } else {
      assert a + b == a;
    }
  }

  /** One more clamped append extends the appended sequence by that piece. */
  lemma ConcatCons(s: string, ss: seq<string>)
    ensures Concat([s] + ss) == s + Concat(ss)
  {
    ConcatJoin([s], ss);
    assert [s][..0] == [];
  }

  /** Two lines, then a run of lines: one clamped append of all of them. */
  lemma PutHead(t: string, cap: nat, a: string, b: string, ss: seq<string>)
    requires |t| < cap
    ensures Put(Put(Put(t, cap, a), cap, b), cap, Concat(ss)) == Put(t, cap, Concat([a, b] + ss))
  {
    PutPut(t, cap, a, b);
    PutPut(t, cap, a + b, Concat(ss));
    ConcatCons(b, ss);
    ConcatCons(a, [b] + ss);
    assert [a, b] + ss == [a] + ([b] + ss);
    assert a + b + Concat(ss) == a + (b + Concat(ss));
  }

  lemma PutSnoc(t: string, cap: nat, ss: seq<string>, s: string)
    requires |t| < cap
    ensures Put(Put(t, cap, Concat(ss)), cap, s) == Put(t, cap, Concat(ss + [s]))
  {
    PutPut(t, cap, Concat(ss), s);
    ConcatAppend(ss, s);
  }

  /** A prefix of a C string is a C string. */
  lemma PrefixCStr(s: string, n: nat)
    requires CStr(s) && n <= |s|
    ensures CStr(s[..n])
  {
  }

  lemma AllCStrAppend(a: seq<string>, b: seq<string>)
    requires AllCStr(a) && AllCStr(b)
    ensures AllCStr(a + b)
  {
    forall i | 0 <= i < |a + b|
      ensures CStr((a + b)[i])
    {
      if i < |a| {
        assert (a + b)[i] == a[i];
      } else {
        assert (a + b)[i] == b[i - |a|];
      }
    }
  }

  lemma {:induction false} ConcatCStr(ss: seq<string>)
    requires AllCStr(ss)
    ensures CStr(Concat(ss))
  {
    if |ss| > 0 {
      ConcatCStr(ss[..|ss| - 1]);
    }
  }

  /** The text after appending each piece of `ss` with its own scnprintf. */
  function PutAll(t: string, cap: nat, ss: seq<string>): (r: string)
    requires |t| < cap
    ensures |r| < cap
  {
    if |ss| == 0 then t else Put(PutAll(t, cap, ss[..|ss| - 1]), cap, ss[|ss| - 1])
  }

  /** A run of appends behaves as one clamped append of everything. */
  lemma {:induction false} PutAllIsPut(t: string, cap: nat, ss: seq<string>)
    requires |t| < cap
    ensures PutAll(t, cap, ss) == Put(t, cap, Concat(ss))
  {
    if |ss| > 0 {
      var init := ss[..|ss| - 1];
      PutAllIsPut(t, cap, init);
      PutPut(t, cap, Concat(init), ss[|ss| - 1]);
    }
  }

  /** The text after the NUL store that overwrites its last character. */
  function DropLast(t: string): string
    requires |t| > 0
  {
    t[..|t| - 1]
  }

  /** Decimal rendering of an unsigned number, as `%u` prints it. */
  function Dec(n: nat): (r: string)
    ensures |r| > 0
    decreases n
  {
    if n < 10 then [DecDigit(n)] else Dec(n / 10) + [DecDigit(n % 10)]
  }

  function DecDigit(d: nat): (r: char)
    requires d < 10
    ensures '0' <= r <= '9'
  {
    "0123456789"[d]
  }

  /** One element as `print_array_to_buf_index` prints it: `" %u:%u,"`. */
  function Elem(index: nat, value: nat): (r: string)
    ensures |r| > 0 && r[|r| - 1] == ','
  {
    " " + Dec(index) + ":" + Dec(value) + ","
  }

  /** The source counts `stats_index` in a u32. */
  const U32: nat := 0x1_0000_0000

  /** The index printed with element `i` when indices count up from `start` in a u32. */
  function ElemIndex(start: nat, i: nat): nat
  {
    (start + i) % U32
  }

  /** `x++` on a u32. */
  function NextU32(x: nat): nat
  {
    if x + 1 == U32 then 0 else x + 1
  }

  /** The pieces printed for `values`, the first with index `start`. */
  function ElemPieces(start: nat, values: seq<nat>): (r: seq<string>)
    ensures |r| == |values|
  {
    seq(|values|, i requires 0 <= i < |values| => Elem(ElemIndex(start, i), values[i]))
  }

  /** Some element prints at least its comma. */
  lemma ElemsNonEmpty(start: nat, values: seq<nat>)
    requires |values| > 0
    ensures |Elems(start, values)| > 0
  {
    var ps := ElemPieces(start, values);
    assert Concat(ps) == Concat(ps[..|ps| - 1]) + ps[|ps| - 1];
    assert ps[|ps| - 1] == Elem(ElemIndex(start, |ps| - 1), values[|ps| - 1]);
  }

  /** Each piece is non-empty and ends in a comma. */
  predicate CommaPieces(ps: seq<string>)
  {
    forall i :: 0 <= i < |ps| ==> |ps[i]| > 0 && ps[i][|ps[i]| - 1] == ','
  }

  /** Elements starting at index `start`, each followed by its comma. */
  function Elems(start: nat, values: seq<nat>): string
  {
    Concat(ElemPieces(start, values))
  }

  lemma ConcatSnoc(ps: seq<string>, i: nat)
    requires i < |ps|
    ensures Concat(ps[..i + 1]) == Concat(ps[..i]) + ps[i]
  {
    assert ps[..i + 1][..i] == ps[..i];
  }

  /** The pieces separated by single commas: each piece's own trailing comma is the separator. */
  function Joined(ps: seq<string>): string
    requires CommaPieces(ps)
  {
    if |ps| == 0 then ""
    else if |ps| == 1 then DropLast(ps[0])
    else Joined(ps[..|ps| - 1]) + "," + DropLast(ps[|ps| - 1])
  }

  lemma {:induction false} ConcatJoined(ps: seq<string>)
    requires CommaPieces(ps) && |ps| > 0
    ensures |Concat(ps)| > 0
    ensures DropLast(Concat(ps)) == Joined(ps)
  {
    var n := |ps|;
    if n == 1 {
      assert Concat(ps) == "" + ps[0];
    } else {
      var init := ps[..n - 1];
      ConcatJoined(init);
      var prev := Concat(init);
      LastComma(prev);
      DropLastAppend(prev, ps[n - 1]);
    }
  }

  lemma LastComma(s: string)
    requires |s| > 0 && s[|s| - 1] == ','
    ensures s == DropLast(s) + ","
  {
  }

  lemma DropLastAppend(a: string, b: string)
    requires |b| > 0
    ensures DropLast(a + b) == a + DropLast(b)
  {
  }

  /** Text after `print_array_to_buf_index(buf, |t|, header, start, values, |values|, footer)`. */
  function ArrayText(t: string, cap: nat, header: string, start: nat, values: seq<nat>, footer: string): (r: string)
    requires |t| < cap && 2 <= cap
    ensures |r| < cap
  {
    var body := Put(t, cap, header + " = " + Elems(start, values));
    // the rendered header is never empty, so `body` is empty only if `t` was and the buffer is full
    PutNonEmpty(t, cap, header + " = " + Elems(start, values));
    Put(DropLast(body), cap, footer)
  }

  lemma PutNonEmpty(t: string, cap: nat, s: string)
    requires |t| < cap && 2 <= cap && |s| > 0
    ensures |Put(t, cap, s)| > 0
  {
  }

  /**
   * When everything fits, the array block is the header, the comma-separated
   * elements and the footer: the NUL store replaces exactly the trailing comma.
   */
  lemma ArrayTextFits(t: string, cap: nat, header: string, start: nat, values: seq<nat>, footer: string)
    requires |t| < cap && 2 <= cap && |values| > 0
    requires |t| + |header| + 3 + |Elems(start, values)| + |footer| < cap
    ensures ArrayText(t, cap, header, start, values, footer) == t + header + " = " + Joined(ElemPieces(start, values)) + footer
  {
    var s := header + " = " + Elems(start, values);
    ConcatJoined(ElemPieces(start, values));
    assert Put(t, cap, s) == t + s;
    assert DropLast(t + s) == t + header + " = " + Joined(ElemPieces(start, values));
  }

  /** With no elements the NUL store eats the blank after `=`. */
  lemma ArrayTextEmpty(t: string, cap: nat, header: string, start: nat, footer: string)
    requires |t| < cap && 2 <= cap
    requires |t| + |header| + 3 + |footer| < cap
    ensures ArrayText(t, cap, header, start, [], footer) == t + header + " =" + footer
  {
    assert Put(t, cap, header + " = " + "") == t + header + " = ";
  }

  /** The array block only ever changes the last character of the old text and what follows it. */
  lemma ArrayTextKeepsPrefix(t: string, cap: nat, header: string, start: nat, values: seq<nat>, footer: string)
    requires |t| < cap && 2 <= cap && |t| > 0
    ensures t[..|t| - 1] <= ArrayText(t, cap, header, start, values, footer)
  {
    var body := Put(t, cap, header + " = " + Elems(start, values));
    PutNonEmpty(t, cap, header + " = " + Elems(start, values));
    assert t[..|t| - 1] <= DropLast(body);
  }

  /** One append of a formatter: a plain `scnprintf` of a line, or a `print_array_to_buf_index` block. */
  datatype Piece =
    | Line(s: string)
    | Block(header: string, start: nat, values: seq<nat>, footer: string)

  predicate WfPiece(q: Piece)
  {
    match q
    case Line(_) => true
    case Block(_, _, _, footer) => |footer| > 0
  }

  predicate WfPieces(ps: seq<Piece>)
  {
    forall i :: 0 <= i < |ps| ==> WfPiece(ps[i])
  }

  /** The text after one piece is appended. */
  function Step(t: string, cap: nat, q: Piece): (r: string)
    requires |t| < cap && 2 <= cap && WfPiece(q)
    ensures |r| < cap
  {
    match q
    case Line(s) => Put(t, cap, s)
    case Block(header, start, values, footer) => ArrayText(t, cap, header, start, values, footer)
  }

  /** The text after the pieces are appended in order. */
  function Emit(t: string, cap: nat, ps: seq<Piece>): (r: string)
    requires |t| < cap && 2 <= cap && WfPieces(ps)
    ensures |r| < cap
  {
    if |ps| == 0 then t else Step(Emit(t, cap, ps[..|ps| - 1]), cap, ps[|ps| - 1])
  }

  lemma EmitSnoc(t: string, cap: nat, ps: seq<Piece>, i: nat)
    requires |t| < cap && 2 <= cap && WfPieces(ps) && i < |ps|
    ensures Emit(t, cap, ps[..i + 1]) == Step(Emit(t, cap, ps[..i]), cap, ps[i])
  {
    assert ps[..i + 1][..i] == ps[..i];
  }

  /** Each line as its own piece. */
  function Lines(ss: seq<string>): (r: seq<Piece>)
    ensures |r| == |ss|
    ensures WfPieces(r)
  {
    seq(|ss|, i requires 0 <= i < |ss| => Line(ss[i]))
  }

  /** A run of plain lines is one clamped append of their concatenation. */
  lemma {:induction false} EmitLines(t: string, cap: nat, ss: seq<string>)
    requires |t| < cap && 2 <= cap
    ensures Emit(t, cap, Lines(ss)) == Put(t, cap, Concat(ss))
  {
    if |ss| > 0 {
      var init := ss[..|ss| - 1];
      assert Lines(ss)[..|ss| - 1] == Lines(init);
      EmitLines(t, cap, init);
      PutPut(t, cap, Concat(init), ss[|ss| - 1]);
    }
  }

  /**
   * A block never shortens the text and keeps all of it but the last
   * character, which it may overwrite only when the buffer is already full.
   */
  lemma StepKeepsText(t: string, cap: nat, q: Piece)
    requires |t| < cap && 2 <= cap && WfPiece(q) && |t| > 0
    ensures |Step(t, cap, q)| >= |t|
    ensures t[..|t| - 1] <= Step(t, cap, q)
    ensures |t| < cap - 1 || q.Line? ==> t <= Step(t, cap, q)
  {
    if q.Block? {
      var s := q.header + " = " + Elems(q.start, q.values);
      var body := Put(t, cap, s);
      PutNonEmpty(t, cap, s);
      if |t| < cap - 1 {
        assert t <= DropLast(body);
      }
    }
  }

  /** A formatter's appends keep the text it started from, up to its last character. */
  lemma {:induction false} EmitKeepsText(t: string, cap: nat, ps: seq<Piece>)
    requires |t| < cap && 2 <= cap && WfPieces(ps) && |t| > 0
    ensures |Emit(t, cap, ps)| >= |t|
    ensures t[..|t| - 1] <= Emit(t, cap, ps)
  {
    if |ps| > 0 {
      var init := ps[..|ps| - 1];
      EmitKeepsText(t, cap, init);
      var mid := Emit(t, cap, init);
      StepKeepsText(mid, cap, ps[|ps| - 1]);
      assert t[..|t| - 1] <= mid[..|mid| - 1];
    }
  }
}
