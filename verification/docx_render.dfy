/** Filling the Anexo I / Anexo II Word templates: `{{key}}` placeholders
    are substituted in body paragraphs and table cells, and, before that,
    the outbound and return leg rows of a table are expanded into one row
    (or one row pair) per leg. Only the text of the runs is modelled;
    formatting, nested tables, headers and footers are not. */
module DocxRender {

  import opened Wrappers
  import opened Text

  /** A paragraph is the sequence of its runs' texts. */
  type Paragraph = seq<string>
  type Cell = seq<Paragraph>
  type Row = seq<Cell>
  type Table = seq<Row>

  /** The body paragraphs and the tables of a document. */
  datatype Document = Document(paragraphs: seq<Paragraph>, tables: seq<Table>)

  /** A `Dict[str, str]`, in insertion order: the substitution visits the
      keys in this order. */
  type Mapping = seq<(string, string)>

  function Token(key: string): (t: string)
    ensures |t| == |key| + 4
  {
    "{{" + key + "}}"
  }

  const IdaOrigem: string := Token("ida_origem")
  const IdaDataHora: string := Token("ida_data_hora")
  const RetornoOrigem: string := Token("retorno_origem")
  const RetornoDataHora: string := Token("retorno_data_hora")

  /** What a leg row is filled with when there are no legs of its kind. */
  const IdaBlank: Mapping := [("ida_origem", ""), ("ida_destino", ""), ("ida_data_hora", "")]
  const RetornoBlank: Mapping := [("retorno_origem", ""), ("retorno_destino", ""), ("retorno_data_hora", "")]

  /* ---------------------------------------------------------------------- */
  /* Paragraphs                                                              */
  /* ---------------------------------------------------------------------- */

  /** The loop over the mapping in `_replace_in_paragraph`: a key whose
      token occurs in the text as it stands at that point has every
      occurrence replaced by its value; the flag records whether any key
      matched. */
  function ApplyMapping(full: string, mapping: Mapping): (r: (string, bool))
    ensures !r.1 ==> r.0 == full
    ensures mapping != [] && Contains(full, Token(mapping[0].0)) ==> r.1
    decreases |mapping|
  {
    if mapping == [] then (full, false)
    else
      var token := Token(mapping[0].0);
      var hit := Contains(full, token);
      var next := if hit then Replace(full, token, mapping[0].1) else full;
      var rest := ApplyMapping(next, mapping[1..]);
      (rest.0, hit || rest.1)
  }

  /** One key of the loop: its token, if present, replaced everywhere. */
  function ApplyKey(text: string, kv: (string, string)): string {
    if Contains(text, Token(kv.0)) then Replace(text, Token(kv.0), kv.1) else text
  }

  /** The text after the loop has handled the first `k` keys, left to
      right. */
  function Staged(full: string, mapping: Mapping, k: nat): string
    requires k <= |mapping|
    decreases k
  {
    if k == 0 then full else ApplyKey(Staged(full, mapping, k - 1), mapping[k - 1])
  }

  /** The loop's result is the text once every key has been handled, and a
      change is reported exactly when some key's token occurs in the text
      as the earlier keys left it. */
  lemma {:induction false} ApplyMappingStaged(full: string, mapping: Mapping)
    ensures ApplyMapping(full, mapping).0 == Staged(full, mapping, |mapping|)
    ensures ApplyMapping(full, mapping).1 <==>
      exists k :: 0 <= k < |mapping| && Contains(Staged(full, mapping, k), Token(mapping[k].0))
    decreases |mapping|
  {
    if mapping != [] {
      var next := ApplyKey(full, mapping[0]);
      var tail := mapping[1..];
      ApplyMappingStaged(next, tail);
      forall k | 0 <= k <= |tail| ensures Staged(full, mapping, k + 1) == Staged(next, tail, k) {
        StagedShift(full, mapping, k);
      }
      if ApplyMapping(full, mapping).1 {
        if Contains(full, Token(mapping[0].0)) {
          assert Staged(full, mapping, 0) == full;
        } else {
          var k :| 0 <= k < |tail| && Contains(Staged(next, tail, k), Token(tail[k].0));
          assert Contains(Staged(full, mapping, k + 1), Token(mapping[k + 1].0));
        }
      }
      if exists k :: 0 <= k < |mapping| && Contains(Staged(full, mapping, k), Token(mapping[k].0)) {
        var k :| 0 <= k < |mapping| && Contains(Staged(full, mapping, k), Token(mapping[k].0));
        if k > 0 {
          assert Contains(Staged(next, tail, k - 1), Token(tail[k - 1].0));
        }
      }
    }
  }

  /** Handling the first key and then `k` more is handling `k + 1` keys. */
  lemma {:induction false} StagedShift(full: string, mapping: Mapping, k: nat)
    requires mapping != [] && k < |mapping|
    ensures Staged(full, mapping, k + 1) == Staged(ApplyKey(full, mapping[0]), mapping[1..], k)
    decreases k
  {
    if k > 0 {
      StagedShift(full, mapping, k - 1);
      assert mapping[1..][k - 1] == mapping[k];
    }
  }

  /** Text holding none of the mapping's tokens is left alone and reported
      unchanged. */
  lemma {:induction false} NoTokenNoChange(full: string, mapping: Mapping)
    requires forall i :: 0 <= i < |mapping| ==> !Contains(full, Token(mapping[i].0))
    ensures ApplyMapping(full, mapping) == (full, false)
    decreases |mapping|
  {
    if mapping != [] {
      assert !Contains(full, Token(mapping[0].0));
      forall i | 0 <= i < |mapping[1..]|
        ensures !Contains(full, Token(mapping[1..][i].0))
      {
        assert mapping[1..][i] == mapping[i + 1];
      }
      NoTokenNoChange(full, mapping[1..]);
    }
  }

  lemma {:induction false} ShorterNotContains(s: string, t: string)
    requires |s| < |t|
    ensures !Contains(s, t)
    decreases |s|
  {
    if s != [] {
      ShorterNotContains(s[1..], t);
    }
  }

  lemma {:induction false} ConcatEmpties(xs: seq<string>)
    requires forall i :: 0 <= i < |xs| ==> xs[i] == ""
    ensures Concat(xs) == ""
    decreases |xs|
  {
    if xs != [] {
      assert xs[0] == "";
      ConcatEmpties(xs[1..]);
    }
  }

  /** `_replace_in_paragraph`: the runs are joined so that a placeholder
      split across runs is still found; when anything was substituted the
      whole text goes to the first run and the others are emptied. */
  function ReplaceInParagraph(p: Paragraph, mapping: Mapping): (r: Paragraph)
    ensures |r| == |p|
    ensures Concat(r) == ApplyMapping(Concat(p), mapping).0
    ensures !ApplyMapping(Concat(p), mapping).1 ==> r == p
    ensures ApplyMapping(Concat(p), mapping).1 ==> forall i :: 1 <= i < |r| ==> r[i] == ""
  {
    var full := Concat(p);
    if full == "" then
      NoTokenNoChange(full, mapping);
      p
    else
      var (text, changed) := ApplyMapping(full, mapping);
      if !changed then p
      else
        assert p != [];
        var r := [text] + seq(|p| - 1, _ => "");
        ConcatEmpties(r[1..]);
        assert r == [r[0]] + r[1..];
        r
  }

  /** A placeholder that Word stored across two runs is still replaced, and
      the new text ends up in the first run. */
  lemma SplitPlaceholderReplaced()
    ensures ReplaceInParagraph(["{{no", "me}}"], [("nome", "Ana")]) == ["Ana", ""]
  {
    var p: Paragraph := ["{{no", "me}}"];
    var t := Token("nome");
    assert Concat(p) == "{{no" + ("me}}" + "");
    assert Concat(p) == t;
    assert StartsWith(t, t);
    ReplaceWhole(t, "Ana");
    assert ApplyMapping(t, [("nome", "Ana")]) == ("Ana", true);
  }

  lemma ReplaceWhole(t: string, v: string)
    requires |t| > 0
    ensures Replace(t, t, v) == v
  {
    assert t[..|t|] == t;
    assert t[|t|..] == [];
  }

  /* ---------------------------------------------------------------------- */
  /* Rows                                                                    */
  /* ---------------------------------------------------------------------- */

  /** Some paragraph of the cell holds `token` once its runs are joined. */
  predicate CellHasToken(cell: Cell, token: string)
    decreases |cell|
  {
    cell != [] && (Contains(Concat(cell[0]), token) || CellHasToken(cell[1..], token))
  }

  /** `_row_has_token`: the cells are searched in order and the first hit
      answers. */
  predicate RowHasToken(row: Row, token: string)
    decreases |row|
  {
    row != [] && (CellHasToken(row[0], token) || RowHasToken(row[1..], token))
  }

  /** `_replace_in_row`: every paragraph of every cell is substituted; the
      shape of the row stays as it was. */
  function ReplaceInRow(row: Row, mapping: Mapping): (r: Row)
    ensures |r| == |row|
    ensures forall c :: 0 <= c < |row| ==> |r[c]| == |row[c]|
    ensures forall c, q :: 0 <= c < |row| && 0 <= q < |row[c]| ==>
      r[c][q] == ReplaceInParagraph(row[c][q], mapping)
  {
    seq(|row|, c requires 0 <= c < |row| =>
      seq(|row[c]|, q requires 0 <= q < |row[c]| => ReplaceInParagraph(row[c][q], mapping)))
  }

  /** A row holding none of the mapping's tokens comes out as it went in. */
  lemma RowWithoutTokensUnchanged(row: Row, mapping: Mapping)
    requires forall c, q, i :: 0 <= c < |row| && 0 <= q < |row[c]| && 0 <= i < |mapping| ==>
      !Contains(Concat(row[c][q]), Token(mapping[i].0))
    ensures ReplaceInRow(row, mapping) == row
  {
    var r := ReplaceInRow(row, mapping);
    forall c | 0 <= c < |row| ensures r[c] == row[c] {
      forall q | 0 <= q < |row[c]| ensures r[c][q] == row[c][q] {
        NoTokenNoChange(Concat(row[c][q]), mapping);
      }
    }
  }

  /** A row that opens a leg block: it holds the outbound or the return
      sentinel token. */
  predicate IsSentinel(row: Row) {
    RowHasToken(row, IdaOrigem) || RowHasToken(row, RetornoOrigem)
  }

  /* ---------------------------------------------------------------------- */
  /* Leg rows                                                                */
  /* ---------------------------------------------------------------------- */

  /** The rows written for one leg: the sentinel row and, when the table
      has one, the data row below it, each with the leg's entry
      substituted. */
  function Pair(a: Row, b: Option<Row>, m: Mapping): (r: seq<Row>)
    ensures |r| == (if b.Some? then 2 else 1)
    ensures r[0] == ReplaceInRow(a, m)
    ensures b.Some? ==> r[1] == ReplaceInRow(b.value, m)
  {
    [ReplaceInRow(a, m)] + (if b.Some? then [ReplaceInRow(b.value, m)] else [])
  }

  /** One copy of the template rows per leg, in the order of the legs:
      the first leg fills the original rows and each later leg a fresh copy
      of the rows as they were before any substitution. */
  function Clones(a: Row, b: Option<Row>, items: seq<Mapping>): (r: seq<Row>)
    ensures |r| == (if b.Some? then 2 * |items| else |items|)
    decreases |items|
  {
    if items == [] then [] else Pair(a, b, items[0]) + Clones(a, b, items[1..])
  }

  /** Copy `j` holds leg `j`: the sentinel row (and the data row) with that
      leg's entry substituted. */
  lemma {:induction false} ClonesAt(a: Row, b: Option<Row>, items: seq<Mapping>, j: nat)
    requires j < |items|
    ensures b.None? ==> Clones(a, b, items)[j] == ReplaceInRow(a, items[j])
    ensures b.Some? ==> Clones(a, b, items)[2 * j] == ReplaceInRow(a, items[j])
    ensures b.Some? ==> Clones(a, b, items)[2 * j + 1] == ReplaceInRow(b.value, items[j])
    decreases |items|
  {
    if j > 0 {
      ClonesAt(a, b, items[1..], j - 1);
      assert items[1..][j - 1] == items[j];
    }
  }

  /** The rows that replace a sentinel row (and its data row): the clones,
      or the rows blanked when there is no leg of that kind. */
  function Block(a: Row, b: Option<Row>, items: seq<Mapping>, blank: Mapping): seq<Row> {
    if items == [] then Pair(a, b, blank) else Clones(a, b, items)
  }

  /** Expanding the sentinel row at `i`: the row below belongs to it when it
      holds the data token. Gives the new rows and how many original rows
      they replace. */
  function Expand(rows: Table, i: nat, items: seq<Mapping>, dataToken: string, blank: Mapping): (r: (seq<Row>, nat))
    requires i < |rows|
    ensures r.1 == (if i + 1 < |rows| && RowHasToken(rows[i + 1], dataToken) then 2 else 1)
    ensures |r.0| >= r.1
    ensures |items| <= 1 ==> |r.0| == r.1
    ensures r.0[0] == ReplaceInRow(rows[i], if items == [] then blank else items[0])
  {
    var hasData := i + 1 < |rows| && RowHasToken(rows[i + 1], dataToken);
    var b := if hasData then Some(rows[i + 1]) else None;
    (Block(rows[i], b, items, blank), if hasData then 2 else 1)
  }

  /** One iteration of the scan in `_expand_trecho_rows` at row `i`: the
      rows replacing `rows[i..i+n]`, and `n`. The outbound sentinel is
      tested first, then the return one; any other row is kept. */
  function StepAt(rows: Table, i: nat, ida: seq<Mapping>, ret: seq<Mapping>): (r: (seq<Row>, nat))
    requires i < |rows|
    ensures 1 <= r.1 <= 2 && i + r.1 <= |rows|
    ensures |r.0| >= r.1
    ensures !IsSentinel(rows[i]) ==> r == ([rows[i]], 1)
    ensures |ida| <= 1 && |ret| <= 1 ==> |r.0| == r.1
  {
    if RowHasToken(rows[i], IdaOrigem) then Expand(rows, i, ida, IdaDataHora, IdaBlank)
    else if RowHasToken(rows[i], RetornoOrigem) then Expand(rows, i, ret, RetornoDataHora, RetornoBlank)
    else ([rows[i]], 1)
  }

  /** `_expand_trecho_rows` on one table, with the scan resuming after the
      rows it has just written. */
  function ExpandTable(rows: Table, ida: seq<Mapping>, ret: seq<Mapping>): (r: Table)
    ensures |r| >= |rows|
    decreases |rows|
  {
    if rows == [] then []
    else
      var step := StepAt(rows, 0, ida, ret);
      step.0 + ExpandTable(rows[step.1..], ida, ret)
  }

  /** The scan as `_expand_trecho_rows` writes it: after expanding at `i` it
      moves on by the one or two original rows only, so it next visits the
      copies it has just inserted. `None` when `fuel` iterations do not
      finish the table. */
  function ScanAsWritten(rows: Table, i: nat, ida: seq<Mapping>, ret: seq<Mapping>, fuel: nat): (r: Option<Table>)
    ensures r.Some? ==> |r.value| >= |rows|
    decreases fuel
  {
    if i >= |rows| then Some(rows)
    else if fuel == 0 then None
    else
      var step := StepAt(rows, i, ida, ret);
      ScanAsWritten(rows[..i] + step.0 + rows[i + step.1..], i + step.1, ida, ret, fuel - 1)
  }

  /** A one-cell row holding only the outbound sentinel. */
  const LoopRow: Row := [[[IdaOrigem]]]

  lemma LoopRowIsSentinel()
    ensures RowHasToken(LoopRow, IdaOrigem)
  {
    assert Concat(LoopRow[0][0]) == IdaOrigem + "";
    assert StartsWith(IdaOrigem, IdaOrigem);
  }

  lemma LoopRowKept()
    ensures ReplaceInRow(LoopRow, []) == LoopRow
  {
    RowWithoutTokensUnchanged(LoopRow, []);
  }

  lemma {:induction false} AsWrittenNeverEndsFrom(n: nat, fuel: nat)
    ensures ScanAsWritten(seq(n + 1, _ => LoopRow), n, [[], []], [], fuel) == None
    decreases fuel
  {
    var rows := seq(n + 1, _ => LoopRow);
    if fuel > 0 {
      LoopRowIsSentinel();
      LoopRowKept();
      var items: seq<Mapping> := [[], []];
      assert Clones(LoopRow, None, items) == [LoopRow, LoopRow];
      assert StepAt(rows, n, items, []) == ([LoopRow, LoopRow], 1);
      assert rows[..n] + [LoopRow, LoopRow] + rows[n + 1..] == seq(n + 2, _ => LoopRow);
      AsWrittenNeverEndsFrom(n + 1, fuel - 1);
    }
  }

  /** With two outbound legs whose entries leave the sentinel in place (an
      empty entry, say), the scan as written never reaches the end of a
      one-row table: every copy it inserts is visited and expanded again. */
  lemma AsWrittenNeverEnds(fuel: nat)
    ensures ScanAsWritten([LoopRow], 0, [[], []], [], fuel) == None
  {
    assert [LoopRow] == seq(1, _ => LoopRow);
    AsWrittenNeverEndsFrom(0, fuel);
  }

  /** The corrected scan finishes on that same table, with one row per
      leg. */
  lemma CorrectedEnds()
    ensures ExpandTable([LoopRow], [[], []], []) == [LoopRow, LoopRow]
  {
    LoopRowIsSentinel();
    LoopRowKept();
    assert Clones(LoopRow, None, [[], []]) == [LoopRow, LoopRow];
    assert [LoopRow][1..] == [];
  }

  /** A step depends only on the row it starts at and the row below it. */
  lemma StepAtLocal(rows: Table, i: nat, other: Table, j: nat, ida: seq<Mapping>, ret: seq<Mapping>)
    requires i < |rows| && j < |other| && rows[i] == other[j]
    requires (i + 1 < |rows|) == (j + 1 < |other|)
    requires i + 1 < |rows| ==> rows[i + 1] == other[j + 1]
    ensures StepAt(rows, i, ida, ret) == StepAt(other, j, ida, ret)
  {
  }

  lemma ExpandUnfold(rows: Table, ida: seq<Mapping>, ret: seq<Mapping>)
    requires rows != []
    ensures ExpandTable(rows, ida, ret)
      == StepAt(rows, 0, ida, ret).0 + ExpandTable(rows[StepAt(rows, 0, ida, ret).1..], ida, ret)
  {
  }

  lemma ScanUnfold(rows: Table, i: nat, ida: seq<Mapping>, ret: seq<Mapping>, fuel: nat)
    requires i < |rows| && fuel > 0
    ensures var step := StepAt(rows, i, ida, ret);
      ScanAsWritten(rows, i, ida, ret, fuel)
      == ScanAsWritten(rows[..i] + step.0 + rows[i + step.1..], i + step.1, ida, ret, fuel - 1)
  {
  }

  lemma StepAfter(done: Table, rest: Table, ida: seq<Mapping>, ret: seq<Mapping>)
    requires rest != []
    ensures StepAt(done + rest, |done|, ida, ret) == StepAt(rest, 0, ida, ret)
  {
    var rows := done + rest;
    assert rows[|done|] == rest[0];
    assert |done| + 1 < |rows| ==> rows[|done| + 1] == rest[1];
    StepAtLocal(rows, |done|, rest, 0, ida, ret);
  }

  lemma Assoc<T>(a: seq<T>, b: seq<T>, c: seq<T>)
    ensures (a + b) + c == a + (b + c)
  {
  }

  /** Replacing the first `n` elements after `done` by `block`. */
  lemma Splice<T>(done: seq<T>, rest: seq<T>, block: seq<T>, n: nat)
    requires n <= |rest|
    ensures (done + rest)[..|done|] + block + (done + rest)[|done| + n..] == (done + block) + rest[n..]
  {
    assert (done + rest)[..|done|] == done;
    assert (done + rest)[|done| + n..] == rest[n..];
  }

  /** When no direction has more than one leg, nothing is cloned, and the
      scan as written and the corrected one agree. */
  lemma {:induction false} AgreeWithoutClones(done: Table, rest: Table, ida: seq<Mapping>, ret: seq<Mapping>, fuel: nat)
    requires |ida| <= 1 && |ret| <= 1
    requires fuel >= |rest|
    ensures ScanAsWritten(done + rest, |done|, ida, ret, fuel) == Some(done + ExpandTable(rest, ida, ret))
    decreases |rest|
  {
    if rest == [] {
      assert done + rest == done;
    } else {
      var step := StepAt(rest, 0, ida, ret);
      assert |step.0| == step.1;
      ScanStep(done, rest, ida, ret, fuel);
      AgreeWithoutClones(done + step.0, rest[step.1..], ida, ret, fuel - 1);
      ExpandStep(done, rest, ida, ret);
    }
  }

  /** One step of the scan as written, at the first row after `done`, when
      the step puts back as many rows as it consumes. */
  lemma ScanStep(done: Table, rest: Table, ida: seq<Mapping>, ret: seq<Mapping>, fuel: nat)
    requires rest != [] && fuel > 0
    requires |StepAt(rest, 0, ida, ret).0| == StepAt(rest, 0, ida, ret).1
    ensures var step := StepAt(rest, 0, ida, ret);
      ScanAsWritten(done + rest, |done|, ida, ret, fuel)
      == ScanAsWritten((done + step.0) + rest[step.1..], |done + step.0|, ida, ret, fuel - 1)
  {
    var rows := done + rest;
    var here := StepAt(rows, |done|, ida, ret);
    var step := StepAt(rest, 0, ida, ret);
    SpliceStep(done, rest, ida, ret);
    ScanRewrite(rows, |done|, rows[..|done|] + here.0 + rows[|done| + here.1..], |done| + here.1,
                (done + step.0) + rest[step.1..], |done + step.0|, ida, ret, fuel);
  }

  /** One unfolding of the scan, with its outcome named. */
  lemma ScanRewrite(rows: Table, i: nat, a: Table, j: nat, b: Table, k: nat, ida: seq<Mapping>, ret: seq<Mapping>, fuel: nat)
    requires i < |rows| && fuel > 0
    requires a == rows[..i] + StepAt(rows, i, ida, ret).0 + rows[i + StepAt(rows, i, ida, ret).1..]
    requires j == i + StepAt(rows, i, ida, ret).1
    requires a == b && j == k
    ensures ScanAsWritten(rows, i, ida, ret, fuel) == ScanAsWritten(b, k, ida, ret, fuel - 1)
  {
    ScanUnfold(rows, i, ida, ret, fuel);
  }

  /** The table and position a scan step after `done` leaves behind. */
  lemma SpliceStep(done: Table, rest: Table, ida: seq<Mapping>, ret: seq<Mapping>)
    requires rest != []
    requires |StepAt(rest, 0, ida, ret).0| == StepAt(rest, 0, ida, ret).1
    ensures var rows := done + rest;
      var here := StepAt(rows, |done|, ida, ret);
      var step := StepAt(rest, 0, ida, ret);
      && rows[..|done|] + here.0 + rows[|done| + here.1..] == (done + step.0) + rest[step.1..]
      && |done| + here.1 == |done + step.0|
  {
    var step := StepAt(rest, 0, ida, ret);
    StepAfter(done, rest, ida, ret);
    Splice(done, rest, step.0, step.1);
  }


  /** One step of the corrected scan, after the rows already done. */
  lemma ExpandStep(done: Table, rest: Table, ida: seq<Mapping>, ret: seq<Mapping>)
    requires rest != []
    ensures var step := StepAt(rest, 0, ida, ret);
      (done + step.0) + ExpandTable(rest[step.1..], ida, ret) == done + ExpandTable(rest, ida, ret)
  {
    var step := StepAt(rest, 0, ida, ret);
    ExpandUnfold(rest, ida, ret);
    Assoc(done, step.0, ExpandTable(rest[step.1..], ida, ret));
  }

  /** Every copy the expansion can insert is a plain row: substituting any
      leg entry into a sentinel row, or into the row below one, leaves no
      sentinel token behind. */
  ghost predicate CopiesPlain(rows: Table, ida: seq<Mapping>, ret: seq<Mapping>) {
    forall i, m {:trigger ReplaceInRow(rows[i], m)} :: 0 <= i < |rows| && (m in ida || m in ret) &&
      (IsSentinel(rows[i]) || (i > 0 && IsSentinel(rows[i - 1])))
      ==> !IsSentinel(ReplaceInRow(rows[i], m))
  }

  /** When no inserted copy is a sentinel, the scan as written skips over
      the copies it revisits and ends with the same table as the corrected
      scan, after as many iterations as the expanded table has rows. */
  lemma {:induction false} AgreeWhenCopiesPlain(done: Table, rest: Table, ida: seq<Mapping>, ret: seq<Mapping>, fuel: nat)
    requires CopiesPlain(rest, ida, ret)
    requires fuel >= |ExpandTable(rest, ida, ret)|
    ensures ScanAsWritten(done + rest, |done|, ida, ret, fuel) == Some(done + ExpandTable(rest, ida, ret))
    decreases |rest|
  {
    if rest == [] {
      assert done + rest == done;
    } else {
      var step := StepAt(rest, 0, ida, ret);
      var rows := (done + step.0) + rest[step.1..];
      var i := |done| + step.1;
      var j := |done + step.0|;
      var f1 := fuel - 1;
      var left := f1 - (|step.0| - step.1);
      ExpandUnfold(rest, ida, ret);
      ScanStepAny(done + rest, done, rest, rows, |done|, i, ida, ret, fuel, f1);
      StepCopiesPlain(rest, ida, ret);
      SkipBlock(rows, done, step.0, rest[step.1..], step.1, i, j, ida, ret, f1, left);
      CopiesPlainSuffix(rest, step.1, ida, ret);
      AgreeWhenCopiesPlain(done + step.0, rest[step.1..], ida, ret, left);
      ExpandStep(done, rest, ida, ret);
    }
  }

  /** The scan as written, entering `block` at `n`, walks over its plain
      rows to the first row after it. */
  lemma SkipBlock(rows: Table, done: Table, block: Table, tail: Table, n: nat, i: nat, j: nat,
                  ida: seq<Mapping>, ret: seq<Mapping>, fuel: nat, left: nat)
    requires rows == (done + block) + tail
    requires n <= |block| && i == |done| + n && j == |done| + |block| && fuel == left + (|block| - n)
    requires forall k :: n <= k < |block| ==> !IsSentinel(block[k])
    ensures ScanAsWritten(rows, i, ida, ret, fuel) == ScanAsWritten(rows, j, ida, ret, left)
  {
    BlockRowsPlain(done, block, tail, n);
    ScanSkipsPlain(rows, i, j, ida, ret, fuel, left);
  }

  lemma BlockRowsPlain(done: Table, block: Table, tail: Table, n: nat)
    requires n <= |block|
    requires forall k :: n <= k < |block| ==> !IsSentinel(block[k])
    ensures forall k :: |done| + n <= k < |done + block| ==> !IsSentinel(((done + block) + tail)[k])
  {
    forall k | |done| + n <= k < |done + block| ensures !IsSentinel(((done + block) + tail)[k]) {
      assert ((done + block) + tail)[k] == block[k - |done|];
    }
  }

  /** One step of the scan as written at the first row after `done`, for
      any step: the scan goes on at the first row after those consumed. */
  lemma ScanStepAny(whole: Table, done: Table, rest: Table, next: Table, p: nat, i: nat,
                    ida: seq<Mapping>, ret: seq<Mapping>, fuel: nat, left: nat)
    requires rest != [] && whole == done + rest && p == |done| && fuel == left + 1
    requires next == (done + StepAt(rest, 0, ida, ret).0) + rest[StepAt(rest, 0, ida, ret).1..]
    requires i == |done| + StepAt(rest, 0, ida, ret).1
    ensures ScanAsWritten(whole, p, ida, ret, fuel) == ScanAsWritten(next, i, ida, ret, left)
  {
    var here := StepAt(whole, p, ida, ret);
    var step := StepAt(rest, 0, ida, ret);
    StepAfter(done, rest, ida, ret);
    Splice(done, rest, step.0, step.1);
    ScanRewrite(whole, p, whole[..p] + here.0 + whole[p + here.1..], p + here.1, next, i, ida, ret, fuel);
  }

  /** The scan as written passes plain rows one by one, leaving them as
      they are. */
  lemma {:induction false} ScanSkipsPlain(rows: Table, i: nat, j: nat, ida: seq<Mapping>, ret: seq<Mapping>, fuel: nat, left: nat)
    requires i <= j <= |rows| && fuel == left + (j - i)
    requires forall k :: i <= k < j ==> !IsSentinel(rows[k])
    ensures ScanAsWritten(rows, i, ida, ret, fuel) == ScanAsWritten(rows, j, ida, ret, left)
    decreases j - i
  {
    if i < j {
      assert rows[..i] + [rows[i]] + rows[i + 1..] == rows;
      ScanUnfold(rows, i, ida, ret, fuel);
      ScanSkipsPlain(rows, i + 1, j, ida, ret, fuel - 1, left);
    }
  }

  /** Under `CopiesPlain`, the rows a step writes beyond those it consumes
      are plain. */
  lemma StepCopiesPlain(rest: Table, ida: seq<Mapping>, ret: seq<Mapping>)
    requires rest != [] && CopiesPlain(rest, ida, ret)
    ensures var step := StepAt(rest, 0, ida, ret);
      forall k :: step.1 <= k < |step.0| ==> !IsSentinel(step.0[k])
  {
    if IsSentinel(rest[0]) {
      var outbound := RowHasToken(rest[0], IdaOrigem);
      var items := if outbound then ida else ret;
      var dataToken := if outbound then IdaDataHora else RetornoDataHora;
      var hasData := 1 < |rest| && RowHasToken(rest[1], dataToken);
      var b := if hasData then Some(rest[1]) else None;
      if items != [] {
        forall m | m in items ensures !IsSentinel(ReplaceInRow(rest[0], m)) {
          CopyPlainAt(rest, 0, m, ida, ret);
        }
        if hasData {
          forall m | m in items ensures !IsSentinel(ReplaceInRow(rest[1], m)) {
            CopyPlainAt(rest, 1, m, ida, ret);
          }
        }
        ClonesPlain(rest[0], b, items);
        assert StepAt(rest, 0, ida, ret).0 == Clones(rest[0], b, items);
      }
    }
  }

  /** Copies of plain rows are plain. */
  lemma ClonesPlain(a: Row, b: Option<Row>, items: seq<Mapping>)
    requires forall m :: m in items ==> !IsSentinel(ReplaceInRow(a, m))
    requires b.Some? ==> forall m :: m in items ==> !IsSentinel(ReplaceInRow(b.value, m))
    ensures forall k :: 0 <= k < |Clones(a, b, items)| ==> !IsSentinel(Clones(a, b, items)[k])
  {
    forall k | 0 <= k < |Clones(a, b, items)| ensures !IsSentinel(Clones(a, b, items)[k]) {
      var j := if b.Some? then k / 2 else k;
      ClonesAt(a, b, items, j);
      assert items[j] in items;
    }
  }

  lemma CopiesPlainSuffix(rows: Table, n: nat, ida: seq<Mapping>, ret: seq<Mapping>)
    requires n <= |rows| && CopiesPlain(rows, ida, ret)
    ensures CopiesPlain(rows[n..], ida, ret)
  {
    var tail := rows[n..];
    forall i, m | 0 <= i < |tail| && (m in ida || m in ret) && (IsSentinel(tail[i]) || (i > 0 && IsSentinel(tail[i - 1])))
      ensures !IsSentinel(ReplaceInRow(tail[i], m))
    {
      assert tail[i] == rows[n + i];
      if i > 0 {
        assert tail[i - 1] == rows[n + i - 1];
      }
      CopyPlainAt(rows, n + i, m, ida, ret);
    }
  }

  lemma CopyPlainAt(rows: Table, i: nat, m: Mapping, ida: seq<Mapping>, ret: seq<Mapping>)
    requires CopiesPlain(rows, ida, ret) && i < |rows| && (m in ida || m in ret)
    requires IsSentinel(rows[i]) || (i > 0 && IsSentinel(rows[i - 1]))
    ensures !IsSentinel(ReplaceInRow(rows[i], m))
  {
  }

  lemma HeadTail<T>(a: seq<T>, b: seq<T>)
    requires a != []
    ensures (a + b)[0] == a[0] && (a + b)[1..] == a[1..] + b
    ensures [a[0]] + (a[1..] + b) == a + b
  {
  }

  lemma ExpandPlainHead(rows: Table, ida: seq<Mapping>, ret: seq<Mapping>)
    requires rows != [] && !IsSentinel(rows[0])
    ensures ExpandTable(rows, ida, ret) == [rows[0]] + ExpandTable(rows[1..], ida, ret)
  {
    ExpandUnfold(rows, ida, ret);
  }

  /** Rows before the first sentinel pass through the expansion untouched. */
  lemma {:induction false} ExpandAfterPlain(pre: Table, rest: Table, ida: seq<Mapping>, ret: seq<Mapping>)
    requires forall k :: 0 <= k < |pre| ==> !IsSentinel(pre[k])
    ensures ExpandTable(pre + rest, ida, ret) == pre + ExpandTable(rest, ida, ret)
    decreases |pre|
  {
    if pre != [] {
      var rows := pre + rest;
      HeadTail(pre, rest);
      assert !IsSentinel(pre[0]);
      ExpandPlainHead(rows, ida, ret);
      ExpandAfterPlain(pre[1..], rest, ida, ret);
      HeadTail(pre, ExpandTable(rest, ida, ret));
    } else {
      assert pre + rest == rest;
    }
  }

  /** A table without leg sentinels is left exactly as it is. */
  lemma NoSentinelUnchanged(rows: Table, ida: seq<Mapping>, ret: seq<Mapping>)
    requires forall k :: 0 <= k < |rows| ==> !IsSentinel(rows[k])
    ensures ExpandTable(rows, ida, ret) == rows
  {
    ExpandAfterPlain(rows, [], ida, ret);
    assert rows + [] == rows;
  }

  /** An outbound sentinel row followed by its data row becomes one row pair
      per outbound leg, in leg order, with the leg's entry substituted in
      both rows; rows above it are untouched. */
  lemma OutboundPairExpanded(pre: Table, a: Row, b: Row, post: Table, ida: seq<Mapping>, ret: seq<Mapping>)
    requires forall k :: 0 <= k < |pre| ==> !IsSentinel(pre[k])
    requires RowHasToken(a, IdaOrigem) && RowHasToken(b, IdaDataHora)
    requires |ida| >= 1
    ensures var r := ExpandTable(pre + [a, b] + post, ida, ret);
      |r| == |pre| + 2 * |ida| + |ExpandTable(post, ida, ret)|
      && r[..|pre|] == pre
      && forall j :: 0 <= j < |ida| ==>
        r[|pre| + 2 * j] == ReplaceInRow(a, ida[j]) && r[|pre| + 2 * j + 1] == ReplaceInRow(b, ida[j])
  {
    PairExpansion(pre, a, b, post, ida, ret);
    PairIndices(pre, Clones(a, Some(b), ida), ExpandTable(post, ida, ret),
      ExpandTable(pre + [a, b] + post, ida, ret), a, b, ida);
  }

  lemma PairExpansion(pre: Table, a: Row, b: Row, post: Table, ida: seq<Mapping>, ret: seq<Mapping>)
    requires forall k :: 0 <= k < |pre| ==> !IsSentinel(pre[k])
    requires RowHasToken(a, IdaOrigem) && RowHasToken(b, IdaDataHora)
    requires |ida| >= 1
    ensures ExpandTable(pre + [a, b] + post, ida, ret) == pre + (Clones(a, Some(b), ida) + ExpandTable(post, ida, ret))
  {
    PairStep(a, b, post, ida, ret);
    Assoc(pre, [a, b], post);
    ExpandAfterPlain(pre, [a, b] + post, ida, ret);
  }

  /** Where the pair clones sit in a table that holds them after `pre`. */
  lemma PairIndices(pre: Table, block: Table, tail: Table, r: Table, a: Row, b: Row, ida: seq<Mapping>)
    requires block == Clones(a, Some(b), ida) && r == pre + (block + tail)
    requires |ida| >= 1
    ensures |r| == |pre| + 2 * |ida| + |tail| && r[..|pre|] == pre
    ensures forall j :: 0 <= j < |ida| ==>
      r[|pre| + 2 * j] == ReplaceInRow(a, ida[j]) && r[|pre| + 2 * j + 1] == ReplaceInRow(b, ida[j])
  {
    forall j | 0 <= j < |ida|
      ensures r[|pre| + 2 * j] == ReplaceInRow(a, ida[j]) && r[|pre| + 2 * j + 1] == ReplaceInRow(b, ida[j])
    {
      ClonesAt(a, Some(b), ida, j);
      BlockAt(pre, block, tail, 2 * j);
      BlockAt(pre, block, tail, 2 * j + 1);
    }
    BlockAt(pre, block, tail, 0);
  }

  /** The leading outbound pair of a table is replaced by its clones. */
  lemma PairStep(a: Row, b: Row, post: Table, ida: seq<Mapping>, ret: seq<Mapping>)
    requires RowHasToken(a, IdaOrigem) && RowHasToken(b, IdaDataHora)
    requires |ida| >= 1
    ensures ExpandTable([a, b] + post, ida, ret) == Clones(a, Some(b), ida) + ExpandTable(post, ida, ret)
  {
    var rest := [a, b] + post;
    assert rest[0] == a && rest[1] == b && rest[2..] == post;
    assert StepAt(rest, 0, ida, ret) == (Clones(a, Some(b), ida), 2);
    ExpandUnfold(rest, ida, ret);
  }

  /** Position `k` of a block written after `pre`. */
  lemma BlockAt<T>(pre: seq<T>, block: seq<T>, tail: seq<T>, k: nat)
    requires k < |block|
    ensures |pre + (block + tail)| == |pre| + |block| + |tail|
    ensures (pre + (block + tail))[..|pre|] == pre
    ensures (pre + (block + tail))[|pre| + k] == block[k]
  {
  }


  /** With no outbound legs the sentinel row and its data row stay where
      they are, with the three outbound tokens replaced by `""`: the table
      keeps its length. */
  lemma OutboundPairBlanked(pre: Table, a: Row, b: Row, post: Table, ret: seq<Mapping>)
    requires forall k :: 0 <= k < |pre| ==> !IsSentinel(pre[k])
    requires RowHasToken(a, IdaOrigem) && RowHasToken(b, IdaDataHora)
    ensures ExpandTable(pre + [a, b] + post, [], ret)
      == pre + [ReplaceInRow(a, IdaBlank), ReplaceInRow(b, IdaBlank)] + ExpandTable(post, [], ret)
  {
    var rest := [a, b] + post;
    var blanked := [ReplaceInRow(a, IdaBlank), ReplaceInRow(b, IdaBlank)];
    assert ExpandTable(pre + [a, b] + post, [], ret) == pre + ExpandTable(rest, [], ret) by {
      assert pre + [a, b] + post == pre + rest;
      ExpandAfterPlain(pre, rest, [], ret);
    }
    assert ExpandTable(rest, [], ret) == blanked + ExpandTable(post, [], ret) by {
      assert rest[0] == a && rest[1] == b && rest[2..] == post;
      assert RowHasToken(rest[1], IdaDataHora);
      assert Pair(a, Some(b), IdaBlank) == blanked;
      assert Expand(rest, 0, [], IdaDataHora, IdaBlank) == (blanked, 2);
      assert StepAt(rest, 0, [], ret) == (blanked, 2);
      ExpandUnfold(rest, [], ret);
    }
    Assoc(pre, blanked, ExpandTable(post, [], ret));
  }

  /** A sentinel row without a data row below it gets one row per leg. */
  lemma OutboundSingleExpanded(pre: Table, a: Row, post: Table, ida: seq<Mapping>, ret: seq<Mapping>)
    requires forall k :: 0 <= k < |pre| ==> !IsSentinel(pre[k])
    requires RowHasToken(a, IdaOrigem)
    requires post == [] || !RowHasToken(post[0], IdaDataHora)
    requires |ida| >= 1
    ensures var r := ExpandTable(pre + [a] + post, ida, ret);
      |r| == |pre| + |ida| + |ExpandTable(post, ida, ret)|
      && r[..|pre|] == pre
      && forall j :: 0 <= j < |ida| ==> r[|pre| + j] == ReplaceInRow(a, ida[j])
  {
    SingleExpansion(pre, a, post, ida, ret);
    SingleIndices(pre, Clones(a, None, ida), ExpandTable(post, ida, ret),
      ExpandTable(pre + [a] + post, ida, ret), a, ida);
  }

  lemma SingleExpansion(pre: Table, a: Row, post: Table, ida: seq<Mapping>, ret: seq<Mapping>)
    requires forall k :: 0 <= k < |pre| ==> !IsSentinel(pre[k])
    requires RowHasToken(a, IdaOrigem)
    requires post == [] || !RowHasToken(post[0], IdaDataHora)
    requires |ida| >= 1
    ensures ExpandTable(pre + [a] + post, ida, ret) == pre + (Clones(a, None, ida) + ExpandTable(post, ida, ret))
  {
    SingleStep(a, post, ida, ret);
    Assoc(pre, [a], post);
    ExpandAfterPlain(pre, [a] + post, ida, ret);
  }

  /** Where the single-row clones sit in a table that holds them after `pre`. */
  lemma SingleIndices(pre: Table, block: Table, tail: Table, r: Table, a: Row, ida: seq<Mapping>)
    requires block == Clones(a, None, ida) && r == pre + (block + tail)
    requires |ida| >= 1
    ensures |r| == |pre| + |ida| + |tail| && r[..|pre|] == pre
    ensures forall j :: 0 <= j < |ida| ==> r[|pre| + j] == ReplaceInRow(a, ida[j])
  {
    forall j | 0 <= j < |ida| ensures r[|pre| + j] == ReplaceInRow(a, ida[j]) {
      ClonesAt(a, None, ida, j);
      BlockAt(pre, block, tail, j);
    }
    BlockAt(pre, block, tail, 0);
  }

  /** A leading outbound row without a data row is replaced by its clones. */
  lemma SingleStep(a: Row, post: Table, ida: seq<Mapping>, ret: seq<Mapping>)
    requires RowHasToken(a, IdaOrigem)
    requires post == [] || !RowHasToken(post[0], IdaDataHora)
    requires |ida| >= 1
    ensures ExpandTable([a] + post, ida, ret) == Clones(a, None, ida) + ExpandTable(post, ida, ret)
  {
    var rest := [a] + post;
    assert rest[0] == a && rest[1..] == post;
    assert StepAt(rest, 0, ida, ret) == (Clones(a, None, ida), 1);
    ExpandUnfold(rest, ida, ret);
  }


  /** A row holding both sentinels is expanded as an outbound row. */
  lemma OutboundCheckedFirst(rows: Table, ida: seq<Mapping>, ret: seq<Mapping>)
    requires rows != [] && RowHasToken(rows[0], IdaOrigem) && RowHasToken(rows[0], RetornoOrigem)
    ensures |ExpandTable(rows, ida, ret)| >= |ida|
    ensures ida != [] ==> ExpandTable(rows, ida, ret)[0] == ReplaceInRow(rows[0], ida[0])
  {
    ExpandUnfold(rows, ida, ret);
    var step := StepAt(rows, 0, ida, ret);
    assert step == Expand(rows, 0, ida, IdaDataHora, IdaBlank);
    var b := if 1 < |rows| && RowHasToken(rows[1], IdaDataHora) then Some(rows[1]) else None;
    if ida != [] {
      ClonesAt(rows[0], b, ida, 0);
      assert step.0 == Clones(rows[0], b, ida);
    }
  }

  /* ---------------------------------------------------------------------- */
  /* Whole document                                                          */
  /* ---------------------------------------------------------------------- */

  /** `rows.get(key) or []` on the leg lists handed to the renderer. */
  function RowsFor(rows: seq<(string, seq<Mapping>)>, key: string): (r: seq<Mapping>)
    ensures (forall k :: 0 <= k < |rows| ==> rows[k].0 != key) ==> r == []
    ensures rows != [] && rows[0].0 == key ==> r == rows[0].1
  {
    if rows == [] then []
    else if rows[0].0 == key then rows[0].1
    else RowsFor(rows[1..], key)
  }

  function SubstituteTable(t: Table, mapping: Mapping): (r: Table)
    ensures |r| == |t| && forall k :: 0 <= k < |t| ==> r[k] == ReplaceInRow(t[k], mapping)
  {
    seq(|t|, k requires 0 <= k < |t| => ReplaceInRow(t[k], mapping))
  }

  /** `render_docx_from_template` without the file I/O: leg rows are
      expanded first, only when leg lists were given, and then every body
      paragraph and every table paragraph is substituted. */
  function Render(doc: Document, mapping: Mapping, rows: seq<(string, seq<Mapping>)>): (r: Document)
    ensures |r.paragraphs| == |doc.paragraphs|
    ensures forall k :: 0 <= k < |doc.paragraphs| ==>
      Concat(r.paragraphs[k]) == ApplyMapping(Concat(doc.paragraphs[k]), mapping).0
    ensures |r.tables| == |doc.tables|
    ensures forall t :: 0 <= t < |doc.tables| ==> |r.tables[t]| >= |doc.tables[t]|
    ensures rows == [] ==> forall t :: 0 <= t < |doc.tables| ==>
      r.tables[t] == SubstituteTable(doc.tables[t], mapping)
    ensures rows != [] ==> forall t :: 0 <= t < |doc.tables| ==>
      r.tables[t] == SubstituteTable(ExpandTable(doc.tables[t], RowsFor(rows, "ida"), RowsFor(rows, "retorno")), mapping)
  {
    var ida := RowsFor(rows, "ida");
    var ret := RowsFor(rows, "retorno");
    var tables := if rows != [] then seq(|doc.tables|, t requires 0 <= t < |doc.tables| => ExpandTable(doc.tables[t], ida, ret))
                  else doc.tables;
    Document(
      seq(|doc.paragraphs|, k requires 0 <= k < |doc.paragraphs| => ReplaceInParagraph(doc.paragraphs[k], mapping)),
      seq(|tables|, t requires 0 <= t < |tables| => SubstituteTable(tables[t], mapping)))
  }

  /** On a table none of whose inserted copies is a sentinel, the scan as
      written in `_expand_trecho_rows` ends with the table `Render` goes on
      to substitute. */
  lemma RenderAgreesAsWritten(doc: Document, mapping: Mapping, rows: seq<(string, seq<Mapping>)>, t: nat)
    requires rows != [] && t < |doc.tables|
    requires CopiesPlain(doc.tables[t], RowsFor(rows, "ida"), RowsFor(rows, "retorno"))
    ensures var ida := RowsFor(rows, "ida");
      var ret := RowsFor(rows, "retorno");
      var e := ExpandTable(doc.tables[t], ida, ret);
      && ScanAsWritten(doc.tables[t], 0, ida, ret, |e|) == Some(e)
      && Render(doc, mapping, rows).tables[t] == SubstituteTable(e, mapping)
  {
    ScanAgrees(doc.tables[t], RowsFor(rows, "ida"), RowsFor(rows, "retorno"));
  }

  /** The scan as written, from the first row of a table whose inserted
      copies are plain, ends with the corrected expansion. */
  lemma ScanAgrees(rows: Table, ida: seq<Mapping>, ret: seq<Mapping>)
    requires CopiesPlain(rows, ida, ret)
    ensures ScanAsWritten(rows, 0, ida, ret, |ExpandTable(rows, ida, ret)|) == Some(ExpandTable(rows, ida, ret))
  {
    AgreeWhenCopiesPlain([], rows, ida, ret, |ExpandTable(rows, ida, ret)|);
    assert [] + rows == rows;
    assert [] + ExpandTable(rows, ida, ret) == ExpandTable(rows, ida, ret);
  }

  lemma FillSentinel(v: string)
    ensures ReplaceInRow(LoopRow, [("ida_origem", v)]) == [[[v]]]
  {
    LoopRowIsSentinel();
    assert Concat(LoopRow[0][0]) == IdaOrigem + "";
    assert StartsWith(IdaOrigem, IdaOrigem);
    ReplaceWhole(IdaOrigem, v);
    assert ApplyMapping(IdaOrigem, [("ida_origem", v)]) == (v, true);
    assert ReplaceInParagraph([IdaOrigem], [("ida_origem", v)]) == [v];
    var r := ReplaceInRow(LoopRow, [("ida_origem", v)]);
    assert r[0][0] == [v];
    assert r[0] == [[v]];
  }

  lemma ShortKept(v: string, mapping: Mapping)
    requires |v| < 14 && |mapping| == 1 && mapping[0].0 == "ida_origem"
    ensures ReplaceInRow([[[v]]], mapping) == [[[v]]]
  {
    assert Concat([v]) == v + "";
    ShorterNotContains(v, Token(mapping[0].0));
    var row: Row := [[[v]]];
    forall c, q, i | 0 <= c < |row| && 0 <= q < |row[c]| && 0 <= i < |mapping|
      ensures !Contains(Concat(row[c][q]), Token(mapping[i].0))
    {
      assert row[c][q] == [v];
      assert Concat(row[c][q]) == v;
      assert i == 0;
    }
    RowWithoutTokensUnchanged([[[v]]], mapping);
  }

  /** Expansion runs before substitution: the document-wide mapping also
      holds `ida_origem` (all origins joined by newlines), yet a leg row
      shows each leg's own origin, one row per leg. */
  lemma RenderExpandsBeforeSubstituting()
    ensures Render(Document([], [[LoopRow]]), [("ida_origem", "A\nB")],
                   [("ida", [[("ida_origem", "A")], [("ida_origem", "B")]])]).tables
            == [[[[["A"]]], [[["B"]]]]]
  {
    var ida: seq<Mapping> := [[("ida_origem", "A")], [("ida_origem", "B")]];
    var rows := [("ida", ida)];
    var mapping: Mapping := [("ida_origem", "A\nB")];
    assert RowsFor(rows, "ida") == ida;
    assert RowsFor(rows, "retorno") == [];
    var expanded: Table := [[[["A"]]], [[["B"]]]];
    assert ExpandTable([LoopRow], ida, []) == expanded by {
      LoopRowIsSentinel();
      FillSentinel("A");
      FillSentinel("B");
      assert Clones(LoopRow, None, ida) == expanded;
      assert StepAt([LoopRow], 0, ida, []) == (expanded, 1);
      ExpandUnfold([LoopRow], ida, []);
      assert [LoopRow][1..] == [];
    }
    assert SubstituteTable(expanded, mapping) == expanded by {
      ShortKept("A", mapping);
      ShortKept("B", mapping);
    }
    var doc := Document([], [[LoopRow]]);
    var r := Render(doc, mapping, rows);
    assert r.tables[0] == SubstituteTable(ExpandTable(doc.tables[0], ida, []), mapping);
  }
}
