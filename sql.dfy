/** The SQL the emitters write, as statements, and its rendering as text. `q` is the
    character that delimits string values: `"` in osc2sql.c, `'` in ctoa.c. */
module Sql {
  import opened Seqs

  datatype Value = Quoted(text: string) | Null

  datatype Stmt =
    | Insert(table: string, columns: seq<string>, rows: seq<seq<Value>>)
    | Delete(table: string, column: string, key: string)

  /** The separator written before a value tuple whose running counter is `i`. */
  function Separator(i: int): string
  {
    if i > 0 then ", " else ""
  }

  /** Column names separated by ", ". */
  function Columns(names: seq<string>): string
  {
    if names == [] then ""
    else Columns(names[..|names| - 1]) + Separator(|names| - 1) + names[|names| - 1]
  }

  function RenderValue(q: char, v: Value): string
  {
    match v
    case Quoted(text) => [q] + text + [q]
    case Null => "NULL"
  }

  function RenderValues(q: char, vs: seq<Value>): string
  {
    if vs == [] then ""
    else RenderValues(q, vs[..|vs| - 1]) + Separator(|vs| - 1) + RenderValue(q, vs[|vs| - 1])
  }

  /** One value tuple. */
  function RenderRow(q: char, vs: seq<Value>): string
  {
    "(" + RenderValues(q, vs) + ")"
  }

  /** The separator before the tuple at position `n` of a batch, which continues tuples
      already written in the same INSERT when `more` holds. */
  function ContSeparator(more: bool, n: int): string
  {
    if more then ", " else Separator(n)
  }

  /** A batch of value tuples that continues earlier ones when `more` holds. */
  function RenderRowsAt(q: char, more: bool, rows: seq<seq<Value>>): string
  {
    if rows == [] then ""
    else RenderRowsAt(q, more, rows[..|rows| - 1]) + ContSeparator(more, |rows| - 1) + RenderRow(q, rows[|rows| - 1])
  }

  /** A batch of value tuples separated by ", ". */
  function RenderRows(q: char, rows: seq<seq<Value>>): string
  {
    RenderRowsAt(q, false, rows)
  }

  /** A running counter that started at `i0 >= 0` calls for a separator before the tuple
      at position `n` exactly as a batch that continues earlier tuples when `i0 > 0`. */
  lemma CounterSeparator(i0: int, n: int)
    requires i0 >= 0 && n >= 0
    ensures Separator(i0 + n) == ContSeparator(i0 > 0, n)
  {
  }

  /** The text of an INSERT up to its first value tuple. */
  function InsertHead(table: string, columns: seq<string>): string
  {
    "INSERT INTO " + table + " (" + Columns(columns) + ") VALUES "
  }

  const Terminator: string := ";\n"

  function Render(q: char, s: Stmt): string
  {
    match s
    case Insert(table, columns, rows) => InsertHead(table, columns) + RenderRows(q, rows) + Terminator
    case Delete(table, column, key) =>
      "DELETE FROM " + table + " WHERE " + column + "=" + [q] + key + [q] + Terminator
  }

  function RenderAll(q: char, ss: seq<Stmt>): string
  {
    if ss == [] then "" else RenderAll(q, ss[..|ss| - 1]) + Render(q, ss[|ss| - 1])
  }

  /** Appending a tuple to a batch appends its text, after the separator its counter calls for. */
  lemma RowsAtSnoc(q: char, more: bool, rows: seq<seq<Value>>, r: seq<Value>)
    ensures RenderRowsAt(q, more, rows + [r]) == RenderRowsAt(q, more, rows) + (ContSeparator(more, |rows|) + RenderRow(q, r))
  {
    SnocParts(rows, r);
  }

  /** Appending a tuple to a batch appends its text, after a separator unless it is the first. */
  lemma RenderRowsSnoc(q: char, rows: seq<seq<Value>>, r: seq<Value>)
    ensures RenderRows(q, rows + [r]) == RenderRows(q, rows) + (Separator(|rows|) + RenderRow(q, r))
  {
    RowsAtSnoc(q, false, rows, r);
  }


  lemma Values1(q: char, a: Value)
    ensures RenderValues(q, [a]) == RenderValue(q, a)
  {
    ShortPrefixes(a, a, a);
  }

  lemma Values2(q: char, a: Value, b: Value)
    ensures RenderValues(q, [a, b]) == RenderValue(q, a) + ", " + RenderValue(q, b)
  {
    ShortPrefixes(a, b, b);
    Values1(q, a);
  }

  lemma Values3(q: char, a: Value, b: Value, c: Value)
    ensures RenderValues(q, [a, b, c]) == RenderValue(q, a) + ", " + RenderValue(q, b) + ", " + RenderValue(q, c)
  {
    ShortPrefixes(a, b, c);
    Values2(q, a, b);
  }

  /** A tuple of three values, as `addTagValues` writes it: in two pieces, split after
      the second value. */
  lemma Row3Late(q: char, a: Value, b: Value, c: Value)
    ensures RenderRow(q, [a, b, c])
      == ("(" + RenderValue(q, a) + ", " + RenderValue(q, b) + ", ") + (RenderValue(q, c) + ")")
  {
    Values3(q, a, b, c);
    var pa, pb, pc := RenderValue(q, a), RenderValue(q, b), RenderValue(q, c);
    var x := pa + ", " + pb + ", ";
    Assoc("(", x, pc);
    Assoc("(" + x, pc, ")");
    Assoc("(", pa + ", " + pb, ", ");
    Assoc("(", pa + ", ", pb);
    Assoc("(", pa, ", ");
  }

  /** A tuple of three values, as `addNodes2WayValues` writes it: in two pieces, split
      after the first value. */
  lemma Row3Early(q: char, a: Value, b: Value, c: Value)
    ensures RenderRow(q, [a, b, c])
      == ("(" + RenderValue(q, a) + ", ") + (RenderValue(q, b) + ", " + RenderValue(q, c) + ")")
  {
    Values3(q, a, b, c);
    var pa, pb, pc := RenderValue(q, a), RenderValue(q, b), RenderValue(q, c);
    var w := "(" + pa + ", ";
    Assoc("(", pa + ", " + pb + ", ", pc);
    Assoc("(", pa + ", " + pb, ", ");
    Assoc("(", pa + ", ", pb);
    Assoc("(", pa, ", ");
    Assoc(w, pb + ", " + pc, ")");
    Assoc(w, pb + ", ", pc);
    Assoc(w, pb, ", ");
  }

  /** The separator a counter `i` calls for, then a three-value tuple written in the two
      pieces of `Row3Late`. */
  lemma WriteRow3Late(q: char, i: int, row: seq<Value>, a: Value, b: Value, c: Value, o: string, mid: string, out: string)
    requires row == [a, b, c]
    requires mid == (if i > 0 then o + ", " else o)
    requires out == mid + ("(" + RenderValue(q, a) + ", " + RenderValue(q, b) + ", ") + (RenderValue(q, c) + ")")
    ensures out == o + (Separator(i) + RenderRow(q, row))
  {
    Row3Late(q, a, b, c);
    var first, second := "(" + RenderValue(q, a) + ", " + RenderValue(q, b) + ", ", RenderValue(q, c) + ")";
    Assoc(mid, first, second);
    if i <= 0 {
      AppendEmpty(first + second);
    }
    Assoc(o, Separator(i), first + second);
  }

  /** The separator a counter `i` calls for, then a three-value tuple written in the two
      pieces of `Row3Early`. */
  lemma WriteRow3Early(q: char, i: int, row: seq<Value>, a: Value, b: Value, c: Value, o: string, mid: string, out: string)
    requires row == [a, b, c]
    requires mid == (if i > 0 then o + ", " else o)
    requires out == mid + ("(" + RenderValue(q, a) + ", ") + (RenderValue(q, b) + ", " + RenderValue(q, c) + ")")
    ensures out == o + (Separator(i) + RenderRow(q, row))
  {
    Row3Early(q, a, b, c);
    var first, second := "(" + RenderValue(q, a) + ", ", RenderValue(q, b) + ", " + RenderValue(q, c) + ")";
    Assoc(mid, first, second);
    if i <= 0 {
      AppendEmpty(first + second);
    }
    Assoc(o, Separator(i), first + second);
  }

  /** The separator a counter `i` calls for, then a three-value tuple written in one
      piece, as the draft `addTagValues` does. */
  lemma WriteRow3(q: char, i: int, row: seq<Value>, a: Value, b: Value, c: Value, o: string, mid: string, out: string)
    requires row == [a, b, c]
    requires mid == (if i > 0 then o + ", " else o)
    requires out == mid + ("(" + RenderValue(q, a) + ", " + RenderValue(q, b) + ", " + RenderValue(q, c) + ")")
    ensures out == o + (Separator(i) + RenderRow(q, row))
  {
    var first := "(" + RenderValue(q, a) + ", " + RenderValue(q, b) + ", ";
    Assoc(first, RenderValue(q, c), ")");
    WriteRow3Late(q, i, row, a, b, c, o, mid, out);
  }

  lemma Rows1(q: char, r: seq<Value>)
    ensures RenderRows(q, [r]) == RenderRow(q, r)
  {
    AppendEmpty([r]);
    RowsAtSnoc(q, false, [], r);
    AppendEmpty(RenderRow(q, r));
  }

  /** An INSERT of a single tuple: the head, the tuple and the terminator. */
  lemma SingleRow(q: char, table: string, columns: seq<string>, r: seq<Value>)
    ensures Render(q, Insert(table, columns, [r])) == InsertHead(table, columns) + RenderRow(q, r) + Terminator
  {
    Rows1(q, r);
  }

  lemma RenderAll1(q: char, a: Stmt)
    ensures RenderAll(q, [a]) == Render(q, a)
  {
    ShortPrefixes(a, a, a);
  }

  lemma RenderAll2(q: char, a: Stmt, b: Stmt)
    ensures RenderAll(q, [a, b]) == Render(q, a) + Render(q, b)
  {
    ShortPrefixes(a, b, b);
    RenderAll1(q, a);
  }

  lemma RenderAll3(q: char, a: Stmt, b: Stmt, c: Stmt)
    ensures RenderAll(q, [a, b, c]) == Render(q, a) + Render(q, b) + Render(q, c)
  {
    ShortPrefixes(a, b, c);
    RenderAll2(q, a, b);
  }

  /** A batch that continues earlier tuples is the plain batch after one separator. */
  lemma {:induction false} RowsAtContinue(q: char, rows: seq<seq<Value>>)
    requires rows != []
    ensures RenderRowsAt(q, true, rows) == ", " + RenderRows(q, rows)
  {
    var init, last := rows[..|rows| - 1], rows[|rows| - 1];
    InitLast(rows);
    RowsAtSnoc(q, true, init, last);
    RenderRowsSnoc(q, init, last);
    if init == [] {
      AppendEmpty([last]);
    } else {
      RowsAtContinue(q, init);
      Assoc(", ", RenderRows(q, init), Separator(|init|) + RenderRow(q, last));
    }
  }

  /** Writing the tuple `r` after the separator a running counter calls for extends the
      batch that the counter started at `i0` by that tuple. */
  lemma CounterStep(q: char, i0: int, rows: seq<seq<Value>>, r: seq<Value>, o: string, before: string, out: string)
    requires i0 >= 0
    requires before == o + RenderRowsAt(q, i0 > 0, rows)
    requires out == before + (Separator(i0 + |rows|) + RenderRow(q, r))
    ensures out == o + RenderRowsAt(q, i0 > 0, rows + [r])
  {
    RowsAtSnoc(q, i0 > 0, rows, r);
    CounterSeparator(i0, |rows|);
    Chain(o, RenderRowsAt(q, i0 > 0, rows), ContSeparator(i0 > 0, |rows|) + RenderRow(q, r), RenderRowsAt(q, i0 > 0, rows + [r]), before, out);
  }

  /** What is written for an optional tuple when the running counter is `i`. */
  function RowText(q: char, i: int, extra: seq<seq<Value>>): string
  {
    if extra == [] then "" else Separator(i) + RenderRow(q, extra[0])
  }

  /** A counter-driven loop step that writes at most one tuple keeps the batch rendered. */
  lemma CounterStepOpt(q: char, i0: int, rows: seq<seq<Value>>, extra: seq<seq<Value>>, o: string, before: string, out: string)
    requires i0 >= 0 && |extra| <= 1
    requires before == o + RenderRowsAt(q, i0 > 0, rows)
    requires out == before + RowText(q, i0 + |rows|, extra)
    ensures out == o + RenderRowsAt(q, i0 > 0, rows + extra)
  {
    if extra == [] {
      AppendEmpty(rows);
      AppendEmpty(before);
    } else {
      assert extra == [extra[0]];
      CounterStep(q, i0, rows, extra[0], o, before, out);
    }
  }

  /** The tables a list of statements touches. */
  function Tables(ss: seq<Stmt>): set<string>
  {
    if ss == [] then {} else Tables(ss[..|ss| - 1]) + {ss[|ss| - 1].table}
  }

  lemma Tables2(a: Stmt, b: Stmt)
    ensures Tables([a, b]) == {a.table, b.table}
  {
    ShortPrefixes(a, b, b);
    assert Tables([a]) == {} + {a.table};
  }

  lemma Tables3(a: Stmt, b: Stmt, c: Stmt)
    ensures Tables([a, b, c]) == {a.table, b.table, c.table}
  {
    ShortPrefixes(a, b, c);
    Tables2(a, b);
  }
}
