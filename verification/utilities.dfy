/**
 * Layout arithmetic of the terminal helpers in utilities.py: the column
 * widths and total width of a table printed from a list of row dictionaries,
 * the lines of that table, the line breaking of `print_list` and the box of
 * `print_banner`.  What would be written to the terminal is returned as the
 * list of lines, each line without its trailing newline.
 */
module Utilities {
  import opened Wrappers
  import opened PyDict
  import opened Text

  /** One row of the table: a dict from field name to (already stringified) value. */
  type Row = Dict<string, string>

  /** What `print_table_from_list_of_dicts` returns, with what it prints. */
  datatype Table =
      /** empty input: returns None and prints nothing */
    | NoRows
      /** the table would be wider than allowed: the first row is shown as a
          dictionary instead, and the widths are still returned */
    | TooWide(widths: Dict<string, nat>, totalWidth: int)
      /** the widths, and the lines of the printed table */
    | Printed(widths: Dict<string, nat>, lines: seq<string>)

  /** `x[field]` succeeds for every row and every field (otherwise KeyError). */
  predicate HasFields(rows: seq<Row>, fields: seq<string>) {
    forall i, j :: 0 <= i < |rows| && 0 <= j < |fields| ==> fields[j] in rows[i].items
  }

  /** `max([len(str(x[field])) for x in rows] + [len(field)])` */
  function MaxLength(rows: seq<Row>, field: string): (m: nat)
    requires forall i :: 0 <= i < |rows| ==> field in rows[i].items
    ensures |field| <= m
    ensures forall i :: 0 <= i < |rows| ==> |rows[i].items[field]| <= m
    ensures m == |field| || exists i :: 0 <= i < |rows| && |rows[i].items[field]| == m
  {
    if rows == [] then |field|
    else
      var m := MaxLength(rows[..|rows| - 1], field);
      var last := |rows[|rows| - 1].items[field]|;
      if m < last then last else m
  }

  /**
   * The width of one column: the longest of its name and values plus one,
   * or `truncateWidth` when that longest exceeds `truncateWidth`.
   */
  function ColumnWidth(rows: seq<Row>, field: string, truncateWidth: nat): (w: nat)
    requires forall i :: 0 <= i < |rows| ==> field in rows[i].items
    ensures w <= truncateWidth + 1
    ensures w == truncateWidth || (|field| < w && forall i :: 0 <= i < |rows| ==> |rows[i].items[field]| < w)
  {
    var m := MaxLength(rows, field);
    if m > truncateWidth then truncateWidth else m + 1
  }

  /** The width dictionary after its loop over `fields`. */
  function Widths(fields: seq<string>, rows: seq<Row>, truncateWidth: nat): (d: Dict<string, nat>)
    requires HasFields(rows, fields)
    ensures d.Valid()
    ensures forall f :: f in d.items <==> f in fields
  {
    if fields == [] then Empty()
    else
      var n := |fields| - 1;
      assert HasFields(rows, fields[..n]);
      Widths(fields[..n], rows, truncateWidth).Put(fields[n], ColumnWidth(rows, fields[n], truncateWidth))
  }

  lemma WidthsStep(fields: seq<string>, rows: seq<Row>, truncateWidth: nat, f: nat)
    requires HasFields(rows, fields) && f < |fields|
    ensures HasFields(rows, fields[..f]) && HasFields(rows, fields[..f + 1])
    ensures Widths(fields[..f + 1], rows, truncateWidth)
         == Widths(fields[..f], rows, truncateWidth).Put(fields[f], ColumnWidth(rows, fields[f], truncateWidth))
  {
    assert fields[..f + 1][..f] == fields[..f];
  }

  /** Sum of the widths of `keys`, counting nothing for an excluded key. */
  function SumShown(keys: seq<string>, widths: map<string, nat>, excluded: seq<string>): nat
    requires forall k :: k in keys ==> k in widths
  {
    if keys == [] then 0
    else
      var n := |keys| - 1;
      SumShown(keys[..n], widths, excluded) + (if keys[n] in excluded then 0 else widths[keys[n]])
  }

  /**
   * `total_width`: the shown columns' widths, plus one for each entry of the
   * width dictionary (excluded ones included), minus one.
   */
  function TotalWidth(widths: Dict<string, nat>, excluded: seq<string>): (total: int)
    requires widths.Valid()
    ensures total >= |widths.keys| - 1
    ensures total <= SumShown(widths.keys, widths.items, []) + |widths.keys| - 1
  {
    SumShownAtMost(widths.keys, widths.items, excluded);
    SumShown(widths.keys, widths.items, excluded) + |widths.keys| - 1
  }

  /** Excluding columns can only lower the sum of the shown widths. */
  lemma {:induction false} SumShownAtMost(keys: seq<string>, widths: map<string, nat>, excluded: seq<string>)
    requires forall k :: k in keys ==> k in widths
    ensures SumShown(keys, widths, excluded) <= SumShown(keys, widths, [])
  {
    if keys != [] {
      SumShownAtMost(keys[..|keys| - 1], widths, excluded);
    }
  }

  /** The cells of one line: for each field that is not excluded, `|` and its text fitted to the column. */
  function Cells(fields: seq<string>, texts: seq<string>, excluded: seq<string>, widths: map<string, nat>): string
    requires |texts| == |fields|
    requires forall f :: f in fields ==> f in widths
  {
    if fields == [] then ""
    else
      var n := |fields| - 1;
      Cells(fields[..n], texts[..n], excluded, widths)
        + (if fields[n] in excluded then "" else "|" + Fit(texts[n], widths[fields[n]]))
  }

  /** The values of `row` for `fields`, in order. */
  function RowTexts(row: Row, fields: seq<string>): (texts: seq<string>)
    requires forall j :: 0 <= j < |fields| ==> fields[j] in row.items
    ensures |texts| == |fields|
    ensures forall j :: 0 <= j < |fields| ==> texts[j] == row.items[fields[j]]
  {
    seq(|fields|, j requires 0 <= j < |fields| => row.items[fields[j]])
  }

  /** One printed data line per row. */
  function RowLines(rows: seq<Row>, fields: seq<string>, excluded: seq<string>, widths: map<string, nat>): (lines: seq<string>)
    requires HasFields(rows, fields)
    requires forall f :: f in fields ==> f in widths
    ensures |lines| == |rows|
  {
    if rows == [] then []
    else
      var n := |rows| - 1;
      assert HasFields(rows[..n], fields);
      RowLines(rows[..n], fields, excluded, widths)
        + [Cells(fields, RowTexts(rows[n], fields), excluded, widths) + "|"]
  }

  lemma RowLinesStep(rows: seq<Row>, fields: seq<string>, excluded: seq<string>, widths: map<string, nat>, r: nat)
    requires HasFields(rows, fields) && r < |rows|
    requires forall f :: f in fields ==> f in widths
    ensures HasFields(rows[..r], fields) && HasFields(rows[..r + 1], fields)
    ensures RowLines(rows[..r + 1], fields, excluded, widths)
         == RowLines(rows[..r], fields, excluded, widths) + [Cells(fields, RowTexts(rows[r], fields), excluded, widths) + "|"]
  {
    assert rows[..r + 1][..r] == rows[..r];
  }

  /** The fields the table shows by default: the keys of the first row, in order. */
  function IncludedFields(rows: seq<Row>, included: Option<seq<string>>): seq<string>
    requires rows != []
  {
    match included
    case None => rows[0].keys
    case Some(fields) => fields
  }

  /** Every row has every included field. */
  predicate LayoutDefined(rows: seq<Row>, included: Option<seq<string>>) {
    rows != [] ==> HasFields(rows, IncludedFields(rows, included))
  }

  /** What `print_table_from_list_of_dicts` returns and prints. */
  function Layout(rows: seq<Row>, excluded: Option<seq<string>>, included: Option<seq<string>>,
                  truncateWidth: nat, maxTotalWidth: int): (t: Table)
    requires LayoutDefined(rows, included)
    ensures t.NoRows? <==> rows == []
    ensures t.TooWide? ==> t.totalWidth > maxTotalWidth && t.totalWidth >= |t.widths.keys| - 1
  {
    if rows == [] then NoRows
    else
      var fields := IncludedFields(rows, included);
      var hidden := excluded.GetOr([]);
      var widths := Widths(fields, rows, truncateWidth);
      var total := TotalWidth(widths, hidden);
      if total > maxTotalWidth then TooWide(widths, total)
      else
        var rule := Repeat('-', total);
        Printed(widths, [rule, Cells(fields, fields, hidden, widths.items) + "|", rule]
                        + RowLines(rows, fields, hidden, widths.items) + [rule])
  }

  /** `max(widths)` over the lengths of the field's values and of its name. */
  method LongestValue(rows: seq<Row>, field: string) returns (longest: nat)
    requires forall i :: 0 <= i < |rows| ==> field in rows[i].items
    ensures longest == MaxLength(rows, field)
  {
    longest := |field|;
    for r := 0 to |rows|
      invariant longest == MaxLength(rows[..r], field)
    {
      assert rows[..r + 1][..r] == rows[..r];
      var len := |rows[r].items[field]|;
      if longest < len {
        longest := len;
      }
    }
    assert rows[..|rows|] == rows;
  }

  /** The loop that fills the width dictionary, one field at a time. */
  method ComputeWidths(rows: seq<Row>, fields: seq<string>, truncateWidth: nat) returns (widths: Dict<string, nat>)
    requires HasFields(rows, fields)
    ensures widths == Widths(fields, rows, truncateWidth)
  {
    widths := Empty();
    for f := 0 to |fields|
      invariant widths == Widths(fields[..f], rows, truncateWidth)
    {
      var field := fields[f];
      var longest := LongestValue(rows, field);
      WidthsStep(fields, rows, truncateWidth, f);
      PutTwice(widths, field, longest + 1, truncateWidth);
      ghost var before := widths;
      widths := widths.Put(field, longest + 1);
      if longest > truncateWidth {
        widths := widths.Put(field, truncateWidth);
      }
      assert widths == before.Put(field, ColumnWidth(rows, field, truncateWidth));
    }
    assert fields[..|fields|] == fields;
  }

  /** The inner printing loop: the cells of one line, then the closing `|`. */
  method RenderLine(fields: seq<string>, texts: seq<string>, excluded: seq<string>, widths: map<string, nat>)
    returns (line: string)
    requires |texts| == |fields|
    requires forall f :: f in fields ==> f in widths
    ensures line == Cells(fields, texts, excluded, widths) + "|"
  {
    line := "";
    for j := 0 to |fields|
      invariant line == Cells(fields[..j], texts[..j], excluded, widths)
    {
      assert fields[..j + 1][..j] == fields[..j];
      assert texts[..j + 1][..j] == texts[..j];
      var k := fields[j];
      if k !in excluded {
        line := line + ("|" + Fit(texts[j], widths[k]));
      }
    }
    assert fields[..|fields|] == fields && texts[..|texts|] == texts;
    line := line + "|";
  }

  /** The outer printing loop: one line per row. */
  method RenderRows(rows: seq<Row>, fields: seq<string>, excluded: seq<string>, widths: map<string, nat>)
    returns (lines: seq<string>)
    requires HasFields(rows, fields)
    requires forall f :: f in fields ==> f in widths
    ensures lines == RowLines(rows, fields, excluded, widths)
  {
    lines := [];
    for r := 0 to |rows|
      invariant HasFields(rows[..r], fields)
      invariant lines == RowLines(rows[..r], fields, excluded, widths)
    {
      var line := RenderLine(fields, RowTexts(rows[r], fields), excluded, widths);
      RowLinesStep(rows, fields, excluded, widths, r);
      lines := lines + [line];
    }
    assert rows[..|rows|] == rows;
  }

  /** `print_table_from_list_of_dicts`, with the terminal output returned as lines. */
  method PrintTable(rows: seq<Row>, excluded: Option<seq<string>>, included: Option<seq<string>>,
                    truncateWidth: nat, maxTotalWidth: int) returns (table: Table)
    requires LayoutDefined(rows, included)
    ensures table == Layout(rows, excluded, included, truncateWidth, maxTotalWidth)
  {
    if |rows| == 0 {
      return NoRows;
    }
    var hidden := if excluded.None? then [] else excluded.value;
    var fields := if included.None? then rows[0].keys else included.value;
    var widths := ComputeWidths(rows, fields, truncateWidth);
    var total := TotalWidth(widths, hidden);
    if total > maxTotalWidth {
      return TooWide(widths, total);
    }

    var rule := Repeat('-', total);
    var header := RenderLine(fields, fields, hidden, widths.items);
    var body := RenderRows(rows, fields, hidden, widths.items);
    table := Printed(widths, [rule, header, rule] + body + [rule]);
  }

  /** `max([len(x) for x in xs])`. */
  function Longest(xs: seq<string>): (m: nat)
    requires xs != []
    ensures forall i :: 0 <= i < |xs| ==> |xs[i]| <= m
    ensures exists i :: 0 <= i < |xs| && |xs[i]| == m
  {
    var n := |xs| - 1;
    if n == 0 then |xs[0]|
    else
      var m := Longest(xs[..n]);
      assert forall i :: 0 <= i < n ==> xs[..n][i] == xs[i];
      if |xs[n]| > m then |xs[n]| else m
  }

  /** The pieces written one after the other, as one string. */
  function Concat(pieces: seq<string>): (s: string)
  {
    if pieces == [] then [] else Concat(pieces[..|pieces| - 1]) + pieces[|pieces| - 1]
  }

  /** Every item cut or padded to `w` characters, written one after the other. */
  function FitAll(items: seq<string>, w: nat): (s: string)
    ensures |s| == |items| * w
  {
    if items == [] then [] else FitAll(items[..|items| - 1], w) + Fit(items[|items| - 1], w)
  }

  lemma ConcatExtendLast(lines: seq<string>, piece: string)
    requires lines != []
    ensures Concat(lines[|lines| - 1 := lines[|lines| - 1] + piece]) == Concat(lines) + piece
  {
    var n := |lines| - 1;
    assert lines[n := lines[n] + piece][..n] == lines[..n];
  }

  lemma ConcatAppend(lines: seq<string>, line: string)
    ensures Concat(lines + [line]) == Concat(lines) + line
  {
    assert (lines + [line])[..|lines|] == lines;
  }

  lemma FitAllStep(items: seq<string>, w: nat, i: nat)
    requires i < |items|
    ensures FitAll(items[..i + 1], w) == FitAll(items[..i], w) + Fit(items[i], w)
  {
    assert items[..i + 1][..i] == items[..i];
  }

  /** Euclidean quotient and remainder are the only ones with the remainder in range. */
  lemma DivModUnique(x: int, k: int, q: int, c: int)
    requires k > 0 && 0 <= c < k && x == q * k + c
    ensures x / k == q && x % k == c
  {
    var q', c' := x / k, x % k;
    assert x == q' * k + c' && 0 <= c' < k;
    if q' > q {
      MulMonotone(q', q + 1, k);
      assert false;
    } else if q' < q {
      MulMonotone(q, q' + 1, k);
      assert false;
    }
  }

  lemma MulMonotone(a: int, b: int, k: int)
    requires k > 0 && a >= b
    ensures a * k >= b * k && (b + 1) * k == b * k + k
  {
  }

  lemma MulSucc(a: int, b: int)
    ensures (a + 1) * b == a * b + b
  {
  }

  /**
   * Python's `i % n == 0` for a nonzero `n` of either sign holds just when
   * `|n|` divides `i`; with `i == q * |n| + c + 1` and `c < |n|` that is
   * when the line has just been filled.
   */
  lemma LineFilled(i: int, n: int, k: int, q: int, c: int)
    requires n != 0 && k == (if n < 0 then -n else n)
    requires 0 <= c < k && i == q * k + c + 1
    ensures i % n == 0 <==> c + 1 == k
  {
    var r := i % n;
    assert i == (i / n) * n + r && 0 <= r < k;
    var q' := if n < 0 then -(i / n) else i / n;
    assert (i / n) * n == q' * k;
    DivModUnique(i, k, q', r);
    if c + 1 == k {
      DivModUnique(i, k, q + 1, 0);
    } else {
      DivModUnique(i, k, q, c + 1);
    }
  }

  /** The exceptions `print_list` raises. */
  datatype ListError =
    | EmptyList   // `max` of no lengths: ValueError
    | NoColumns   // `i % n_columns` with no column fitting: ZeroDivisionError

  /** `q` full lines of `k` items of width `w`, then an open line of `c` items. */
  ghost predicate ListShape(lines: seq<string>, q: nat, c: nat, k: nat, w: nat) {
    && |lines| == q + 1
    && (forall j :: 0 <= j < q ==> |lines[j]| == k * w)
    && |lines[q]| == c * w
  }

  lemma ListShapeWrite(lines: seq<string>, piece: string, q: nat, c: nat, k: nat, w: nat)
    requires ListShape(lines, q, c, k, w) && |piece| == w
    ensures ListShape(lines[q := lines[q] + piece], q, c + 1, k, w)
  {
    MulSucc(c, w);
  }

  lemma ListShapeBreak(lines: seq<string>, q: nat, k: nat, w: nat)
    requires ListShape(lines, q, k, k, w)
    ensures ListShape(lines + [""], q + 1, 0, k, w)
  {
  }

  /**
   * The loop of `print_list`: each item written in `w` characters, and a
   * newline after every `n`-th.  The lines so far, the last one still open.
   */
  method WriteItems(items: seq<string>, w: nat, n: int)
    returns (lines: seq<string>, ghost q: nat, ghost c: nat)
    requires n != 0
    ensures Concat(lines) == FitAll(items, w)
    ensures var k := if n < 0 then -n else n;
      && c < k && |items| == q * k + c
      && ListShape(lines, q, c, k, w)
  {
    ghost var k := if n < 0 then -n else n;
    lines := [""];
    q, c := 0, 0;
    var i := 0;
    while i < |items|
      invariant 0 <= i <= |items|
      invariant c < k && i == q * k + c
      invariant ListShape(lines, q, c, k, w)
      invariant Concat(lines) == FitAll(items[..i], w)
    {
      var piece := Fit(items[i], w);
      ConcatExtendLast(lines, piece);
      FitAllStep(items, w, i);
      ListShapeWrite(lines, piece, q, c, k, w);
      lines := lines[|lines| - 1 := lines[|lines| - 1] + piece];
      i := i + 1;
      LineFilled(i, n, k, q, c);
      if i % n == 0 {
        MulSucc(q, k);
        ConcatAppend(lines, "");
        ListShapeBreak(lines, q, k, w);
        lines := lines + [""];
        q, c := q + 1, 0;
      } else {
        c := c + 1;
      }
    }
    assert items[..i] == items;
  }

  /**
   * The output of `print_list` split at its newlines: `|items| / k` full
   * lines of `k` items of width `w`, a line with the remaining items, and
   * the empty string after the final newline; `k` is the magnitude of `n`.
   */
  ghost predicate ListLines(items: seq<string>, w: nat, n: int, lines: seq<string>) {
    var k := if n < 0 then -n else n;
    && k > 0
    && |lines| == |items| / k + 2
    && lines[|lines| - 1] == ""
    && (forall j :: 0 <= j < |lines| - 2 ==> |lines[j]| == k * w)
    && |lines[|lines| - 2]| == (|items| % k) * w
    && Concat(lines) == FitAll(items, w)
  }

  /**
   * `print_list`: the items, each cut or padded to two more than the longest,
   * `max_total_width // width` of them to a line (the magnitude of that, since
   * Python's `i % n == 0` only looks at it), then a final newline.  The result
   * is the output split at its newlines, so it always ends with the empty
   * string after the last newline.  `truncate_width` is not used by the source.
   */
  method PrintList(items: seq<string>, truncateWidth: int, maxTotalWidth: int)
    returns (r: Result<seq<string>, ListError>)
    ensures items == [] <==> r == Failure(EmptyList)
    ensures items != [] && maxTotalWidth / (Longest(items) + 2) == 0 <==> r == Failure(NoColumns)
    ensures r.Success? <==> items != [] && maxTotalWidth / (Longest(items) + 2) != 0
    ensures r.Success? ==> ListLines(items, Longest(items) + 2, maxTotalWidth / (Longest(items) + 2), r.value)
  {
    if items == [] {
      return Failure(EmptyList);
    }
    var w := Longest(items) + 2;
    // math.floor of the true quotient; the divisor is positive
    var n := maxTotalWidth / w;
    if n == 0 {
      return Failure(NoColumns);
    }
    ghost var k := if n < 0 then -n else n;
    var lines, q, c := WriteItems(items, w, n);
    DivModUnique(|items|, k, q, c);
    ConcatAppend(lines, "");
    lines := lines + [""];
    r := Success(lines);
  }

  /**
   * A line of the banner: `* `, then `text` padded with spaces to `width`, then ` *`.
   * The text is never cut, so `width` must be at least its length.
   */
  predicate BoxLine(line: string, text: string, width: nat) {
    && |line| == width + 4
    && |text| <= width
    && line[..2] == "* "
    && line[2..2 + |text|] == text
    && (forall j :: 2 + |text| <= j < width + 2 ==> line[j] == ' ')
    && line[width + 2..] == " *"
  }

  function BannerLine(text: string, width: nat): (line: string)
    requires |text| <= width
    ensures BoxLine(line, text, width)
  {
    var padded := Ljust(text, width);
    assert padded[..|text|] == text;
    "* " + padded + " *"
  }

  /** The top rule and the boxed lines of the first `j` items. */
  ghost predicate BannerTop(lines: seq<string>, items: seq<string>, j: nat, width: nat)
    requires j <= |items|
  {
    && |lines| == j + 1
    && lines[0] == Repeat('*', width + 4)
    && (forall t :: 0 <= t < j ==> BoxLine(lines[t + 1], items[t], width))
  }

  /**
   * The whole banner: a rule of asterisks, each item boxed, the timestamp
   * boxed, the rule again; every line `width + 4` long.
   */
  ghost predicate Banner(lines: seq<string>, items: seq<string>, stamp: string, width: nat) {
    && |lines| == |items| + 3
    && lines[0] == lines[|lines| - 1] == Repeat('*', width + 4)
    && (forall j :: 0 <= j < |items| ==> BoxLine(lines[j + 1], items[j], width))
    && BoxLine(lines[|items| + 1], stamp, width)
    && (forall j :: 0 <= j < |lines| ==> |lines[j]| == width + 4)
  }

  lemma BannerTopStep(lines: seq<string>, items: seq<string>, j: nat, width: nat, line: string)
    requires j < |items| && BannerTop(lines, items, j, width) && BoxLine(line, items[j], width)
    ensures BannerTop(lines + [line], items, j + 1, width)
  {
  }

  lemma BannerClose(lines: seq<string>, items: seq<string>, stamp: string, width: nat, last: string)
    requires BannerTop(lines, items, |items|, width) && BoxLine(last, stamp, width)
    ensures Banner(lines + [last, lines[0]], items, stamp, width)
  {
    var all := lines + [last, lines[0]];
    forall j | 0 <= j < |all|
      ensures |all[j]| == width + 4
    {
      if 0 < j <= |items| {
        assert BoxLine(lines[j], items[j - 1], width);
      }
    }
  }

  /**
   * `print_banner`: a box of asterisks as wide as the longest of the items
   * and the timestamp line, plus four.  The current time is the parameter
   * `now`, the text of `datetime.now().isoformat()`.
   */
  method PrintBanner(items: seq<string>, now: string) returns (lines: seq<string>)
    ensures Banner(lines, items, "Invoked at: " + now, Longest(items + ["Invoked at: " + now]))
  {
    var stamp := "Invoked at: " + now;
    var all := items + [stamp];
    var width := Longest(all);
    assert forall j :: 0 <= j < |items| ==> all[j] == items[j];
    assert all[|items|] == stamp;
    var border := Repeat('*', width + 4);
    lines := [border];
    for j := 0 to |items|
      invariant BannerTop(lines, items, j, width)
    {
      var line := BannerLine(items[j], width);
      BannerTopStep(lines, items, j, width, line);
      lines := lines + [line];
    }
    var last := BannerLine(stamp, width);
    BannerClose(lines, items, stamp, width, last);
    lines := lines + [last, border];
  }
}

/** What the table helpers promise about widths and line lengths. */
module UtilitiesFacts {
  import opened Wrappers
  import opened PyDict
  import opened Text
  import opened Utilities

  /** Every entry of the width dictionary is its column's width. */
  lemma {:induction false} WidthsValues(fields: seq<string>, rows: seq<Row>, truncateWidth: nat)
    requires HasFields(rows, fields)
    ensures forall f :: f in Widths(fields, rows, truncateWidth).items ==>
      && (forall i :: 0 <= i < |rows| ==> f in rows[i].items)
      && Widths(fields, rows, truncateWidth).items[f] == ColumnWidth(rows, f, truncateWidth)
  {
    if fields != [] {
      var n := |fields| - 1;
      assert HasFields(rows, fields[..n]);
      WidthsValues(fields[..n], rows, truncateWidth);
    }
  }

  /** With no field listed twice, the width dictionary's keys are the fields, in order. */
  lemma {:induction false} WidthsKeys(fields: seq<string>, rows: seq<Row>, truncateWidth: nat)
    requires HasFields(rows, fields) && Distinct(fields)
    ensures Widths(fields, rows, truncateWidth).keys == fields
  {
    if fields != [] {
      var n := |fields| - 1;
      var prefix := fields[..n];
      assert HasFields(rows, prefix);
      assert Distinct(prefix);
      WidthsKeys(prefix, rows, truncateWidth);
      var d := Widths(prefix, rows, truncateWidth);
      assert fields[n] !in d.items by {
        assert fields[n] !in prefix;
      }
      assert Widths(fields, rows, truncateWidth) == d.Put(fields[n], ColumnWidth(rows, fields[n], truncateWidth));
      assert prefix + [fields[n]] == fields;
    }
  }

  /** A line's cells take one character for each `|` and the column's width for the text. */
  lemma {:induction false} CellsLength(fields: seq<string>, texts: seq<string>, excluded: seq<string>, widths: map<string, nat>)
    requires |texts| == |fields|
    requires forall f :: f in fields ==> f in widths && f !in excluded
    ensures |Cells(fields, texts, excluded, widths)| == SumShown(fields, widths, excluded) + |fields|
  {
    if fields != [] {
      var n := |fields| - 1;
      CellsLength(fields[..n], texts[..n], excluded, widths);
    }
  }

  lemma {:induction false} RowLinesAt(rows: seq<Row>, fields: seq<string>, excluded: seq<string>, widths: map<string, nat>, i: nat)
    requires HasFields(rows, fields) && i < |rows|
    requires forall f :: f in fields ==> f in widths
    ensures RowLines(rows, fields, excluded, widths)[i] == Cells(fields, RowTexts(rows[i], fields), excluded, widths) + "|"
  {
    var n := |rows| - 1;
    assert HasFields(rows[..n], fields);
    if i < n {
      RowLinesAt(rows[..n], fields, excluded, widths, i);
    }
  }

  /**
   * `widths` is the width dictionary of the included fields: one entry per
   * field, each the column's width and at most `truncateWidth + 1`; by
   * default the keys are the first row's keys in order.
   */
  ghost predicate ReturnedWidths(rows: seq<Row>, included: Option<seq<string>>, truncateWidth: nat, widths: Dict<string, nat>)
    requires rows != [] && LayoutDefined(rows, included)
  {
    && widths == Widths(IncludedFields(rows, included), rows, truncateWidth)
    && (forall f :: f in widths.items <==> f in IncludedFields(rows, included))
    && (forall f :: f in widths.items ==> widths.items[f] <= truncateWidth + 1)
    && (included.None? && rows[0].Valid() ==> widths.keys == rows[0].keys)
  }

  /**
   * The widths are returned whether or not the table fits, and no table
   * exactly when the total width exceeds the maximum; no rows, no widths.
   */
  lemma LayoutWidths(rows: seq<Row>, excluded: Option<seq<string>>, included: Option<seq<string>>,
                     truncateWidth: nat, maxTotalWidth: int)
    requires LayoutDefined(rows, included)
    ensures var t := Layout(rows, excluded, included, truncateWidth, maxTotalWidth);
      && (t.NoRows? <==> rows == [])
      && (!t.NoRows? ==>
           && ReturnedWidths(rows, included, truncateWidth, t.widths)
           && (t.TooWide? <==> TotalWidth(t.widths, excluded.GetOr([])) > maxTotalWidth))
  {
    if rows != [] {
      var fields := IncludedFields(rows, included);
      WidthsValues(fields, rows, truncateWidth);
      if included.None? && rows[0].Valid() {
        WidthsKeys(fields, rows, truncateWidth);
      }
    }
  }

  /** Every data line is as long as the header line. */
  lemma RowLinesLength(rows: seq<Row>, fields: seq<string>, excluded: seq<string>, widths: map<string, nat>)
    requires HasFields(rows, fields)
    requires forall f :: f in fields ==> f in widths && f !in excluded
    ensures forall i :: 0 <= i < |rows| ==>
      |RowLines(rows, fields, excluded, widths)[i]| == SumShown(fields, widths, excluded) + |fields| + 1
  {
    forall i | 0 <= i < |rows|
      ensures |RowLines(rows, fields, excluded, widths)[i]| == SumShown(fields, widths, excluded) + |fields| + 1
    {
      RowLinesAt(rows, fields, excluded, widths, i);
      CellsLength(fields, RowTexts(rows[i], fields), excluded, widths);
    }
  }

  lemma LayoutPrinted(rows: seq<Row>, excluded: Option<seq<string>>, included: Option<seq<string>>,
                      truncateWidth: nat, maxTotalWidth: int)
    requires LayoutDefined(rows, included) && rows != []
    requires Layout(rows, excluded, included, truncateWidth, maxTotalWidth).Printed?
    ensures var fields := IncludedFields(rows, included);
      var hidden := excluded.GetOr([]);
      var widths := Widths(fields, rows, truncateWidth);
      var rule := Repeat('-', TotalWidth(widths, hidden));
      Layout(rows, excluded, included, truncateWidth, maxTotalWidth)
        == Printed(widths, [rule, Cells(fields, fields, hidden, widths.items) + "|", rule]
                           + RowLines(rows, fields, hidden, widths.items) + [rule])
  {
  }

  /** The line lengths of a printed table whose width dictionary is keyed by exactly its fields. */
  lemma PrintedLineLengths(rows: seq<Row>, fields: seq<string>, hidden: seq<string>, widths: Dict<string, nat>)
    requires HasFields(rows, fields) && fields != []
    requires widths.Valid() && widths.keys == fields
    requires forall f :: f in fields ==> f !in hidden
    ensures var total := TotalWidth(widths, hidden);
      var rule := Repeat('-', total);
      var lines := [rule, Cells(fields, fields, hidden, widths.items) + "|", rule]
                   + RowLines(rows, fields, hidden, widths.items) + [rule];
      && |lines| == |rows| + 4
      && (forall i :: 0 <= i < |lines| ==>
            |lines[i]| == if i == 0 || i == 2 || i == |rows| + 3 then total else total + 2)
  {
    var total := TotalWidth(widths, hidden);
    var rule := Repeat('-', total);
    var header := Cells(fields, fields, hidden, widths.items) + "|";
    var body := RowLines(rows, fields, hidden, widths.items);
    CellsLength(fields, fields, hidden, widths.items);
    RowLinesLength(rows, fields, hidden, widths.items);
    var lines := [rule, header, rule] + body + [rule];
    forall i | 0 <= i < |lines|
      ensures |lines[i]| == if i == 0 || i == 2 || i == |rows| + 3 then total else total + 2
    {
      if 3 <= i < |rows| + 3 {
        assert lines[i] == body[i - 3];
      }
    }
  }

  /**
   * When no included field is listed twice or excluded, the printed table has
   * four rule and header lines besides one line per row; the rules are
   * `total_width` dashes and every other line is two characters longer.
   */
  lemma TableLineLengths(rows: seq<Row>, excluded: Option<seq<string>>, included: Option<seq<string>>,
                         truncateWidth: nat, maxTotalWidth: int)
    requires LayoutDefined(rows, included) && rows != []
    requires IncludedFields(rows, included) != [] && Distinct(IncludedFields(rows, included))
    requires forall f :: f in IncludedFields(rows, included) ==> f !in excluded.GetOr([])
    requires Layout(rows, excluded, included, truncateWidth, maxTotalWidth).Printed?
    ensures var t := Layout(rows, excluded, included, truncateWidth, maxTotalWidth);
      var total := TotalWidth(t.widths, excluded.GetOr([]));
      && |t.lines| == |rows| + 4
      && (forall i :: 0 <= i < |t.lines| ==>
            |t.lines[i]| == if i == 0 || i == 2 || i == |rows| + 3 then total else total + 2)
  {
    var fields := IncludedFields(rows, included);
    WidthsKeys(fields, rows, truncateWidth);
    LayoutPrinted(rows, excluded, included, truncateWidth, maxTotalWidth);
    PrintedLineLengths(rows, fields, excluded.GetOr([]), Widths(fields, rows, truncateWidth));
  }

  /** Columns that all have the same width `c` and none hidden sum to `c` per column. */
  lemma {:induction false} SumShownUniform(keys: seq<string>, widths: map<string, nat>, c: nat)
    requires forall k :: k in keys ==> k in widths && widths[k] == c
    ensures SumShown(keys, widths, []) == c * |keys|
  {
    if keys != [] {
      var n := |keys| - 1;
      SumShownUniform(keys[..n], widths, c);
    }
  }

  /** The widths in the table test: each of the three columns is 9 wide. */
  lemma ThreeColumnEach(row: Row)
    requires row == Dict(["column a", "column b", "column c"],
                         map["column a" := "a", "column b" := "b", "column c" := "c"])
    ensures row.Valid() && HasFields([row], row.keys)
    ensures Widths(row.keys, [row], 130).keys == row.keys
    ensures forall f :: f in row.keys ==> Widths(row.keys, [row], 130).items[f] == 9
  {
    var rows := [row];
    var fields := row.keys;
    assert row.Valid();
    assert HasFields(rows, fields);
    forall f | f in fields
      ensures MaxLength(rows, f) == 8 && ColumnWidth(rows, f, 130) == 9
    {
      assert rows[..0] == [];
    }
    WidthsValues(fields, rows, 130);
    WidthsKeys(fields, rows, 130);
  }

  /** Three columns of width 9 make a table 29 wide. */
  lemma ThreeColumnWidths(row: Row)
    requires row == Dict(["column a", "column b", "column c"],
                         map["column a" := "a", "column b" := "b", "column c" := "c"])
    ensures row.Valid() && HasFields([row], row.keys)
    ensures Widths(row.keys, [row], 130).keys == row.keys
    ensures TotalWidth(Widths(row.keys, [row], 130), []) == 29
  {
    ThreeColumnEach(row);
    SumShownUniform(row.keys, Widths(row.keys, [row], 130).items, 9);
  }

  /** The table test's single row: rules of 29 dashes around lines of 31 characters. */
  lemma ThreeColumnTable(row: Row)
    requires row == Dict(["column a", "column b", "column c"],
                         map["column a" := "a", "column b" := "b", "column c" := "c"])
    ensures var t := Layout([row], None, None, 130, 150);
      && t.Printed?
      && |t.lines| == 5
      && |t.lines[0]| == |t.lines[2]| == |t.lines[4]| == 29
      && |t.lines[1]| == |t.lines[3]| == 31
  {
    var rows := [row];
    ThreeColumnWidths(row);
    LayoutWidths(rows, None, None, 130, 150);
    var t := Layout(rows, None, None, 130, 150);
    assert IncludedFields(rows, None) == row.keys;
    assert Option<seq<string>>.None.GetOr([]) == [];
    assert t.Printed?;
    TableLineLengths(rows, None, None, 130, 150);
  }
}

/** The behaviour the unit tests of the terminal helpers look for. */
module UtilitiesExamples {
  import opened Wrappers
  import opened Utilities

  /** Twenty 14-character names at the default widths: two full lines of nine, then two. */
  method ListOfTwenty(items: seq<string>) returns (lines: seq<string>)
    requires items == seq(20, _ => "long test name")
    ensures |lines| == 4
    ensures |lines[0]| == |lines[1]| == 144 && |lines[2]| == 32 && lines[3] == ""
  {
    assert Longest(items) == 14 by {
      assert |items[0]| == 14;
    }
    assert 150 / (Longest(items) + 2) == 9;
    var r := PrintList(items, 130, 150);
    assert |items| / 9 == 2 && |items| % 9 == 2;
    lines := r.value;
  }

  /** One short action with a 26-character ISO timestamp: four lines of 42. */
  method BannerOfOne(now: string) returns (lines: seq<string>)
    requires |now| == 26
    ensures |lines| == 4
    ensures forall j :: 0 <= j < 4 ==> |lines[j]| == 42
  {
    var items := ["test_action"];
    assert Longest(items + ["Invoked at: " + now]) == 38;
    lines := PrintBanner(items, now);
  }
}
