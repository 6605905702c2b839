/**
 * Column type inference of data_preview.py: each cell that is not a null
 * equivalent gets a type tag, the tags are counted in a Counter, and the
 * counts decide the column's type.
 *
 * The three Python parsers the tagging relies on (`ast.literal_eval`,
 * `datetime.strptime(s, "%Y-%m-%d")` and `datetime.fromisoformat`) are
 * parameters: `Parsers` holds what each says about a string.
 */
module DataPreview {
  import opened Wrappers
  import opened PyDict

  /** A cell of a row: a string, or Python's `None`. */
  type Cell = Option<string>

  /** A row of the data: column name to cell. */
  type DataRow = Dict<string, Cell>

  /** A `Counter` of type tags. */
  type Counter = Dict<string, nat>

  /** The default `null_equivalents`, `["", None]`. */
  const DefaultNullEquivalents: seq<Cell> := [Some(""), None]

  /** `python_type_to_type` */
  const PythonTypeToType: map<string, string> := map[
    "str" := "string",
    "int" := "integer",
    "float" := "float",
    "bool" := "bool",
    "list" := "list",
    "DATE" := "date",
    "DATETIME" := "datetime"]

  /** The column types inference can report. */
  const ColumnTypes: set<string> := {"string", "integer", "float", "bool", "list", "date", "datetime"}

  /**
   * What the Python parsers say about a string: the name of the type of
   * `ast.literal_eval(s)`, or None when it raises ValueError or SyntaxError;
   * whether `strptime(s, "%Y-%m-%d")` succeeds; whether `fromisoformat(s)` does.
   */
  datatype Parsers = Parsers(literalType: string -> Option<string>,
                             isDate: string -> bool,
                             isIsoDateTime: string -> bool)

  /** The exceptions inference raises. */
  datatype PyError =
    | IndexError            // `rows[0]` of no rows, or `most_common(1)[0]` of an empty Counter
    | KeyError(key: string) // a row without the column, or a tag missing from `python_type_to_type`

  /** `f"{string}"` */
  function CellText(cell: Cell): string {
    match cell
    case None => "None"
    case Some(s) => s
  }

  /**
   * The tag of a cell: the literal's type name, `str` when it is no literal;
   * a `str` that is a date becomes `DATE`, one that is an ISO date-time
   * `DATETIME`.  Both date parsers reject `None` with a TypeError.
   */
  function CellTag(p: Parsers, cell: Cell): (tag: string)
    ensures tag in {"str", "DATE", "DATETIME"} || p.literalType(CellText(cell)) == Some(tag)
  {
    var literal := match p.literalType(CellText(cell)) case None => "str" case Some(name) => name;
    if literal != "str" then literal
    else if cell.Some? && p.isDate(cell.value) then "DATE"
    else if cell.Some? && p.isIsoDateTime(cell.value) then "DATETIME"
    else "str"
  }

  /**
   * A literal other than a string keeps its type name; anything else is a
   * date, a date-time or a plain `str`, the date parser tried first.
   */
  lemma CellTagCases(p: Parsers, cell: Cell)
    ensures p.literalType(CellText(cell)) !in {None, Some("str")} ==> CellTag(p, cell) == p.literalType(CellText(cell)).value
    ensures p.literalType(CellText(cell)) in {None, Some("str")} ==>
      && CellTag(p, cell) in {"str", "DATE", "DATETIME"}
      && (CellTag(p, cell) == "DATE" <==> cell.Some? && p.isDate(cell.value))
      && (CellTag(p, cell) == "DATETIME" <==> cell.Some? && !p.isDate(cell.value) && p.isIsoDateTime(cell.value))
  {
  }

  /** One pass of the loop: a null equivalent is skipped, any other cell's tag counted. */
  function CountCell(p: Parsers, counter: Counter, cell: Cell, nulls: seq<Cell>): (next: Counter)
    requires counter.Valid()
    ensures next.Valid()
  {
    if cell in nulls then counter
    else
      var tag := CellTag(p, cell);
      counter.Put(tag, counter.GetOr(tag, 0) + 1)
  }

  /** The Counter after the loop over `column`. */
  function Tally(p: Parsers, column: seq<Cell>, nulls: seq<Cell>): (counter: Counter)
    ensures counter.Valid()
    ensures |counter.keys| <= |column|
  {
    if column == [] then Empty()
    else CountCell(p, Tally(p, column[..|column| - 1], nulls), column[|column| - 1], nulls)
  }

  /** A null equivalent leaves the Counter as it is. */
  lemma TallySkip(p: Parsers, column: seq<Cell>, nulls: seq<Cell>, i: nat)
    requires i < |column| && column[i] in nulls
    ensures Tally(p, column[..i + 1], nulls) == Tally(p, column[..i], nulls)
  {
    assert column[..i + 1][..i] == column[..i];
  }

  /** Any other cell adds one to the count of its tag. */
  lemma TallyPut(p: Parsers, column: seq<Cell>, nulls: seq<Cell>, i: nat, tag: string)
    requires i < |column| && column[i] !in nulls && tag == CellTag(p, column[i])
    ensures var counter := Tally(p, column[..i], nulls);
      Tally(p, column[..i + 1], nulls) == counter.Put(tag, counter.GetOr(tag, 0) + 1)
  {
    var prefix := column[..i + 1];
    assert prefix[..i] == column[..i] && prefix[i] == column[i];
    assert Tally(p, prefix, nulls) == CountCell(p, Tally(p, column[..i], nulls), column[i], nulls);
  }

  /**
   * The index in `keys` of the first of the largest counts among the first
   * `n` keys: what `max` returns in `Counter.most_common(1)`.
   */
  function FirstMaxIndex(counter: Counter, n: nat): (best: nat)
    requires counter.Valid() && 0 < n <= |counter.keys|
    ensures best < n
    ensures forall j :: 0 <= j < n ==> counter.items[counter.keys[j]] <= counter.items[counter.keys[best]]
    ensures forall j :: 0 <= j < best ==> counter.items[counter.keys[j]] < counter.items[counter.keys[best]]
  {
    if n == 1 then 0
    else
      var best := FirstMaxIndex(counter, n - 1);
      if counter.items[counter.keys[n - 1]] > counter.items[counter.keys[best]] then n - 1 else best
  }

  /** `counter.most_common(1)[0][0]`: the first-inserted of the most frequent tags. */
  function MostCommon(counter: Counter): (tag: string)
    requires counter.Valid() && counter.keys != []
    ensures tag in counter.items
    ensures forall k :: k in counter.items ==> counter.items[k] <= counter.items[tag]
    ensures forall j :: 0 <= j < |counter.keys| && counter.keys[j] == tag ==>
              forall i :: 0 <= i < j ==> counter.items[counter.keys[i]] < counter.items[tag]
  {
    var best := FirstMaxIndex(counter, |counter.keys|);
    assert forall k :: k in counter.items ==> exists j :: 0 <= j < |counter.keys| && counter.keys[j] == k;
    counter.keys[best]
  }

  /** The decision at the end of `field_type_from_column`. */
  function Resolve(counter: Counter, strict: bool): (r: Result<string, PyError>)
    requires counter.Valid()
    ensures r.Success? ==> r.value in ColumnTypes
  {
    if counter.items.Keys == {"float", "int"} then Success("float")
    else if strict && |counter.keys| != 1 then Success("string")
    else if counter.keys == [] then Failure(IndexError)
    else
      var tag := MostCommon(counter);
      if tag in PythonTypeToType then Success(PythonTypeToType[tag]) else Failure(KeyError(tag))
  }

  /** `null_equivalents`, defaulted. */
  function NullsOrDefault(nullEquivalents: Option<seq<Cell>>): seq<Cell> {
    nullEquivalents.GetOr(DefaultNullEquivalents)
  }

  /** What `field_type_from_column` returns or raises. */
  function FieldType(p: Parsers, column: seq<Cell>, nullEquivalents: Option<seq<Cell>>, strict: bool): (r: Result<string, PyError>)
    ensures r.Success? ==> r.value in ColumnTypes
    ensures r == Failure(IndexError) ==> !strict
  {
    Resolve(Tally(p, column, NullsOrDefault(nullEquivalents)), strict)
  }

  /**
   * The body of the loop of `field_type_from_column`: the literal's type
   * name, then the date and date-time parsers tried on a `str`.
   */
  method ClassifyCell(p: Parsers, cell: Cell) returns (tag: string)
    ensures tag == CellTag(p, cell)
  {
    tag := match p.literalType(CellText(cell)) case None => "str" case Some(name) => name;
    if tag == "str" && cell.Some? && p.isDate(cell.value) {
      tag := "DATE";
    }
    if tag == "str" && cell.Some? && p.isIsoDateTime(cell.value) {
      tag := "DATETIME";
    }
  }

  /** The counting loop of `field_type_from_column`. */
  method TallyColumn(p: Parsers, column: seq<Cell>, nulls: seq<Cell>) returns (counter: Counter)
    ensures counter == Tally(p, column, nulls)
  {
    counter := Empty();
    for i := 0 to |column|
      invariant counter == Tally(p, column[..i], nulls)
    {
      var cell := column[i];
      if cell in nulls {
        TallySkip(p, column, nulls, i);
        continue;
      }
      var tag := ClassifyCell(p, cell);
      TallyPut(p, column, nulls, i, tag);
      counter := counter.Put(tag, counter.GetOr(tag, 0) + 1);
    }
    assert column[..|column|] == column;
  }

  /** `field_type_from_column` */
  method FieldTypeFromColumn(p: Parsers, column: seq<Cell>, nullEquivalents: Option<seq<Cell>>, strict: bool)
    returns (r: Result<string, PyError>)
    ensures r == FieldType(p, column, nullEquivalents, strict)
    ensures r.Success? ==> r.value in ColumnTypes
  {
    var nulls := if nullEquivalents.None? then DefaultNullEquivalents else nullEquivalents.value;
    var counter := TallyColumn(p, column, nulls);
    r := Resolve(counter, strict);
  }

  /** `[x[column_name] for x in rows]`, or the KeyError of the first row without it. */
  function Column(rows: seq<DataRow>, name: string): (r: Result<seq<Cell>, PyError>)
    ensures r.Success? ==> |r.value| == |rows| && forall i :: 0 <= i < |rows| ==> name in rows[i].items && r.value[i] == rows[i].items[name]
    ensures r.Failure? ==> r.error == KeyError(name) && exists i :: 0 <= i < |rows| && name !in rows[i].items
  {
    if forall i :: 0 <= i < |rows| ==> name in rows[i].items then
      Success(seq(|rows|, i requires 0 <= i < |rows| => rows[i].items[name]))
    else
      Failure(KeyError(name))
  }

  /** One iteration of `field_types_from_rows`: the type of column `name` added to `types`. */
  function AddFieldType(p: Parsers, rows: seq<DataRow>, types: Dict<string, string>, name: string, nulls: seq<Cell>)
    : (r: Result<Dict<string, string>, PyError>)
    requires types.Valid()
    ensures r.Success? ==> r.value.Valid()
  {
    match Column(rows, name)
    case Failure(e) => Failure(e)
    case Success(cells) =>
      match FieldType(p, cells, Some(nulls), false)
      case Failure(e) => Failure(e)
      case Success(t) => Success(types.Put(name, t))
  }

  /** The types of the columns named in `names`, in order, or the first error. */
  function FieldTypesOf(p: Parsers, rows: seq<DataRow>, names: seq<string>, nulls: seq<Cell>): (r: Result<Dict<string, string>, PyError>)
    ensures r.Success? ==> r.value.Valid()
  {
    if names == [] then Success(Empty())
    else
      var n := |names| - 1;
      var prefix := FieldTypesOf(p, rows, names[..n], nulls);
      if prefix.Failure? then prefix else AddFieldType(p, rows, prefix.value, names[n], nulls)
  }

  /** What `field_types_from_rows` returns or raises. */
  function FieldTypes(p: Parsers, rows: seq<DataRow>, nullEquivalents: Option<seq<Cell>>): (r: Result<Dict<string, string>, PyError>)
    ensures rows == [] ==> r == Failure(IndexError)
    ensures r.Success? ==> r.value.Valid()
  {
    if rows == [] then Failure(IndexError)
    else FieldTypesOf(p, rows, rows[0].keys, NullsOrDefault(nullEquivalents))
  }

  lemma FieldTypesOfStep(p: Parsers, rows: seq<DataRow>, names: seq<string>, nulls: seq<Cell>, i: nat)
    requires i < |names|
    ensures var prefix := FieldTypesOf(p, rows, names[..i], nulls);
      FieldTypesOf(p, rows, names[..i + 1], nulls)
        == if prefix.Failure? then prefix else AddFieldType(p, rows, prefix.value, names[i], nulls)
  {
    assert names[..i + 1][..i] == names[..i];
  }

  /** Once a column has failed, the error is the result. */
  lemma {:induction false} FieldTypesOfFailure(p: Parsers, rows: seq<DataRow>, names: seq<string>, nulls: seq<Cell>, i: nat)
    requires i <= |names| && FieldTypesOf(p, rows, names[..i], nulls).Failure?
    ensures FieldTypesOf(p, rows, names, nulls) == FieldTypesOf(p, rows, names[..i], nulls)
    decreases |names| - i
  {
    if i < |names| {
      FieldTypesOfStep(p, rows, names, nulls, i);
      FieldTypesOfFailure(p, rows, names, nulls, i + 1);
    } else {
      assert names[..i] == names;
    }
  }

  /** The loop of `field_types_from_rows` over the first row's keys. */
  method FieldTypesFromRows(p: Parsers, rows: seq<DataRow>, nullEquivalents: Option<seq<Cell>>)
    returns (r: Result<Dict<string, string>, PyError>)
    ensures r == FieldTypes(p, rows, nullEquivalents)
  {
    if rows == [] {
      return Failure(IndexError);
    }
    var nulls := if nullEquivalents.None? then DefaultNullEquivalents else nullEquivalents.value;
    var names := rows[0].keys;
    var fieldTypes: Dict<string, string> := Empty();
    for i := 0 to |names|
      invariant FieldTypesOf(p, rows, names[..i], nulls) == Success(fieldTypes)
    {
      FieldTypesOfStep(p, rows, names, nulls, i);
      var column := Column(rows, names[i]);
      if column.Failure? {
        FieldTypesOfFailure(p, rows, names, nulls, i + 1);
        return Failure(column.error);
      }
      var fieldType := FieldTypeFromColumn(p, column.value, Some(nulls), false);
      if fieldType.Failure? {
        FieldTypesOfFailure(p, rows, names, nulls, i + 1);
        return Failure(fieldType.error);
      }
      fieldTypes := fieldTypes.Put(names[i], fieldType.value);
    }
    assert names[..|names|] == names;
    r := Success(fieldTypes);
  }
}


/** What type inference promises about the tally and the decision. */
module DataPreviewFacts {
  import opened Wrappers
  import opened PyDict
  import opened DataPreview

  /** The cell is tallied, under `tag`. */
  predicate Tagged(p: Parsers, cell: Cell, nulls: seq<Cell>, tag: string) {
    cell !in nulls && CellTag(p, cell) == tag
  }

  /** How many cells of the column are tallied under `tag`. */
  function CountTag(p: Parsers, column: seq<Cell>, nulls: seq<Cell>, tag: string): nat {
    if column == [] then 0
    else
      var n := |column| - 1;
      CountTag(p, column[..n], nulls, tag) + (if Tagged(p, column[n], nulls, tag) then 1 else 0)
  }

  /** The index of the first cell tallied under `tag`, or `|column|` when there is none. */
  function FirstTagged(p: Parsers, column: seq<Cell>, nulls: seq<Cell>, tag: string): (first: nat)
    ensures first <= |column|
    ensures first < |column| ==> Tagged(p, column[first], nulls, tag)
    ensures forall i :: 0 <= i < first && i < |column| ==> !Tagged(p, column[i], nulls, tag)
  {
    if column == [] then 0
    else
      var n := |column| - 1;
      var first := FirstTagged(p, column[..n], nulls, tag);
      if first < n then first
      else if Tagged(p, column[n], nulls, tag) then n
      else |column|
  }

  /**
   * The Counter holds, for each tag, the number of tallied cells with that
   * tag, and has a key exactly for the tags some cell was tallied under.
   */
  lemma {:induction false} TallyCounts(p: Parsers, column: seq<Cell>, nulls: seq<Cell>)
    ensures forall tag :: Tally(p, column, nulls).GetOr(tag, 0) == CountTag(p, column, nulls, tag)
    ensures forall tag :: tag in Tally(p, column, nulls).items <==> CountTag(p, column, nulls, tag) > 0
  {
    if column != [] {
      TallyCounts(p, column[..|column| - 1], nulls);
    }
  }

  /** A tag is counted exactly when some cell of the column is tallied under it. */
  lemma {:induction false} CountTagPositive(p: Parsers, column: seq<Cell>, nulls: seq<Cell>, tag: string)
    ensures CountTag(p, column, nulls, tag) > 0 <==> exists i :: 0 <= i < |column| && Tagged(p, column[i], nulls, tag)
    ensures CountTag(p, column, nulls, tag) > 0 <==> FirstTagged(p, column, nulls, tag) < |column|
  {
    if column != [] {
      var n := |column| - 1;
      CountTagPositive(p, column[..n], nulls, tag);
      if exists i :: 0 <= i < |column| && Tagged(p, column[i], nulls, tag) {
        var i :| 0 <= i < |column| && Tagged(p, column[i], nulls, tag);
        if i < n {
          assert Tagged(p, column[..n][i], nulls, tag);
        }
      }
    }
  }

  /** The keys of the Counter are the tags of the tallied cells. */
  lemma TallyKeys(p: Parsers, column: seq<Cell>, nulls: seq<Cell>)
    ensures forall tag :: tag in Tally(p, column, nulls).items <==> exists k :: 0 <= k < |column| && Tagged(p, column[k], nulls, tag)
  {
    TallyCounts(p, column, nulls);
    forall tag
      ensures tag in Tally(p, column, nulls).items <==> exists k :: 0 <= k < |column| && Tagged(p, column[k], nulls, tag)
    {
      CountTagPositive(p, column, nulls, tag);
    }
  }

  /** A null-equivalent cell anywhere in the column changes nothing in the Counter. */
  lemma {:induction false} NullCellIgnored(p: Parsers, before: seq<Cell>, cell: Cell, after: seq<Cell>, nulls: seq<Cell>)
    requires cell in nulls
    ensures Tally(p, before + [cell] + after, nulls) == Tally(p, before + after, nulls)
  {
    var x := before + [cell] + after;
    var y := before + after;
    if after == [] {
      assert x[..|x| - 1] == before && x[|x| - 1] == cell;
      assert y == before;
      TallySkipLast(p, x, nulls);
    } else {
      var n := |after| - 1;
      NullCellIgnored(p, before, cell, after[..n], nulls);
      assert x[..|x| - 1] == before + [cell] + after[..n] && x[|x| - 1] == after[n];
      assert y[..|y| - 1] == before + after[..n] && y[|y| - 1] == after[n];
      TallySameLast(p, x, y, nulls);
    }
  }

  /** A column ending in a null equivalent tallies as the column without it. */
  lemma TallySkipLast(p: Parsers, x: seq<Cell>, nulls: seq<Cell>)
    requires x != [] && x[|x| - 1] in nulls
    ensures Tally(p, x, nulls) == Tally(p, x[..|x| - 1], nulls)
  {
  }

  /** Two columns that tally alike before one same last cell tally alike. */
  lemma TallySameLast(p: Parsers, x: seq<Cell>, y: seq<Cell>, nulls: seq<Cell>)
    requires x != [] && y != [] && x[|x| - 1] == y[|y| - 1]
    requires Tally(p, x[..|x| - 1], nulls) == Tally(p, y[..|y| - 1], nulls)
    ensures Tally(p, x, nulls) == Tally(p, y, nulls)
  {
  }

  /**
   * The Counter's keys come in the order their tags were first met, which is
   * what the tie-break of `most_common` goes by; each key was met in the column.
   */
  ghost predicate KeysInOrder(p: Parsers, column: seq<Cell>, nulls: seq<Cell>) {
    var counter := Tally(p, column, nulls);
    && (forall i, j :: 0 <= i < j < |counter.keys| ==>
          FirstTagged(p, column, nulls, counter.keys[i]) < FirstTagged(p, column, nulls, counter.keys[j]))
    && (forall k :: k in counter.items ==> FirstTagged(p, column, nulls, k) < |column|)
  }

  lemma {:induction false} TallyKeyOrder(p: Parsers, column: seq<Cell>, nulls: seq<Cell>)
    ensures KeysInOrder(p, column, nulls)
  {
    if column != [] {
      var prefix := column[..|column| - 1];
      TallyKeyOrder(p, prefix, nulls);
      var cell := column[|column| - 1];
      if cell !in nulls && CellTag(p, cell) !in Tally(p, prefix, nulls).items {
        KeyOrderNewKey(p, column, nulls);
      } else {
        KeyOrderSameKeys(p, column, nulls);
      }
    }
  }

  /** A key's first cell lies in the column without its last cell. */
  lemma FirstTaggedKept(p: Parsers, column: seq<Cell>, nulls: seq<Cell>, k: string)
    requires column != [] && FirstTagged(p, column[..|column| - 1], nulls, k) < |column| - 1
    ensures FirstTagged(p, column, nulls, k) == FirstTagged(p, column[..|column| - 1], nulls, k)
  {
  }

  /** The last cell adds no key: the order is the prefix's. */
  lemma KeyOrderSameKeys(p: Parsers, column: seq<Cell>, nulls: seq<Cell>)
    requires column != [] && KeysInOrder(p, column[..|column| - 1], nulls)
    requires var cell := column[|column| - 1];
      cell in nulls || CellTag(p, cell) in Tally(p, column[..|column| - 1], nulls).items
    ensures KeysInOrder(p, column, nulls)
  {
    var prefix := column[..|column| - 1];
    var before := Tally(p, prefix, nulls);
    var counter := Tally(p, column, nulls);
    assert counter.keys == before.keys && counter.items.Keys == before.items.Keys;
    FirstsKept(p, column, nulls);
  }

  /** The last cell adds a key, at the end, whose first cell is the last one. */
  lemma KeyOrderNewKey(p: Parsers, column: seq<Cell>, nulls: seq<Cell>)
    requires column != [] && KeysInOrder(p, column[..|column| - 1], nulls)
    requires var cell := column[|column| - 1];
      cell !in nulls && CellTag(p, cell) !in Tally(p, column[..|column| - 1], nulls).items
    ensures KeysInOrder(p, column, nulls)
  {
    var prefix := column[..|column| - 1];
    var before := Tally(p, prefix, nulls);
    var counter := Tally(p, column, nulls);
    NewTagLast(p, column, nulls);
    FirstsKept(p, column, nulls);
    forall i, j | 0 <= i < j < |counter.keys|
      ensures FirstTagged(p, column, nulls, counter.keys[i]) < FirstTagged(p, column, nulls, counter.keys[j])
    {
      assert counter.keys[i] == before.keys[i] && before.keys[i] in before.items;
      if j < |before.keys| {
        assert counter.keys[j] == before.keys[j] && before.keys[j] in before.items;
      }
    }
  }

  /** The keys already met keep their first cells when a cell is added. */
  lemma FirstsKept(p: Parsers, column: seq<Cell>, nulls: seq<Cell>)
    requires column != [] && KeysInOrder(p, column[..|column| - 1], nulls)
    ensures forall k :: k in Tally(p, column[..|column| - 1], nulls).items ==>
      FirstTagged(p, column, nulls, k) == FirstTagged(p, column[..|column| - 1], nulls, k) < |column| - 1
  {
    forall k | k in Tally(p, column[..|column| - 1], nulls).items
      ensures FirstTagged(p, column, nulls, k) == FirstTagged(p, column[..|column| - 1], nulls, k) < |column| - 1
    {
      FirstTaggedKept(p, column, nulls, k);
    }
  }

  /** A tag met for the first time in the last cell is listed last. */
  lemma NewTagLast(p: Parsers, column: seq<Cell>, nulls: seq<Cell>)
    requires column != []
    requires var cell := column[|column| - 1];
      cell !in nulls && CellTag(p, cell) !in Tally(p, column[..|column| - 1], nulls).items
    ensures var tag := CellTag(p, column[|column| - 1]);
      && FirstTagged(p, column, nulls, tag) == |column| - 1
      && Tally(p, column, nulls).keys == Tally(p, column[..|column| - 1], nulls).keys + [tag]
  {
    var n := |column| - 1;
    var tag := CellTag(p, column[n]);
    TallyCounts(p, column[..n], nulls);
    CountTagPositive(p, column[..n], nulls, tag);
  }

  /** A column whose tallied cells are all int or float, with both present, is `float`, strict or not. */
  lemma IntFloatColumn(p: Parsers, column: seq<Cell>, nulls: seq<Cell>, strict: bool, i: nat, j: nat)
    requires i < |column| && Tagged(p, column[i], nulls, "int")
    requires j < |column| && Tagged(p, column[j], nulls, "float")
    requires forall k :: 0 <= k < |column| && column[k] !in nulls ==> CellTag(p, column[k]) in {"int", "float"}
    ensures FieldType(p, column, Some(nulls), strict) == Success("float")
  {
    TallyKeys(p, column, nulls);
    var counter := Tally(p, column, nulls);
    assert "int" in counter.items && "float" in counter.items;
    assert counter.items.Keys == {"float", "int"};
  }

  /**
   * In strict mode a column with two different tags, one of them neither
   * int nor float, is `string`.
   */
  lemma StrictMixedColumn(p: Parsers, column: seq<Cell>, nulls: seq<Cell>, i: nat, j: nat)
    requires i < |column| && j < |column| && column[i] !in nulls && column[j] !in nulls
    requires CellTag(p, column[i]) != CellTag(p, column[j])
    requires CellTag(p, column[i]) !in {"int", "float"}
    ensures FieldType(p, column, Some(nulls), true) == Success("string")
  {
    TallyKeys(p, column, nulls);
    var counter := Tally(p, column, nulls);
    var a, b := CellTag(p, column[i]), CellTag(p, column[j]);
    assert Tagged(p, column[i], nulls, a) && Tagged(p, column[j], nulls, b);
    assert a in counter.items && b in counter.items;
    assert counter.items.Keys != {"float", "int"};
  }

  /** A column of null equivalents only is `string` in strict mode and an IndexError otherwise. */
  lemma AllNullColumn(p: Parsers, column: seq<Cell>, nulls: seq<Cell>)
    requires forall k :: 0 <= k < |column| ==> column[k] in nulls
    ensures FieldType(p, column, Some(nulls), true) == Success("string")
    ensures FieldType(p, column, Some(nulls), false) == Failure(IndexError)
  {
    TallyKeys(p, column, nulls);
    var counter := Tally(p, column, nulls);
    assert counter.items.Keys == {};
    assert "float" !in counter.items.Keys;
  }

  /** A column whose tallied cells all carry one tag gets that tag's type, strict or not. */
  lemma UniformColumn(p: Parsers, column: seq<Cell>, nulls: seq<Cell>, strict: bool, tag: string, i: nat)
    requires i < |column| && Tagged(p, column[i], nulls, tag)
    requires forall k :: 0 <= k < |column| && column[k] !in nulls ==> CellTag(p, column[k]) == tag
    ensures tag in PythonTypeToType ==> FieldType(p, column, Some(nulls), strict) == Success(PythonTypeToType[tag])
    ensures tag !in PythonTypeToType ==> FieldType(p, column, Some(nulls), strict) == Failure(KeyError(tag))
  {
    TallyKeys(p, column, nulls);
    var counter := Tally(p, column, nulls);
    assert counter.items.Keys == {tag};
    assert "int" !in counter.items.Keys || "float" !in counter.items.Keys;
    KeysCount(counter);
  }

  /**
   * `tag` is tallied most often, and met before any other tag tallied as
   * often.
   */
  ghost predicate MostFrequentFirst(p: Parsers, column: seq<Cell>, nulls: seq<Cell>, tag: string) {
    && CountTag(p, column, nulls, tag) > 0
    && (forall other :: CountTag(p, column, nulls, other) <= CountTag(p, column, nulls, tag))
    && (forall other :: other != tag && CountTag(p, column, nulls, other) == CountTag(p, column, nulls, tag) ==>
          FirstTagged(p, column, nulls, tag) < FirstTagged(p, column, nulls, other))
  }

  /** Both int and float cells were tallied, and no other tag: the tags are exactly {int, float}. */
  ghost predicate OnlyIntsAndFloats(p: Parsers, column: seq<Cell>, nulls: seq<Cell>) {
    && CountTag(p, column, nulls, "int") > 0
    && CountTag(p, column, nulls, "float") > 0
    && forall other :: other !in {"int", "float"} ==> CountTag(p, column, nulls, other) == 0
  }

  /**
   * Outside strict mode, and unless the only tags are int and float, the
   * most frequent tag decides the type; of several equally frequent tags,
   * the one met first.
   */
  lemma MostCommonDecides(p: Parsers, column: seq<Cell>, nulls: seq<Cell>, tag: string)
    requires MostFrequentFirst(p, column, nulls, tag)
    requires !OnlyIntsAndFloats(p, column, nulls)
    ensures tag in PythonTypeToType ==> FieldType(p, column, Some(nulls), false) == Success(PythonTypeToType[tag])
    ensures tag !in PythonTypeToType ==> FieldType(p, column, Some(nulls), false) == Failure(KeyError(tag))
  {
    MostCommonIsMostFrequentFirst(p, column, nulls, tag);
    TallyCounts(p, column, nulls);
    var counter := Tally(p, column, nulls);
    if CountTag(p, column, nulls, "int") == 0 {
      assert "int" !in counter.items;
    } else if CountTag(p, column, nulls, "float") == 0 {
      assert "float" !in counter.items;
    } else {
      var other :| other !in {"int", "float"} && CountTag(p, column, nulls, other) != 0;
      assert other in counter.items;
    }
    ResolveByMostCommon(counter, tag);
  }

  /** `most_common(1)` names the most frequent tag met first. */
  lemma MostCommonIsMostFrequentFirst(p: Parsers, column: seq<Cell>, nulls: seq<Cell>, tag: string)
    requires MostFrequentFirst(p, column, nulls, tag)
    ensures Tally(p, column, nulls).keys != [] && MostCommon(Tally(p, column, nulls)) == tag
  {
    TallyCounts(p, column, nulls);
    var counter := Tally(p, column, nulls);
    assert tag in counter.items;
    var a :| 0 <= a < |counter.keys| && counter.keys[a] == tag;
    TallyKeyOrder(p, column, nulls);
    EarlierKeysSmaller(p, column, nulls, a);
    MostCommonFirst(counter, a);
  }

  /** With tie-breaks going to the tag met first, the keys before `tag` have smaller counts. */
  lemma EarlierKeysSmaller(p: Parsers, column: seq<Cell>, nulls: seq<Cell>, a: nat)
    requires KeysInOrder(p, column, nulls) && a < |Tally(p, column, nulls).keys|
    requires var counter := Tally(p, column, nulls);
      var tag := counter.keys[a];
      && (forall k :: k in counter.items ==> counter.items[k] <= counter.items[tag])
      && (forall k :: k in counter.items && k != tag && counter.items[k] == counter.items[tag] ==>
            FirstTagged(p, column, nulls, tag) < FirstTagged(p, column, nulls, k))
    ensures var counter := Tally(p, column, nulls);
      forall j :: 0 <= j < a ==> counter.items[counter.keys[j]] < counter.items[counter.keys[a]]
  {
    var counter := Tally(p, column, nulls);
    var keys := counter.keys;
    forall j | 0 <= j < a
      ensures counter.items[keys[j]] < counter.items[keys[a]]
    {
      assert keys[j] in counter.items;
      assert FirstTagged(p, column, nulls, keys[j]) < FirstTagged(p, column, nulls, keys[a]);
    }
  }

  /** Outside strict mode, unless the only keys are int and float, the most common tag is looked up. */
  lemma ResolveByMostCommon(counter: Counter, tag: string)
    requires counter.Valid() && counter.keys != [] && MostCommon(counter) == tag
    requires counter.items.Keys != {"float", "int"}
    ensures tag in PythonTypeToType ==> Resolve(counter, false) == Success(PythonTypeToType[tag])
    ensures tag !in PythonTypeToType ==> Resolve(counter, false) == Failure(KeyError(tag))
  {
  }

  /**
   * `most_common(1)` names the key at `a` when no count is larger and
   * every key listed before it has a smaller count.
   */
  lemma MostCommonFirst(counter: Counter, a: nat)
    requires counter.Valid() && a < |counter.keys|
    requires forall k :: k in counter.items ==> counter.items[k] <= counter.items[counter.keys[a]]
    requires forall j :: 0 <= j < a ==> counter.items[counter.keys[j]] < counter.items[counter.keys[a]]
    ensures MostCommon(counter) == counter.keys[a]
  {
    var b :| 0 <= b < |counter.keys| && counter.keys[b] == MostCommon(counter);
  }

  /** Column `name` exists in every row and its type is inferred without an error. */
  predicate ColumnTyped(p: Parsers, rows: seq<DataRow>, name: string, nulls: seq<Cell>) {
    Column(rows, name).Success? && FieldType(p, Column(rows, name).value, Some(nulls), false).Success?
  }

  /** Every column of `names` is typed. */
  predicate AllTyped(p: Parsers, rows: seq<DataRow>, names: seq<string>, nulls: seq<Cell>) {
    forall i :: 0 <= i < |names| ==> ColumnTyped(p, rows, names[i], nulls)
  }

  /** `types` lists `names` in order, each with its column's type. */
  ghost predicate TypesOf(p: Parsers, rows: seq<DataRow>, names: seq<string>, nulls: seq<Cell>, types: Dict<string, string>) {
    && types.keys == names
    && forall k :: k in types.items ==>
         && ColumnTyped(p, rows, k, nulls)
         && Success(types.items[k]) == FieldType(p, Column(rows, k).value, Some(nulls), false)
  }

  /**
   * Typing the columns `names` succeeds exactly when each of them is typed,
   * and the result then lists the names in order, each with its column's type.
   */
  lemma {:induction false} FieldTypesOfResult(p: Parsers, rows: seq<DataRow>, names: seq<string>, nulls: seq<Cell>)
    requires Distinct(names)
    ensures FieldTypesOf(p, rows, names, nulls).Success? <==> AllTyped(p, rows, names, nulls)
    ensures FieldTypesOf(p, rows, names, nulls).Success? ==> TypesOf(p, rows, names, nulls, FieldTypesOf(p, rows, names, nulls).value)
  {
    if names != [] {
      var n := |names| - 1;
      var prefix := names[..n];
      DistinctInit(names);
      FieldTypesOfResult(p, rows, prefix, nulls);
      if FieldTypesOf(p, rows, prefix, nulls).Success? {
        FieldTypesOfExtended(p, rows, names, nulls);
      } else {
        FieldTypesOfFailed(p, rows, names, nulls);
      }
    }
  }

  /** The columns before the last are typed: the last decides. */
  lemma FieldTypesOfExtended(p: Parsers, rows: seq<DataRow>, names: seq<string>, nulls: seq<Cell>)
    requires names != [] && Distinct(names)
    requires var prefix := names[..|names| - 1];
      && FieldTypesOf(p, rows, prefix, nulls).Success?
      && AllTyped(p, rows, prefix, nulls)
      && TypesOf(p, rows, prefix, nulls, FieldTypesOf(p, rows, prefix, nulls).value)
    ensures FieldTypesOf(p, rows, names, nulls).Success? <==> AllTyped(p, rows, names, nulls)
    ensures FieldTypesOf(p, rows, names, nulls).Success? ==> TypesOf(p, rows, names, nulls, FieldTypesOf(p, rows, names, nulls).value)
  {
    var n := |names| - 1;
    var prefix := names[..n];
    DistinctInit(names);
    AddFieldTypeResult(p, rows, prefix, names[n], nulls, FieldTypesOf(p, rows, prefix, nulls).value, names);
  }

  /** A column before the last is not typed: neither are the columns. */
  lemma FieldTypesOfFailed(p: Parsers, rows: seq<DataRow>, names: seq<string>, nulls: seq<Cell>)
    requires names != []
    requires var prefix := names[..|names| - 1];
      FieldTypesOf(p, rows, prefix, nulls).Failure? && !AllTyped(p, rows, prefix, nulls)
    ensures FieldTypesOf(p, rows, names, nulls).Failure? && !AllTyped(p, rows, names, nulls)
  {
    var prefix := names[..|names| - 1];
    var i :| 0 <= i < |prefix| && !ColumnTyped(p, rows, prefix[i], nulls);
    assert prefix[i] == names[i];
  }

  /** One more column: typed exactly when its column is, and listed last. */
  lemma AddFieldTypeResult(p: Parsers, rows: seq<DataRow>, names: seq<string>, name: string, nulls: seq<Cell>,
                           types: Dict<string, string>, all: seq<string>)
    requires types.Valid() && TypesOf(p, rows, names, nulls, types) && AllTyped(p, rows, names, nulls) && name !in names
    requires all == names + [name]
    ensures AddFieldType(p, rows, types, name, nulls).Success? <==> AllTyped(p, rows, all, nulls)
    ensures AddFieldType(p, rows, types, name, nulls).Success? ==>
      TypesOf(p, rows, all, nulls, AddFieldType(p, rows, types, name, nulls).value)
  {
    assert forall i :: 0 <= i < |names| ==> all[i] == names[i];
    assert all[|names|] == name;
  }

  /**
   * `field_types_from_rows` succeeds exactly when there are rows and every
   * column of the first row is typed; it then maps the first row's columns,
   * in order, to their types.
   */
  lemma FieldTypesResult(p: Parsers, rows: seq<DataRow>, nullEquivalents: Option<seq<Cell>>)
    requires rows != [] ==> rows[0].Valid()
    ensures FieldTypes(p, rows, nullEquivalents).Success? <==>
      rows != [] && AllTyped(p, rows, rows[0].keys, NullsOrDefault(nullEquivalents))
    ensures FieldTypes(p, rows, nullEquivalents).Success? ==>
      TypesOf(p, rows, rows[0].keys, NullsOrDefault(nullEquivalents), FieldTypes(p, rows, nullEquivalents).value)
  {
    if rows != [] {
      FieldTypesOfResult(p, rows, rows[0].keys, NullsOrDefault(nullEquivalents));
    }
  }
}

/** A small instance of the typing of a data preview, in the shape of the healthsites data. */
module DataPreviewExamples {
  import opened Wrappers
  import opened PyDict
  import opened DataPreview
  import opened DataPreviewFacts

  /**
   * A row with a coordinate, an OpenStreetMap id and a number of beds, three
   * of the fields of the health-site rows in the test; the values used
   * below are made up for illustration.
   */
  function SiteRow(x: string, osmId: string, beds: string): (row: DataRow)
    ensures row.Valid() && row.keys == ["X", "osm_id", "beds"]
  {
    Dict(["X", "osm_id", "beds"], map["X" := Some(x), "osm_id" := Some(osmId), "beds" := Some(beds)])
  }

  /** The columns of two rows that both have the column. */
  lemma ColumnOfTwo(rows: seq<DataRow>, name: string)
    requires |rows| == 2 && name in rows[0].items && name in rows[1].items
    ensures Column(rows, name) == Success([rows[0].items[name], rows[1].items[name]])
  {
    assert forall i :: 0 <= i < |rows| ==> name in rows[i].items;
    var cells := Column(rows, name).value;
    assert |cells| == 2 && cells[0] == rows[0].items[name] && cells[1] == rows[1].items[name];
    assert cells == [rows[0].items[name], rows[1].items[name]];
  }

  lemma SiteColumns(rows: seq<DataRow>)
    requires rows == [SiteRow("-5.35", "3", ""), SiteRow("36", "7", "two")]
    ensures Column(rows, "X") == Success([Some("-5.35"), Some("36")])
    ensures Column(rows, "osm_id") == Success([Some("3"), Some("7")])
    ensures Column(rows, "beds") == Success([Some(""), Some("two")])
  {
    ColumnOfTwo(rows, "X");
    ColumnOfTwo(rows, "osm_id");
    ColumnOfTwo(rows, "beds");
  }

  /**
   * The types of three illustrative columns under the default null
   * equivalents; the cells stand for the kinds of values in the test's
   * `X`, `osm_id` and `beds` columns, not for the rows the test reads.
   */
  lemma SiteColumnTypes(p: Parsers)
    requires p.literalType("-5.35") == Some("float") && p.literalType("36") == Some("int")
    requires p.literalType("3") == Some("int") && p.literalType("7") == Some("int")
    requires p.literalType("two") == None && !p.isDate("two") && !p.isIsoDateTime("two")
    ensures FieldType(p, [Some("-5.35"), Some("36")], Some(DefaultNullEquivalents), false) == Success("float")
    ensures FieldType(p, [Some("3"), Some("7")], Some(DefaultNullEquivalents), false) == Success("integer")
    ensures FieldType(p, [Some(""), Some("two")], Some(DefaultNullEquivalents), false) == Success("string")
  {
    CoordinateType(p);
    IdType(p);
    BedsType(p);
  }

  /**
   * An illustrative coordinate column, shaped like the test's `X` column but
   * not its data: a float and an int cell make a `float` column.
   */
  lemma CoordinateType(p: Parsers)
    requires p.literalType("-5.35") == Some("float") && p.literalType("36") == Some("int")
    ensures FieldType(p, [Some("-5.35"), Some("36")], Some(DefaultNullEquivalents), false) == Success("float")
  {
    assert CellTag(p, Some("-5.35")) == "float" && CellTag(p, Some("36")) == "int";
    IntFloatColumn(p, [Some("-5.35"), Some("36")], DefaultNullEquivalents, false, 1, 0);
  }

  /**
   * An illustrative identifier column, shaped like the test's `osm_id`
   * column but not its data: int cells only make an `integer` column.
   */
  lemma IdType(p: Parsers)
    requires p.literalType("3") == Some("int") && p.literalType("7") == Some("int")
    ensures FieldType(p, [Some("3"), Some("7")], Some(DefaultNullEquivalents), false) == Success("integer")
  {
    assert CellTag(p, Some("3")) == "int" && CellTag(p, Some("7")) == "int";
    UniformColumn(p, [Some("3"), Some("7")], DefaultNullEquivalents, false, "int", 0);
  }

  /**
   * An illustrative free-text column, shaped like the test's `beds` column
   * but not its data: an empty cell is skipped and a word makes it `string`.
   */
  lemma BedsType(p: Parsers)
    requires p.literalType("two") == None && !p.isDate("two") && !p.isIsoDateTime("two")
    ensures FieldType(p, [Some(""), Some("two")], Some(DefaultNullEquivalents), false) == Success("string")
  {
    var column := [Some(""), Some("two")];
    assert CellTag(p, column[1]) == "str";
    assert column[0] in DefaultNullEquivalents && column[1] !in DefaultNullEquivalents;
    assert "str" in PythonTypeToType && PythonTypeToType["str"] == "string";
    UniformColumn(p, column, DefaultNullEquivalents, false, "str", 1);
  }

  /** A dict with three keys is the map of its three entries. */
  lemma ThreeEntries(d: Dict<string, string>, a: string, b: string, c: string)
    requires d.Valid() && d.keys == [a, b, c]
    ensures d.items == map[a := d.items[a], b := d.items[b], c := d.items[c]]
  {
  }

  /**
   * Coordinates that parse as a float and an int are `float`, ids that
   * parse as ints are `integer`, and a column of one word and one empty
   * cell is `string`.
   */
  lemma SiteTypes(p: Parsers, rows: seq<DataRow>)
    requires p.literalType("-5.35") == Some("float") && p.literalType("36") == Some("int")
    requires p.literalType("3") == Some("int") && p.literalType("7") == Some("int")
    requires p.literalType("two") == None && !p.isDate("two") && !p.isIsoDateTime("two")
    requires rows == [SiteRow("-5.35", "3", ""), SiteRow("36", "7", "two")]
    ensures FieldTypes(p, rows, None).Success?
    ensures FieldTypes(p, rows, None).value.keys == ["X", "osm_id", "beds"]
    ensures FieldTypes(p, rows, None).value.items == map["X" := "float", "osm_id" := "integer", "beds" := "string"]
  {
    SiteColumns(rows);
    SiteColumnTypes(p);
    SiteTyped(p, rows);
    var types := FieldTypes(p, rows, None).value;
    ThreeEntries(types, "X", "osm_id", "beds");
    assert "X" in types.items && "osm_id" in types.items && "beds" in types.items;
  }

  /** Every column of the rows is typed, so the typing succeeds. */
  lemma SiteTyped(p: Parsers, rows: seq<DataRow>)
    requires rows != [] && rows[0].Valid() && rows[0].keys == ["X", "osm_id", "beds"]
    requires ColumnTyped(p, rows, "X", DefaultNullEquivalents)
    requires ColumnTyped(p, rows, "osm_id", DefaultNullEquivalents)
    requires ColumnTyped(p, rows, "beds", DefaultNullEquivalents)
    ensures FieldTypes(p, rows, None).Success?
    ensures FieldTypes(p, rows, None).value.Valid()
    ensures TypesOf(p, rows, ["X", "osm_id", "beds"], DefaultNullEquivalents, FieldTypes(p, rows, None).value)
  {
    FieldTypesResult(p, rows, None);
    assert AllTyped(p, rows, rows[0].keys, DefaultNullEquivalents);
  }
}
