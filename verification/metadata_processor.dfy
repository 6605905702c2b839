/**
 * The summarisers of metadata_processor.py, over metadata that has already
 * been read and decoded: the change lines kept for each resource, the
 * schemas grouped by header hash, and the rows shown for one schema.
 *
 * Dictionaries the source indexes with fixed keys are datatypes here; the
 * dictionaries it builds up keyed by resource name or header hash are
 * insertion-ordered `Dict`s.  Metadata the source would fail on with a
 * KeyError or IndexError (an empty `fs_check_info` list, a completed check
 * without sheets, a sheet change without changed fields) is excluded by a
 * precondition.
 */
module MetadataProcessor {
  import opened Wrappers
  import opened PyDict
  import opened Text
  import Utilities

  /** The message of a file structure check that ran to the end. */
  const CompletedMessage := "File structure check completed"

  /** What `summarise_schema` prints for a resource whose last check did not complete. */
  const NotCompletedError := "Error, final fs_check_info is not 'File structure check completed'"

  /** An entry of `changed_fields`. */
  datatype FieldChange = FieldChange(field: string)

  /** An entry of `sheet_changes`. */
  datatype SheetChange = SheetChange(changedFields: seq<FieldChange>)

  /** An entry of `hxl_proxy_response.sheets`. */
  datatype Sheet = Sheet(headerHash: string, headers: seq<string>, hxlHeaders: seq<string>)

  /** One file structure check of a resource's `fs_check_info` history. */
  datatype Check = Check(message: string, timestamp: string, sheetChanges: seq<SheetChange>, sheets: seq<Sheet>)

  /** A resource of `metadata["result"]["resources"]`; `fs_check_info` may be absent. */
  datatype Resource = Resource(name: string, fsCheckInfo: Option<seq<Check>>)

  /** A value of the dictionary `summarise_schema` returns. */
  datatype Schema = Schema(sharedWith: seq<string>, headers: seq<string>, hxlHeaders: seq<string>)

  predicate IsComplete(c: Check) {
    c.message == CompletedMessage
  }

  /** `timestamp[0:10]`: the first ten characters, or all of a shorter string. */
  function Day(timestamp: string): (d: string)
    ensures |d| == if |timestamp| < 10 then |timestamp| else 10
    ensures d == timestamp[..|d|]
  {
    if |timestamp| <= 10 then timestamp else timestamp[..10]
  }

  /** The first changed field of the first sheet change exists whenever there is a sheet change. */
  predicate Annotatable(c: Check) {
    c.sheetChanges != [] ==> c.sheetChanges[0].changedFields != []
  }

  /** Every completed check in the history can be summarised. */
  predicate HistoryDefined(h: seq<Check>) {
    forall i :: 0 <= i < |h| ==> IsComplete(h[i]) ==> Annotatable(h[i])
  }

  predicate ChangesDefined(resources: seq<Resource>) {
    forall i :: 0 <= i < |resources| ==> resources[i].fsCheckInfo.Some? ==> HistoryDefined(resources[i].fsCheckInfo.value)
  }

  /**
   * The change indicator of a completed check: its day, then, when the check
   * saw sheet changes, `* `, their number and the first changed field.
   */
  function ChangeLine(c: Check): (line: string)
    requires Annotatable(c)
    ensures |Day(c.timestamp)| <= |line| && line[..|Day(c.timestamp)|] == Day(c.timestamp)
    ensures |line| == |Day(c.timestamp)| <==> c.sheetChanges == []
  {
    var day := Day(c.timestamp);
    if |c.sheetChanges| != 0 then
      day + "* " + Decimal(|c.sheetChanges|) + " " + c.sheetChanges[0].changedFields[0].field
    else
      day
  }

  /** The completed checks of a history, in order. */
  function CompletedChecks(h: seq<Check>): (done: seq<Check>)
    ensures |done| <= |h|
    ensures forall i :: 0 <= i < |done| ==> IsComplete(done[i])
    ensures HistoryDefined(h) ==> forall i :: 0 <= i < |done| ==> Annotatable(done[i])
  {
    if h == [] then []
    else
      var n := |h| - 1;
      assert HistoryDefined(h) ==> HistoryDefined(h[..n]);
      CompletedChecks(h[..n]) + (if IsComplete(h[n]) then [h[n]] else [])
  }

  /** The `checks` list built for one history: a line for each completed check. */
  function ChangeLines(h: seq<Check>): (lines: seq<string>)
    requires HistoryDefined(h)
    ensures |lines| <= |h|
  {
    if h == [] then []
    else
      var n := |h| - 1;
      assert HistoryDefined(h[..n]);
      ChangeLines(h[..n]) + (if IsComplete(h[n]) then [ChangeLine(h[n])] else [])
  }

  lemma ChangeLinesStep(h: seq<Check>, j: nat)
    requires HistoryDefined(h) && j < |h|
    ensures HistoryDefined(h[..j]) && HistoryDefined(h[..j + 1])
    ensures ChangeLines(h[..j + 1]) == ChangeLines(h[..j]) + (if IsComplete(h[j]) then [ChangeLine(h[j])] else [])
  {
    assert h[..j + 1][..j] == h[..j];
  }

  /** The `checks` list of a resource; empty without `fs_check_info`. */
  function ResourceLines(r: Resource): seq<string>
    requires r.fsCheckInfo.Some? ==> HistoryDefined(r.fsCheckInfo.value)
  {
    match r.fsCheckInfo
    case None => []
    case Some(h) => ChangeLines(h)
  }

  /** The dictionary `summarise_resource_changes` returns, each value's `checks` list standing for it. */
  function ResourceChanges(resources: seq<Resource>): (d: Dict<string, seq<string>>)
    requires ChangesDefined(resources)
    ensures d.Valid()
    ensures |d.keys| <= |resources|
  {
    if resources == [] then Empty()
    else
      var n := |resources| - 1;
      assert ChangesDefined(resources[..n]);
      ResourceChanges(resources[..n]).Put(resources[n].name, ResourceLines(resources[n]))
  }

  lemma ResourceChangesStep(resources: seq<Resource>, i: nat)
    requires ChangesDefined(resources) && i < |resources|
    ensures ChangesDefined(resources[..i]) && ChangesDefined(resources[..i + 1])
    ensures ResourceChanges(resources[..i + 1])
         == ResourceChanges(resources[..i]).Put(resources[i].name, ResourceLines(resources[i]))
  {
    assert resources[..i + 1][..i] == resources[..i];
  }

  /**
   * The inner loop of `summarise_resource_changes`: the line of each
   * completed check of `h` appended to the `checks` list of `name`, which
   * starts empty.
   */
  method ExtendChecks(changes: Dict<string, seq<string>>, name: string, h: seq<Check>)
    returns (extended: Dict<string, seq<string>>)
    requires changes.Valid() && name in changes.items && changes.items[name] == []
    requires HistoryDefined(h)
    ensures extended == changes.Put(name, ChangeLines(h))
  {
    extended := changes;
    PutTwice(changes, name, [], []);
    assert changes.Put(name, []) == changes;
    for j := 0 to |h|
      invariant HistoryDefined(h[..j])
      invariant extended == changes.Put(name, ChangeLines(h[..j]))
    {
      ChangeLinesStep(h, j);
      if h[j].message == CompletedMessage {
        var line := ChangeLine(h[j]);
        PutTwice(changes, name, ChangeLines(h[..j]), ChangeLines(h[..j]) + [line]);
        assert extended.items[name] == ChangeLines(h[..j]);
        extended := extended.Put(name, extended.items[name] + [line]);
        assert extended == changes.Put(name, ChangeLines(h[..j]) + [line]);
        assert ChangeLines(h[..j + 1]) == ChangeLines(h[..j]) + [line];
      } else {
        assert ChangeLines(h[..j + 1]) == ChangeLines(h[..j]);
      }
    }
    assert h[..|h|] == h;
  }

  /** `summarise_resource_changes` */
  method SummariseResourceChanges(resources: seq<Resource>) returns (changes: Dict<string, seq<string>>)
    requires ChangesDefined(resources)
    ensures changes == ResourceChanges(resources)
  {
    changes := Empty();
    for i := 0 to |resources|
      invariant ChangesDefined(resources[..i])
      invariant changes == ResourceChanges(resources[..i])
    {
      ResourceChangesStep(resources, i);
      var resource := resources[i];
      changes := changes.Put(resource.name, []);
      if resource.fsCheckInfo.Some? {
        changes := ExtendChecks(changes, resource.name, resource.fsCheckInfo.value);
      }
      PutTwice(ResourceChanges(resources[..i]), resource.name, [], ResourceLines(resource));
    }
    assert resources[..|resources|] == resources;
  }

  /** The last check exists, and when it completed it has a first sheet. */
  predicate SchemaDefined(r: Resource) {
    r.fsCheckInfo.Some? ==>
      && r.fsCheckInfo.value != []
      && (IsComplete(Last(r.fsCheckInfo.value)) ==> Last(r.fsCheckInfo.value).sheets != [])
  }

  predicate SchemasDefined(resources: seq<Resource>) {
    forall i :: 0 <= i < |resources| ==> SchemaDefined(resources[i])
  }

  /** `fs_check_info[-1]` */
  function Last(h: seq<Check>): Check
    requires h != []
  {
    h[|h| - 1]
  }

  /** The resource has a history whose last check completed. */
  predicate Contributes(r: Resource)
    requires SchemaDefined(r)
  {
    r.fsCheckInfo.Some? && IsComplete(Last(r.fsCheckInfo.value))
  }

  /** The resource has a history whose last check did not complete: only an error is printed. */
  predicate Skipped(r: Resource)
    requires SchemaDefined(r)
  {
    r.fsCheckInfo.Some? && !IsComplete(Last(r.fsCheckInfo.value))
  }

  /** `hxl_proxy_response["sheets"][0]` of the last check. */
  function FirstSheet(r: Resource): Sheet
    requires SchemaDefined(r) && Contributes(r)
  {
    Last(r.fsCheckInfo.value).sheets[0]
  }

  /** One iteration of `summarise_schema`'s loop. */
  function AddResource(schemas: Dict<string, Schema>, r: Resource): (d: Dict<string, Schema>)
    requires schemas.Valid() && SchemaDefined(r)
    ensures d.Valid()
    ensures schemas.keys <= d.keys && |d.keys| <= |schemas.keys| + 1
  {
    if !Contributes(r) then schemas
    else
      var sheet := FirstSheet(r);
      if sheet.headerHash !in schemas.items then
        schemas.Put(sheet.headerHash, Schema([r.name], sheet.headers, sheet.hxlHeaders))
      else
        var s := schemas.items[sheet.headerHash];
        schemas.Put(sheet.headerHash, s.(sharedWith := s.sharedWith + [r.name]))
  }

  /** The dictionary `summarise_schema` returns. */
  function Schemas(resources: seq<Resource>): (d: Dict<string, Schema>)
    requires SchemasDefined(resources)
    ensures d.Valid()
    ensures |d.keys| <= |resources|
  {
    if resources == [] then Empty()
    else
      var n := |resources| - 1;
      assert SchemasDefined(resources[..n]);
      AddResource(Schemas(resources[..n]), resources[n])
  }

  /** How many resources `summarise_schema` prints an error for. */
  function SkippedCount(resources: seq<Resource>): nat
    requires SchemasDefined(resources)
  {
    if resources == [] then 0
    else
      var n := |resources| - 1;
      assert SchemasDefined(resources[..n]);
      SkippedCount(resources[..n]) + (if Skipped(resources[n]) then 1 else 0)
  }

  lemma SchemasStep(resources: seq<Resource>, i: nat)
    requires SchemasDefined(resources) && i < |resources|
    ensures SchemasDefined(resources[..i]) && SchemasDefined(resources[..i + 1])
    ensures Schemas(resources[..i + 1]) == AddResource(Schemas(resources[..i]), resources[i])
    ensures SkippedCount(resources[..i + 1]) == SkippedCount(resources[..i]) + (if Skipped(resources[i]) then 1 else 0)
  {
    assert resources[..i + 1][..i] == resources[..i];
  }

  /**
   * `summarise_schema`, with the error lines it prints.  A resource without
   * `fs_check_info` is passed over silently.
   */
  method SummariseSchema(resources: seq<Resource>) returns (schemas: Dict<string, Schema>, printed: seq<string>)
    requires SchemasDefined(resources)
    ensures schemas == Schemas(resources)
    ensures printed == seq(SkippedCount(resources), _ => NotCompletedError)
  {
    schemas := Empty();
    printed := [];
    for i := 0 to |resources|
      invariant SchemasDefined(resources[..i])
      invariant schemas == Schemas(resources[..i])
      invariant printed == seq(SkippedCount(resources[..i]), _ => NotCompletedError)
    {
      SchemasStep(resources, i);
      var resource := resources[i];
      if resource.fsCheckInfo.Some? {
        var h := resource.fsCheckInfo.value;
        var check := h[|h| - 1];
        if check.message == CompletedMessage {
          var sheet := check.sheets[0];
          if sheet.headerHash !in schemas.items {
            schemas := schemas.Put(sheet.headerHash, Schema([resource.name], sheet.headers, sheet.hxlHeaders));
          } else {
            var s := schemas.items[sheet.headerHash];
            schemas := schemas.Put(sheet.headerHash, s.(sharedWith := s.sharedWith + [resource.name]));
          }
        } else {
          printed := printed + [NotCompletedError];
        }
      }
    }
    assert resources[..|resources|] == resources;
  }

  /** The keys of `row_template`, in order. */
  const RowKeys: seq<string> := ["Column", "Type", "Label", "Description"]

  /** `row_template`: every key mapped to the empty string. */
  function RowTemplate(): (row: Utilities.Row)
    ensures row.Valid() && row.keys == RowKeys
    ensures forall k :: k in row.items ==> row.items[k] == ""
  {
    assert |RowKeys[0]| == 6 && |RowKeys[1]| == 4 && |RowKeys[2]| == 5 && |RowKeys[3]| == 11;
    Dict(RowKeys, map k | k in RowKeys :: "")
  }

  /** `row_template.copy()` with `Column` and `Label` set. */
  function SchemaRow(header: string, hxlHeader: string): (row: Utilities.Row)
    ensures row.Valid() && row.keys == RowKeys
    ensures row.items["Column"] == header && row.items["Label"] == hxlHeader
    ensures row.items["Type"] == "" && row.items["Description"] == ""
  {
    var template := RowTemplate();
    assert RowKeys[0] == "Column" && RowKeys[1] == "Type" && RowKeys[2] == "Label" && RowKeys[3] == "Description";
    assert |"Column"| != |"Label"| && |"Type"| != |"Label"| && |"Description"| != |"Label"|;
    assert |"Column"| != |"Type"| && |"Column"| != |"Description"|;
    template.Put("Column", header).Put("Label", hxlHeader)
  }

  /** Rows with the template's keys always have every field a table of them shows. */
  lemma TemplateRowsLayout(rows: seq<Utilities.Row>)
    requires forall i :: 0 <= i < |rows| ==> rows[i].Valid() && rows[i].keys == RowKeys
    ensures Utilities.LayoutDefined(rows, None)
  {
    if rows != [] {
      forall i, j | 0 <= i < |rows| && 0 <= j < |RowKeys|
        ensures RowKeys[j] in rows[i].items
      {
        assert RowKeys[j] in rows[i].keys;
      }
    }
  }

  /** The loop of `print_schema`: a row from each pair of `zip(headers, hxl_headers)`. */
  method SchemaRows(schema: Schema) returns (rows: seq<Utilities.Row>)
    ensures |rows| == if |schema.headers| < |schema.hxlHeaders| then |schema.headers| else |schema.hxlHeaders|
    ensures forall i :: 0 <= i < |rows| ==> rows[i] == SchemaRow(schema.headers[i], schema.hxlHeaders[i])
  {
    var n := if |schema.headers| < |schema.hxlHeaders| then |schema.headers| else |schema.hxlHeaders|;
    rows := [];
    for i := 0 to n
      invariant |rows| == i
      invariant forall t :: 0 <= t < i ==> rows[t] == SchemaRow(schema.headers[t], schema.hxlHeaders[t])
    {
      var row := SchemaRow(schema.headers[i], schema.hxlHeaders[i]);
      rows := rows + [row];
    }
  }

  /**
   * `print_schema`: the rows, and the table printed from them at the
   * default widths.
   */
  method PrintSchema(schema: Schema) returns (rows: seq<Utilities.Row>, table: Utilities.Table)
    ensures |rows| == if |schema.headers| < |schema.hxlHeaders| then |schema.headers| else |schema.hxlHeaders|
    ensures forall i :: 0 <= i < |rows| ==> rows[i] == SchemaRow(schema.headers[i], schema.hxlHeaders[i])
    ensures Utilities.LayoutDefined(rows, None)
    ensures table == Utilities.Layout(rows, None, None, 130, 150)
  {
    rows := SchemaRows(schema);
    TemplateRowsLayout(rows);
    table := Utilities.PrintTable(rows, None, None, 130, 150);
  }
}

/** What the summarisers promise about the lines, keys and schemas they build. */
module MetadataFacts {
  import opened Wrappers
  import opened PyDict
  import opened Text
  import opened MetadataProcessor

  /** The change lines are those of the completed checks, one each, in history order. */
  lemma {:induction false} ChangeLinesOfCompleted(h: seq<Check>)
    requires HistoryDefined(h)
    ensures |ChangeLines(h)| == |CompletedChecks(h)|
    ensures forall i :: 0 <= i < |CompletedChecks(h)| ==> ChangeLines(h)[i] == ChangeLine(CompletedChecks(h)[i])
  {
    if h != [] {
      var n := |h| - 1;
      assert HistoryDefined(h[..n]);
      ChangeLinesOfCompleted(h[..n]);
    }
  }

  /**
   * With sheet changes, the day is followed by `* `, the number of sheet
   * changes in decimal (which reads back as that number), a space and the
   * first changed field of the first sheet change.
   */
  lemma ChangeLineAnnotation(c: Check)
    requires Annotatable(c) && c.sheetChanges != []
    ensures var d := |Day(c.timestamp)|;
      var count := Decimal(|c.sheetChanges|);
      var field := c.sheetChanges[0].changedFields[0].field;
      var line := ChangeLine(c);
      && |line| == d + 3 + |count| + |field|
      && line[d..d + 2] == "* "
      && line[d + 2..d + 2 + |count|] == count
      && ParseDecimal(line[d + 2..d + 2 + |count|]) == |c.sheetChanges|
      && line[d + 2 + |count|] == ' '
      && line[d + 3 + |count|..] == field
  {
    var count := Decimal(|c.sheetChanges|);
    DecimalRoundTrip(|c.sheetChanges|);
    var d := |Day(c.timestamp)|;
    var line := ChangeLine(c);
    assert line == Day(c.timestamp) + "* " + count + " " + c.sheetChanges[0].changedFields[0].field;
    assert line[d + 2..d + 2 + |count|] == count;
  }

  /** Every resource name, and nothing else, is a key of the summary. */
  lemma {:induction false} ResourceChangesKeys(resources: seq<Resource>)
    requires ChangesDefined(resources)
    ensures forall k :: k in ResourceChanges(resources).items <==> exists i :: 0 <= i < |resources| && resources[i].name == k
  {
    if resources != [] {
      var n := |resources| - 1;
      assert ChangesDefined(resources[..n]);
      ResourceChangesKeys(resources[..n]);
      forall k | k in ResourceChanges(resources).items
        ensures exists i :: 0 <= i < |resources| && resources[i].name == k
      {
        if k != resources[n].name {
          var i :| 0 <= i < n && resources[..n][i].name == k;
          assert resources[i].name == k;
        }
      }
      forall k | exists i :: 0 <= i < |resources| && resources[i].name == k
        ensures k in ResourceChanges(resources).items
      {
        var i :| 0 <= i < |resources| && resources[i].name == k;
        if i < n {
          assert resources[..n][i].name == k;
        }
      }
    }
  }

  /**
   * A resource's entry is its own `checks` list when no later resource has
   * its name: a later resource with the same name overwrites the entry.
   */
  lemma {:induction false} ResourceChangesLastWins(resources: seq<Resource>, i: nat)
    requires ChangesDefined(resources) && i < |resources|
    requires forall j :: i < j < |resources| ==> resources[j].name != resources[i].name
    ensures resources[i].name in ResourceChanges(resources).items
    ensures ResourceChanges(resources).items[resources[i].name] == ResourceLines(resources[i])
  {
    var n := |resources| - 1;
    assert ChangesDefined(resources[..n]);
    if i < n {
      assert resources[..n][i] == resources[i];
      ResourceChangesLastWins(resources[..n], i);
    }
  }

  /** The resource names in the order they first occur, each once. */
  function NameOrder(resources: seq<Resource>): seq<string> {
    if resources == [] then []
    else
      var n := |resources| - 1;
      var names := NameOrder(resources[..n]);
      if resources[n].name in names then names else names + [resources[n].name]
  }

  /**
   * The summary lists the resources in the order their names first occur:
   * a later resource with a name already seen replaces the entry in place.
   */
  lemma {:induction false} ResourceChangesOrder(resources: seq<Resource>)
    requires ChangesDefined(resources)
    ensures ResourceChanges(resources).keys == NameOrder(resources)
  {
    if resources != [] {
      var n := |resources| - 1;
      assert ChangesDefined(resources[..n]);
      ResourceChangesOrder(resources[..n]);
    }
  }

  /** The resource contributes a schema under hash `k`. */
  predicate HasHash(r: Resource, k: string) {
    SchemaDefined(r) && Contributes(r) && FirstSheet(r).headerHash == k
  }

  /** The names of the contributing resources with hash `k`, in resource order. */
  function NamesWithHash(resources: seq<Resource>, k: string): seq<string>
  {
    if resources == [] then []
    else
      var n := |resources| - 1;
      NamesWithHash(resources[..n], k) + (if HasHash(resources[n], k) then [resources[n].name] else [])
  }

  /** How many resources contribute to some schema. */
  function ContributingCount(resources: seq<Resource>): nat
    requires SchemasDefined(resources)
  {
    if resources == [] then 0
    else
      var n := |resources| - 1;
      assert SchemasDefined(resources[..n]);
      ContributingCount(resources[..n]) + (if Contributes(resources[n]) then 1 else 0)
  }

  /** The total length of the `shared_with` lists of the schemas under `keys`. */
  function SumShared(keys: seq<string>, schemas: map<string, Schema>): nat
    requires forall k :: k in keys ==> k in schemas
  {
    if keys == [] then 0
    else
      var n := |keys| - 1;
      SumShared(keys[..n], schemas) + |schemas[keys[n]].sharedWith|
  }

  /** The schema hashes are exactly the hashes of the contributing resources. */
  lemma {:induction false} SchemaKeys(resources: seq<Resource>)
    requires SchemasDefined(resources)
    ensures forall k :: k in Schemas(resources).items <==> exists i :: 0 <= i < |resources| && HasHash(resources[i], k)
  {
    if resources != [] {
      var n := |resources| - 1;
      var prefix := resources[..n];
      assert SchemasDefined(prefix);
      SchemaKeys(prefix);
      forall k | k in Schemas(resources).items
        ensures exists i :: 0 <= i < |resources| && HasHash(resources[i], k)
      {
        if !HasHash(resources[n], k) {
          assert k in Schemas(prefix).items;
          var i :| 0 <= i < n && HasHash(prefix[i], k);
          assert prefix[i] == resources[i];
        }
      }
      forall k | exists i :: 0 <= i < |resources| && HasHash(resources[i], k)
        ensures k in Schemas(resources).items
      {
        var i :| 0 <= i < |resources| && HasHash(resources[i], k);
        if i < n {
          assert prefix[i] == resources[i];
        }
      }
    }
  }

  /** The hashes of the contributing resources in the order they first occur, each once. */
  function HashOrder(resources: seq<Resource>): seq<string>
    requires SchemasDefined(resources)
  {
    if resources == [] then []
    else
      var n := |resources| - 1;
      assert SchemasDefined(resources[..n]);
      var hashes := HashOrder(resources[..n]);
      var r := resources[n];
      if Contributes(r) && FirstSheet(r).headerHash !in hashes then hashes + [FirstSheet(r).headerHash] else hashes
  }

  /**
   * The schemas are listed in the order their hashes first occur among the
   * contributing resources; a resource sharing a hash does not move it.
   */
  lemma {:induction false} SchemasOrder(resources: seq<Resource>)
    requires SchemasDefined(resources)
    ensures Schemas(resources).keys == HashOrder(resources)
  {
    if resources != [] {
      var n := |resources| - 1;
      assert SchemasDefined(resources[..n]);
      SchemasOrder(resources[..n]);
    }
  }

  /**
   * Each schema's `shared_with` lists the contributing resources with its
   * hash, in resource order; a hash no resource contributes lists nobody.
   */
  lemma {:induction false} SharedWithMembers(resources: seq<Resource>)
    requires SchemasDefined(resources)
    ensures forall k :: k in Schemas(resources).items ==> Schemas(resources).items[k].sharedWith == NamesWithHash(resources, k)
    ensures forall k :: k !in Schemas(resources).items ==> NamesWithHash(resources, k) == []
  {
    if resources != [] {
      var n := |resources| - 1;
      var prefix := resources[..n];
      assert SchemasDefined(prefix);
      SharedWithMembers(prefix);
      assert forall k :: (NamesWithHash(resources, k)
        == NamesWithHash(prefix, k) + (if HasHash(resources[n], k) then [resources[n].name] else []));
    }
  }

  /**
   * The `headers` and `hxl_headers` of a schema are those of the first
   * resource that contributed its hash; later ones leave them alone.
   */
  lemma {:induction false} HeadersFromFirst(resources: seq<Resource>, i: nat)
    requires SchemasDefined(resources) && i < |resources| && Contributes(resources[i])
    requires forall j :: 0 <= j < i ==> !HasHash(resources[j], FirstSheet(resources[i]).headerHash)
    ensures FirstSheet(resources[i]).headerHash in Schemas(resources).items
    ensures Schemas(resources).items[FirstSheet(resources[i]).headerHash].headers == FirstSheet(resources[i]).headers
    ensures Schemas(resources).items[FirstSheet(resources[i]).headerHash].hxlHeaders == FirstSheet(resources[i]).hxlHeaders
  {
    var n := |resources| - 1;
    var prefix := resources[..n];
    assert SchemasDefined(prefix);
    var k := FirstSheet(resources[i]).headerHash;
    assert Schemas(resources) == AddResource(Schemas(prefix), resources[n]);
    if i == n {
      SchemaKeys(prefix);
      assert k !in Schemas(prefix).items by {
        forall j | 0 <= j < n
          ensures !HasHash(prefix[j], k)
        {
          assert prefix[j] == resources[j];
        }
      }
      AddResourceNewHash(Schemas(prefix), resources[n]);
    } else {
      assert prefix[i] == resources[i];
      HeadersFromFirst(prefix, i);
      AddResourceKeepsHeaders(Schemas(prefix), resources[n], k);
    }
  }

  /** A resource with a new hash starts a schema with its first sheet's headers. */
  lemma AddResourceNewHash(schemas: Dict<string, Schema>, r: Resource)
    requires schemas.Valid() && SchemaDefined(r) && Contributes(r) && FirstSheet(r).headerHash !in schemas.items
    ensures var k := FirstSheet(r).headerHash;
      && k in AddResource(schemas, r).items
      && AddResource(schemas, r).items[k].headers == FirstSheet(r).headers
      && AddResource(schemas, r).items[k].hxlHeaders == FirstSheet(r).hxlHeaders
  {
  }

  /** Adding a resource leaves the headers of every existing schema alone. */
  lemma AddResourceKeepsHeaders(schemas: Dict<string, Schema>, r: Resource, k: string)
    requires schemas.Valid() && SchemaDefined(r) && k in schemas.items
    ensures k in AddResource(schemas, r).items
    ensures AddResource(schemas, r).items[k].headers == schemas.items[k].headers
    ensures AddResource(schemas, r).items[k].hxlHeaders == schemas.items[k].hxlHeaders
  {
  }

  lemma {:induction false} SumSharedAppend(keys: seq<string>, schemas: map<string, Schema>, k: string)
    requires forall key :: key in keys ==> key in schemas
    requires k in schemas
    ensures SumShared(keys + [k], schemas) == SumShared(keys, schemas) + |schemas[k].sharedWith|
  {
    assert (keys + [k])[..|keys|] == keys;
  }

  lemma {:induction false} SumSharedFresh(keys: seq<string>, schemas: map<string, Schema>, k: string, s: Schema)
    requires forall key :: key in keys ==> key in schemas
    requires k !in keys
    ensures SumShared(keys, schemas[k := s]) == SumShared(keys, schemas)
  {
    if keys != [] {
      SumSharedFresh(keys[..|keys| - 1], schemas, k, s);
    }
  }

  lemma {:induction false} SumSharedReplace(keys: seq<string>, schemas: map<string, Schema>, k: string, s: Schema)
    requires forall key :: key in keys ==> key in schemas
    requires Distinct(keys) && k in keys
    ensures SumShared(keys, schemas[k := s]) + |schemas[k].sharedWith| == SumShared(keys, schemas) + |s.sharedWith|
  {
    var n := |keys| - 1;
    var prefix := keys[..n];
    if keys[n] == k {
      assert k !in prefix;
      SumSharedFresh(prefix, schemas, k, s);
    } else {
      assert k in prefix;
      SumSharedReplace(prefix, schemas, k, s);
    }
  }

  /**
   * Each contributing resource's name goes to exactly one `shared_with`
   * list, so together the lists are as long as the contributing resources
   * are many.
   */
  lemma {:induction false} SharedTotal(resources: seq<Resource>)
    requires SchemasDefined(resources)
    ensures SumShared(Schemas(resources).keys, Schemas(resources).items) == ContributingCount(resources)
  {
    if resources != [] {
      var n := |resources| - 1;
      var prefix := resources[..n];
      assert SchemasDefined(prefix);
      SharedTotal(prefix);
      var before := Schemas(prefix);
      var r := resources[n];
      if Contributes(r) {
        var sheet := FirstSheet(r);
        var k := sheet.headerHash;
        if k !in before.items {
          var s := Schema([r.name], sheet.headers, sheet.hxlHeaders);
          SumSharedFresh(before.keys, before.items, k, s);
          SumSharedAppend(before.keys, before.items[k := s], k);
        } else {
          var old_ := before.items[k];
          SumSharedReplace(before.keys, before.items, k, old_.(sharedWith := old_.sharedWith + [r.name]));
        }
      }
    }
  }

  /**
   * A name is not checked against those already listed: the same resource
   * twice is listed twice.
   */
  lemma RepeatedNameListedTwice(r: Resource)
    requires SchemaDefined(r) && Contributes(r)
    ensures FirstSheet(r).headerHash in Schemas([r, r]).items
    ensures Schemas([r, r]).items[FirstSheet(r).headerHash].sharedWith == [r.name, r.name]
  {
    var k := FirstSheet(r).headerHash;
    assert [r, r][..1] == [r] && [r][..0] == [];
    var none: seq<Resource> := [];
    assert Schemas(none) == Empty();
    var one := Schemas([r]);
    assert one == AddResource(Schemas(none), r);
    assert k in one.items && one.items[k].sharedWith == [r.name];
  }
}
