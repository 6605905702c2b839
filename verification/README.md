# hdx-stable-schema: summarisers, type inference and table layout in Dafny

This project models the in-memory logic of hdx-stable-schema, a tool that
describes the schemas of datasets published on the Humanitarian Data
Exchange (HDX). It covers three parts:

- **Metadata summarisers** (`metadata_processor.py`), working on dataset
  metadata that has already been decoded:
  - `summarise_resource_changes` keeps one line per completed file
    structure check of each resource.
  - `summarise_schema` groups resources by the header hash of the first
    sheet of their last check.
  - `print_schema` builds one table row per header and HXL hashtag.
- **Column type inference** (`data_preview.py`):
  - `field_type_from_column` skips the null-equivalent cells and tags
    every other cell: a Python literal's type, else a `%Y-%m-%d` date,
    else an ISO date-time, else `str`.
  - It counts the tags in a `Counter` and turns the counts into one column
    type. A mix of ints and floats gives `float`. In strict mode, any
    other mix gives `string`. Otherwise the most frequent tag wins, and a
    tie goes to the tag met first.
  - `field_types_from_rows` types every column of the first row.
- **Terminal layout** (`utilities.py`). What would be written to the
  terminal is returned as a list of lines:
  - `print_table_from_list_of_dicts` computes column widths, a total
    width and the lines of the table.
  - `print_list` writes items in fixed-width columns.
  - `print_banner` draws a box of asterisks.

Python's `dict` is `PyDict.Dict`: a map plus the sequence of its keys in
insertion order. Each loop of the source is a Dafny `method` with loop
invariants. Most methods are proved equal to a recursive specification
function, and the properties are lemmas about those functions. The rest
are characterised directly by their contracts:
- `PrintList` by the predicate `ListLines` (line count, line lengths and
  the concatenated text);
- `WriteItems` by `ListShape`;
- `PrintBanner` by `Banner`;
- `SchemaRows` by per-index `ensures`.

`ClassifyCell`, the body of the counting loop, is proved equal to
`CellTag`. Python exceptions the source raises on data it reads are
modelled as results:
- `KeyError` for a missing column or for a type tag without an entry in
  `python_type_to_type`;
- `IndexError` for no rows, or for a column whose `Counter` is empty;
- `ValueError` and `ZeroDivisionError` in `print_list`.

Metadata whose structure the code takes for granted is required by
preconditions. That covers an empty `fs_check_info`, a completed check
without sheets, and a sheet change without changed fields. For the same
reason, the table printer requires every row to hold every printed field
(`Utilities.LayoutDefined`), as both of its callers ensure.

Files:
- `wrappers.dfy`: `Option` and `Result`.
- `pydict.dfy`: the insertion-ordered dictionary.
- `text.dfy`: the string formatting the source relies on.
- `utilities.dfy`, `metadata_processor.dfy` and `data_preview.dfy`: one
  file per source file. Each holds the model, its facts and small
  examples that follow the repository's unit tests.

Where the code and its documented intent differ, the model follows the
code:
- The int+float merge is tested before the strict check, so a column of
  only ints and floats is `float` even in strict mode.
- `shared_with` is appended to without checking for names already listed.
  A resource listed twice is named twice (`MetadataFacts.RepeatedNameListedTwice`).

## Model

| member | source | states |
|---|---|---|
| PyDict.PutTwice | src/hdx_stable_schema/utilities.py:54-56 | assigning a key twice leaves the second value, and the key keeps its first position |
| PyDict.KeysCount | src/hdx_stable_schema/data_preview.py:150 | `len(d)` equals the number of keys listed, so a dict with one key listed has one entry |
| Text.Repeat | src/hdx_stable_schema/utilities.py:77 | `c * n` has n characters when n is positive, none otherwise, each of them c |
| Text.Ljust | src/hdx_stable_schema/utilities.py:119-120 | left-justifying pads with spaces to the width and never cuts the text |
| Text.Fit | src/hdx_stable_schema/utilities.py:82 | `{s:<w.w}` is exactly w characters: the text's first characters, then spaces |
| Text.Decimal | src/hdx_stable_schema/metadata_processor.py:37 | `str(n)` is a non-empty run of decimal digits without a leading zero |
| Text.DecimalRoundTrip | src/hdx_stable_schema/metadata_processor.py:37 | the written count reads back as the count |
| Utilities.MaxLength | src/hdx_stable_schema/utilities.py:50-52 | the longest of the field name and the field's values: no shorter than any, and equal to one of them |
| Utilities.ColumnWidth | src/hdx_stable_schema/utilities.py:52-56 | a width is at most `truncate_width + 1`; it is `truncate_width` or longer than the name and every value |
| Utilities.Widths | src/hdx_stable_schema/utilities.py:48-56 | the width dictionary has an entry for exactly the included fields |
| Utilities.LongestValue | src/hdx_stable_schema/utilities.py:50-52 | the loop over the rows finds the longest length |
| Utilities.ComputeWidths | src/hdx_stable_schema/utilities.py:48-56 | the loop that assigns and overwrites each field's width produces the width dictionary |
| Utilities.SumShownAtMost | src/hdx_stable_schema/utilities.py:61-64 | excluding columns can only lower the sum of the shown widths |
| Utilities.TotalWidth | src/hdx_stable_schema/utilities.py:61-65 | `total_width` counts one for every width entry, excluded or not, and is at most the width with nothing excluded |
| Utilities.Layout | src/hdx_stable_schema/utilities.py:34-97 | no rows gives exactly the empty result; a too-wide verdict carries a total above the maximum and at least the column count minus one |
| Utilities.RenderLine | src/hdx_stable_schema/utilities.py:79-83 | a line is the fitted cells of the fields that are not excluded, then a closing bar |
| Utilities.RenderRows | src/hdx_stable_schema/utilities.py:86-93 | one line per row, in row order |
| Utilities.PrintTable | src/hdx_stable_schema/utilities.py:34-97 | what is returned and printed: nothing for no rows; the widths and no table when too wide; otherwise rule, header, rule, rows, rule |
| UtilitiesFacts.WidthsValues | src/hdx_stable_schema/utilities.py:49-56 | every entry of the width dictionary is its column's width, so every width is at most `truncate_width + 1` |
| UtilitiesFacts.WidthsKeys | src/hdx_stable_schema/utilities.py:45-54 | with no field repeated, the width dictionary's keys are the included fields in order |
| UtilitiesFacts.CellsLength | src/hdx_stable_schema/utilities.py:79-83 | a line's cells take the shown widths plus one bar per field |
| UtilitiesFacts.LayoutWidths | src/hdx_stable_schema/utilities.py:34-75 | empty input returns None; otherwise the widths are returned whether or not the table fits, keyed by the first row's keys by default; too wide exactly when the total exceeds the maximum |
| UtilitiesFacts.RowLinesLength | src/hdx_stable_schema/utilities.py:86-93 | every data line is as long as the header line |
| UtilitiesFacts.TableLineLengths | src/hdx_stable_schema/utilities.py:61-95 | a printed table has four more lines than rows; rules are `total_width` long and every other line is two longer |
| UtilitiesFacts.SumShownUniform | src/hdx_stable_schema/utilities.py:61-65 | columns all of width c, none excluded, sum to c per column |
| UtilitiesFacts.ThreeColumnTable | tests/test_utilities.py:20-31 | the test's three single-letter columns print rules of 29 and lines of 31 |
| Utilities.Longest | src/hdx_stable_schema/utilities.py:101 | the longest length is at least every item's length and is one of them |
| Utilities.FitAll | src/hdx_stable_schema/utilities.py:104-105 | items written at width w take w characters each |
| Utilities.LineFilled | src/hdx_stable_schema/utilities.py:106 | Python's `i % n == 0`, for n of either sign, holds just when the current line has `abs(n)` items |
| Utilities.WriteItems | src/hdx_stable_schema/utilities.py:104-107 | the loop writes every item at width w and breaks after every `abs(n)`-th; full lines have `abs(n)` items |
| Utilities.PrintList | src/hdx_stable_schema/utilities.py:100-108 | an empty list fails (`max` of nothing), no column fitting fails (division by zero); otherwise the item count divided by the column count gives the full lines, the remainder the last line, then a final newline |
| Utilities.BannerLine | src/hdx_stable_schema/utilities.py:119-120 | a banner line is `* `, the text padded to the width, then ` *` |
| Utilities.PrintBanner | src/hdx_stable_schema/utilities.py:111-121 | a rule, each item boxed, the timestamp boxed, the rule; every line is four longer than the longest text |
| UtilitiesExamples.ListOfTwenty | tests/test_utilities.py:34-44 | twenty 14-character items give lines of 144, 144 and 32, then an empty one |
| UtilitiesExamples.BannerOfOne | tests/test_utilities.py:7-17 | one short action and a 26-character timestamp give four lines of 42 |
| MetadataProcessor.Day | src/hdx_stable_schema/metadata_processor.py:34 | `timestamp[0:10]` is the first ten characters, or the whole of a shorter timestamp |
| MetadataProcessor.ChangeLine | src/hdx_stable_schema/metadata_processor.py:32-39 | a line starts with the day, and has more after it exactly when there are sheet changes |
| MetadataProcessor.CompletedChecks | src/hdx_stable_schema/metadata_processor.py:31-33 | the checks kept are completed ones, no more than the history holds |
| MetadataProcessor.ChangeLines | src/hdx_stable_schema/metadata_processor.py:31-40 | a history gives at most one line per check |
| MetadataProcessor.ResourceChanges | src/hdx_stable_schema/metadata_processor.py:24-42 | the summary is a well-formed insertion-ordered dict with at most one entry per resource |
| MetadataProcessor.ExtendChecks | src/hdx_stable_schema/metadata_processor.py:31-40 | the inner loop sets the resource's `checks` list to the lines of its history and changes no other entry |
| MetadataProcessor.SummariseResourceChanges | src/hdx_stable_schema/metadata_processor.py:24-42 | the loop produces the dictionary of every resource's `checks` list |
| MetadataProcessor.AddResource | src/hdx_stable_schema/metadata_processor.py:49-62 | one resource keeps the dict well formed, keeps the existing keys in their order and adds at most one hash after them |
| MetadataProcessor.Schemas | src/hdx_stable_schema/metadata_processor.py:45-68 | the schema dictionary is well formed, with at most one schema per resource |
| MetadataProcessor.SummariseSchema | src/hdx_stable_schema/metadata_processor.py:45-68 | the loop produces the schema dictionary, and prints the error once per resource whose last check did not complete |
| MetadataProcessor.RowTemplate | src/hdx_stable_schema/metadata_processor.py:72 | the template has the four keys in order, all empty |
| MetadataProcessor.SchemaRow | src/hdx_stable_schema/metadata_processor.py:75-77 | a row has `Column` and `Label` set, and `Type` and `Description` still empty |
| MetadataProcessor.TemplateRowsLayout | src/hdx_stable_schema/metadata_processor.py:80 | rows built from the template have every field the table reads |
| MetadataProcessor.SchemaRows | src/hdx_stable_schema/metadata_processor.py:73-78 | as many rows as the shorter of headers and hashtags; row i pairs header i with hashtag i |
| MetadataProcessor.PrintSchema | src/hdx_stable_schema/metadata_processor.py:71-81 | the rows, and the table printed from them at the default widths |
| MetadataFacts.ChangeLinesOfCompleted | src/hdx_stable_schema/metadata_processor.py:31-40 | one line per completed check, in history order; other checks add nothing |
| MetadataFacts.ChangeLineAnnotation | src/hdx_stable_schema/metadata_processor.py:35-39 | with sheet changes, the day is followed by `* `, their number (which reads back), a space and the first changed field |
| MetadataFacts.ResourceChangesKeys | src/hdx_stable_schema/metadata_processor.py:26-28 | the keys are exactly the resource names |
| MetadataFacts.ResourceChangesLastWins | src/hdx_stable_schema/metadata_processor.py:26-29 | a resource's entry is its own `checks` list, empty without `fs_check_info`, unless a later resource has the same name |
| MetadataFacts.ResourceChangesOrder | src/hdx_stable_schema/metadata_processor.py:26-29 | the keys are the resource names in the order they first occur, each once; a repeated name keeps its first place |
| MetadataFacts.SchemaKeys | src/hdx_stable_schema/metadata_processor.py:47-53 | the keys are exactly the hashes of resources whose last check completed |
| MetadataFacts.SchemasOrder | src/hdx_stable_schema/metadata_processor.py:47-62 | the keys are the hashes of the contributing resources in the order they first occur, each once |
| MetadataFacts.SharedWithMembers | src/hdx_stable_schema/metadata_processor.py:47-62 | `shared_with` lists the contributing resources with that hash, in resource order |
| MetadataFacts.HeadersFromFirst | src/hdx_stable_schema/metadata_processor.py:51-62 | a schema's headers and HXL headers are those of the first resource with its hash |
| MetadataFacts.AddResourceNewHash | src/hdx_stable_schema/metadata_processor.py:52-60 | a new hash starts a schema with the resource's first sheet's headers |
| MetadataFacts.AddResourceKeepsHeaders | src/hdx_stable_schema/metadata_processor.py:61-62 | a known hash keeps its headers and HXL headers |
| MetadataFacts.SharedTotal | src/hdx_stable_schema/metadata_processor.py:47-62 | the `shared_with` lists together are as long as the contributing resources are many |
| MetadataFacts.RepeatedNameListedTwice | src/hdx_stable_schema/metadata_processor.py:61-62 | the same resource twice is listed twice in `shared_with` |
| DataPreview.CellTag | src/hdx_stable_schema/data_preview.py:126-143 | a tag is `str`, `DATE`, `DATETIME` or the literal's own type name |
| DataPreview.CellTagCases | src/hdx_stable_schema/data_preview.py:126-143 | a literal keeps its type name; otherwise the cell is a date, a date-time (only if not a date) or `str` |
| DataPreview.ClassifyCell | src/hdx_stable_schema/data_preview.py:126-143 | the tagging cascade produces the cell's tag |
| DataPreview.CountCell | src/hdx_stable_schema/data_preview.py:123-146 | one cell keeps the Counter a well-formed dict |
| DataPreview.Tally | src/hdx_stable_schema/data_preview.py:121-146 | the Counter is well formed and has no more tags than the column has cells |
| DataPreview.TallySkip | src/hdx_stable_schema/data_preview.py:124-125 | a null equivalent leaves the Counter unchanged |
| DataPreview.TallyPut | src/hdx_stable_schema/data_preview.py:146 | any other cell adds one to its tag's count |
| DataPreview.TallyColumn | src/hdx_stable_schema/data_preview.py:121-146 | the counting loop produces the Counter of the column |
| DataPreview.FirstMaxIndex | src/hdx_stable_schema/data_preview.py:153 | the first of the largest counts: no count is larger, and every earlier one is smaller |
| DataPreview.MostCommon | src/hdx_stable_schema/data_preview.py:153 | `most_common(1)[0][0]` is a key with the largest count, and every key inserted before it has a smaller count |
| DataPreview.Resolve | src/hdx_stable_schema/data_preview.py:111-119 | every type reported is one of the seven column types |
| DataPreview.FieldType | src/hdx_stable_schema/data_preview.py:106-155 | `field_type_from_column` reports one of the seven types, and raises IndexError only outside strict mode |
| DataPreview.FieldTypeFromColumn | src/hdx_stable_schema/data_preview.py:106-155 | `field_type_from_column` returns or raises what the tally and its resolution give, and reports one of the seven types |
| DataPreview.Column | src/hdx_stable_schema/data_preview.py:99 | the column is each row's cell, in order, or a KeyError when a row lacks it |
| DataPreview.FieldTypesOfFailure | src/hdx_stable_schema/data_preview.py:98-101 | the first column that raises ends the loop with its exception |
| DataPreview.FieldTypes | src/hdx_stable_schema/data_preview.py:94-103 | no rows raise IndexError; a result is a well-formed dict |
| DataPreview.FieldTypesFromRows | src/hdx_stable_schema/data_preview.py:94-103 | the loop produces the typing of the rows, or its exception |
| DataPreviewFacts.TallyCounts | src/hdx_stable_schema/data_preview.py:121-146 | the Counter holds, for each tag, the number of non-null cells with that tag, and a key exactly for the tags counted |
| DataPreviewFacts.TallyKeys | src/hdx_stable_schema/data_preview.py:123-146 | a tag is a key exactly when some non-null cell has it |
| DataPreviewFacts.NullCellIgnored | src/hdx_stable_schema/data_preview.py:123-125 | inserting a null equivalent anywhere in a column does not change its Counter |
| DataPreviewFacts.TallyKeyOrder | src/hdx_stable_schema/data_preview.py:122-146 | the Counter's keys are in the order their tags were first met |
| DataPreviewFacts.IntFloatColumn | src/hdx_stable_schema/data_preview.py:148-149 | only ints and floats, with both present, give `float`, strict or not |
| DataPreviewFacts.StrictMixedColumn | src/hdx_stable_schema/data_preview.py:150-151 | in strict mode two different tags, one neither int nor float, give `string` |
| DataPreviewFacts.AllNullColumn | src/hdx_stable_schema/data_preview.py:148-153 | an all-null column is `string` in strict mode and an IndexError otherwise |
| DataPreviewFacts.UniformColumn | src/hdx_stable_schema/data_preview.py:148-153 | one tag throughout gives that tag's type, strict or not, or a KeyError for a tag without a type |
| DataPreviewFacts.MostCommonDecides | src/hdx_stable_schema/data_preview.py:152-153 | outside strict mode, unless the only tags met are int and float, the most frequent tag (on a tie, the one met first) decides the type, or raises KeyError |
| DataPreviewFacts.MostCommonIsMostFrequentFirst | src/hdx_stable_schema/data_preview.py:146-153 | `most_common(1)` names the most frequent tag met first |
| DataPreviewFacts.MostCommonFirst | src/hdx_stable_schema/data_preview.py:153 | `most_common(1)` names the first-inserted key of the largest count |
| DataPreviewFacts.ResolveByMostCommon | src/hdx_stable_schema/data_preview.py:148-153 | unless the keys are exactly int and float, non-strict resolution looks up the most common tag: its type, or a KeyError for a tag without one |
| DataPreviewFacts.FieldTypesOfResult | src/hdx_stable_schema/data_preview.py:97-103 | typing distinct columns succeeds exactly when each column is typed; the result lists them in order, each with its type |
| DataPreviewFacts.FieldTypesResult | src/hdx_stable_schema/data_preview.py:94-103 | `field_types_from_rows` succeeds exactly when there are rows and every column of the first row is typed; it maps those columns, in order, to their types |
| DataPreviewExamples.CoordinateType | tests/test_data_preview.py:70-74 | a column of a float and an int is `float` |
| DataPreviewExamples.IdType | tests/test_data_preview.py:70-76 | a column of ints is `integer` |
| DataPreviewExamples.BedsType | tests/test_data_preview.py:70-88 | a column of one word and one empty cell is `string` |
| DataPreviewExamples.SiteTypes | tests/test_data_preview.py:70-109 | rows with coordinate, id and bed columns type as float, integer and string, in column order |

## Left out

- `read_metadata` (metadata_processor.py:11-21): opening the file and decoding JSON. The model starts from decoded `Resource` values.
- The `{"checks": [...]}` value of `summarise_resource_changes` is collapsed to its list.
- The error text `summarise_schema` prints is returned as a list of lines. `print_table_from_list_of_dicts` output is returned the same way, without the flushing.
- `print_schema`'s table is the modelled `Utilities.Layout`. What it writes to the terminal is not.
- `get_data_from_hdx`, `load_dataframe_from_local_path` and `print_data_preview` (data_preview.py:23-91, 158-174). These are downloads, pandas and geopandas readers, zip extraction and `sys.exit`.
- `ast.literal_eval`, `datetime.strptime` and `datetime.fromisoformat` are the parameter `Parsers`. The model does not say which strings they accept.
- The `isinstance(string, datetime.datetime)` branch (data_preview.py:144): cells here are strings or `None`.
- The dataclass-to-dict conversion (utilities.py:36-40) is runtime reflection. `print_dictionary` is the overflow fallback, and its output is not modelled.
- `str(x[field])`: row values are strings already.
- `datetime.now()` in `print_banner` is the parameter `now`. The text styling by `click.secho` is left out.
- `print_list` computes the column count as `floor` of a float division. The model uses integer division, which agrees for the widths and totals the source uses; float rounding of huge values is not modelled.
- When `print_list` raises `ZeroDivisionError`, the model does not show the first item it wrote before failing. `truncate_width` is unused by the source and ignored.
- `Utilities.Layout` and `Utilities.PrintTable` require every row to hold every printed field. A row without one raises KeyError in the source (utilities.py:50, 88); the model does not return that error.
- `DataPreview.FieldType`: `ast.literal_eval` can raise exceptions other than the ValueError and SyntaxError caught at data_preview.py:129. Examples are a TypeError for an unhashable set element such as `{[1]}` and a RecursionError or MemoryError on deeply nested input. Those escape `field_type_from_column`. `Parsers.literalType` returns only a type name or `None`, so the model has no such outcome.
- `Utilities.ColumnWidth`: `truncate_width` is a `nat`. Negative truncation widths are not modelled.
- `src/hdx_stable_schema/cli.py` only declares an empty command group.
- `get_last_complete_check` and `read_metadata_from_file` are not part of this model.
