# CoC League Manager — a verified model of the workbook parser and the weight logic

CoC League Manager reads a spreadsheet workbook that lists clan groups, one
group per column: row 0 holds the group's name, rows 1–3 its tag, status and
note, and rows 5–19 its 15 member slots. It also reads a reserved sheet named
`匹配值`, whose rows pair a member name with a numeric weight. The app keeps a
store that maps member names to weights, and it shows each group's total and
average weight and a colour tier for every member.

This project models two parts in Dafny and proves properties of them:

- **The parser** (`utils/excelParser.ts`). It runs after the spreadsheet
  library has turned each sheet into a grid of cells.
  - Each loop of the source is a method. Each method is proved equal to a
    specification function: `ParseWorkbook`, `ImportWeights`,
    `ParseNormalSheet` and `ReadMembers`.
  - The specification functions are `Parse`, `ImportRows`, `GroupsOf` and
    `MemberSlotsAt`. The parser's properties are lemmas about them.
- **The state logic of `App.tsx`**. A `Session` class holds the parsed
  sheets, the selected tab and the weight store. Its methods model the
  upload, clear, tab-select and weight-save handlers. The `Weights` module
  models:
  - the merge of imported weights and the save of one weight;
  - the loops that compute a group's total and average;
  - the colour tier of a weight.

Files and modules:

| file | module | contents |
|---|---|---|
| `wrappers.dfy` | `Wrappers` | `Option`, `Result` |
| `text.dfy` | `Text` | JavaScript `trim`, `replace(/\s+/g, '-')`, decimal numerals |
| `types.dfy` | `Types` | the records of `types.ts` |
| `cells.dfy` | `Cells` | cells, grids, JavaScript truthiness and `String()` |
| `excel_parser.dfy` | `ExcelParser` | the parser: specification functions, loop methods, lemmas |
| `weights.dfy` | `Weights` | merge, save, group total and average, tiers |
| `app_session.dfy` | `AppSession` | the `Session` class |
| `parser_examples.dfy` | `ParserExamples` | concrete workbooks and what the specification gives for them |

Modelling choices:

- **Cells.** A cell is `Str(text)`, `Num(value)` or `Empty`. `Empty` stands
  for `undefined`, which is what a read past the end of a row or of the grid
  gives.
- **Truthiness.** JavaScript's rule is modelled as written: `""`, `0` and
  `undefined` are falsy.
- **Host.** Two pieces of JavaScript behaviour are parameters of the model.
  They are collected in the datatype `Host`:
  - `String(x)` of a number;
  - `parseFloat`, where `None` stands for `NaN`.
- **Numbers.** Weights are mathematical reals, not IEEE doubles.

Where the code differs from the obvious reading, the model follows the code:

- **An empty normal sheet is not a failure.** A workbook whose only sheet is
  a normal sheet with no rows yields that sheet with no groups
  (`utils/excelParser.ts:42-45`). The failure test at
  `utils/excelParser.ts:78` looks only at the sheet list and the weights.
  See `ParserExamples.EmptyNormalSheetIsRecorded`.
- **A zero weight is not counted.** One might expect every member slot with
  a stored weight to count towards a group's total and average. The code
  instead tests `weights[m]` for truthiness (`App.tsx:91`, `App.tsx:102`), so
  a weight of exactly 0 is neither counted nor averaged. That member is still
  shown with a weight and a colour (`App.tsx:281-282`). See
  `Weights.ZeroWeightShownButNotCounted`.
- **A white-space header makes a nameless group.** One might expect a column
  whose header looks empty to be skipped. The code tests the raw header cell
  for truthiness before trimming (`utils/excelParser.ts:54`), so a header of
  white space only yields a group whose trimmed name is empty. See
  `ParserExamples.BlankHeaderMakesNamelessGroup`.

## Model

| member | source | states |
|---|---|---|
| ExcelParser.ParseWorkbook | utils/excelParser.ts:12-83 | The sheet loop returns exactly `Parse`: the visual sheets and the imported weights, or `NoValidData` when both are empty. |
| ExcelParser.ParseFailsIff | utils/excelParser.ts:78-83 | The parse fails exactly when every sheet is the reserved one and no weight was imported. Otherwise it returns both collections unchanged. |
| ExcelParser.ImportWeights | utils/excelParser.ts:21-35 | The row loop over the reserved sheet produces exactly `ImportRows` of the starting map. |
| ExcelParser.ImportRowsKeys | utils/excelParser.ts:23-34 | After the import, a name has a weight exactly when it had one before, or when some row has that trimmed non-empty name, a present non-empty value cell and a value `parseFloat` accepts. |
| ExcelParser.ImportRowsLastWins | utils/excelParser.ts:32 | The last row that supplies a name decides that name's weight. |
| ExcelParser.ImportRowsUntouched | utils/excelParser.ts:28-34 | A name that no row supplies keeps its presence and its value. Unnamed, blank and unparsable rows are skipped without error. |
| ExcelParser.ImportedOfComplete | utils/excelParser.ts:21-35 | A weight-supplying row of any reserved sheet puts its name among the imported weights. |
| ExcelParser.ImportedOfSound | utils/excelParser.ts:21-35 | Every imported name comes from a row of some reserved sheet. |
| ExcelParser.ImportedOfKeys | utils/excelParser.ts:21-35 | A name is imported if and only if some reserved sheet has a row that supplies it. |
| ExcelParser.NoReservedNoImport | utils/excelParser.ts:13-21 | A workbook without the reserved sheet imports no weight. |
| ExcelParser.SingleReservedImport | utils/excelParser.ts:13-35 | With a single reserved sheet, the imported weights are exactly that sheet's rows applied to an empty map. |
| ExcelParser.ParsedWeightValue | utils/excelParser.ts:21-83 | In the parse result, a row of the single reserved sheet that supplies a name, with no later row for that name, gives that name exactly its parsed value, and the parse succeeds. |
| ExcelParser.ReservedSheetNeverListed | utils/excelParser.ts:37-38 | The reserved sheet never appears among the visual sheets. |
| ExcelParser.SheetsInWorkbookOrder | utils/excelParser.ts:15-45 | There is one visual sheet per non-reserved sheet, in workbook order and under the same name. A sheet with fewer than 5 rows is listed with no groups. |
| ExcelParser.NoSheetsIffAllReserved | utils/excelParser.ts:15-75 | The visual sheet list is empty exactly when every sheet is the reserved one. |
| ExcelParser.CountNormalPrefix | utils/excelParser.ts:15 | Helper for SheetsInWorkbookOrder: the count of non-reserved sheets grows along the workbook, strictly at each non-reserved sheet. |
| ExcelParser.ParseNormalSheet | utils/excelParser.ts:41-75 | The column loop of a normal sheet returns exactly `ParseSheet`. |
| ExcelParser.HeaderColumnsMembers | utils/excelParser.ts:48-54 | A column holds a group if and only if it is not column 0, lies within row 0's width and has a truthy row-0 cell. |
| ExcelParser.HeaderColumnsBelow | utils/excelParser.ts:51 | Every group column lies between 1 and the row-0 width. |
| ExcelParser.HeaderColumnsIncreasing | utils/excelParser.ts:51 | Group columns are visited in strictly increasing order, so none is visited twice. |
| ExcelParser.ReadMembers | utils/excelParser.ts:55-63 | The loop returns exactly `MemberSlotsAt`: 15 slots, for rows 5–19 in order. A slot holds the trimmed text of a truthy cell and is "" otherwise. |
| ExcelParser.MemberSlotsAtIndex | utils/excelParser.ts:55-63 | The same slot-by-slot statement, for the specification function. |
| ExcelParser.ReadGroup | utils/excelParser.ts:65-72 | The group built for a header column equals `MakeGroup` of that column. |
| ExcelParser.MakeGroupTrimmed | utils/excelParser.ts:67-71 | The name, tag, status, note and every member slot of a group are trimmed. |
| ExcelParser.GroupsShape | utils/excelParser.ts:51-72 | Every group of a sheet comes from one header column. Its id is built from that column, all its fields are trimmed and it has exactly 15 member slots. |
| ExcelParser.HeaderColumnGivesGroup | utils/excelParser.ts:51-72 | Conversely, every column from 1 below the row-0 width whose row-0 cell is truthy yields a group of the sheet, built from that column. |
| ExcelParser.GroupIdInjective | utils/excelParser.ts:66 | Two columns of one sheet never get the same id. |
| ExcelParser.GroupIdsDistinct | utils/excelParser.ts:65-66 | The group ids within one sheet are pairwise distinct. |
| ExcelParser.GroupsForSnoc | utils/excelParser.ts:65 | Helper for ParseNormalSheet: appending a column appends its group at the end. |
| Cells.At | utils/excelParser.ts:58 | A cell read as `json[r][col]` is truthy exactly when the row exists, the column lies within that row and the stored cell is truthy. This is the guard `json[r] && json[r][col]`. |
| Cells.Field | utils/excelParser.ts:25 | `String(x \|\| '').trim()` of a falsy cell is "". |
| Cells.FieldTrimmed | utils/excelParser.ts:25 | `String(x \|\| '').trim()` never starts or ends with white space. |
| Text.TrimStart | utils/excelParser.ts:25 | Helper for Trim and its termination: leading trimming never lengthens a string, and it shortens one that starts with white space. |
| Text.TrimStartSpec | utils/excelParser.ts:25 | Leading trimming removes a prefix of white space and stops at a non-space character. |
| Text.TrimEndSpec | utils/excelParser.ts:25 | Trailing trimming removes a suffix of white space and stops at a non-space character. |
| Text.TrimSpec | utils/excelParser.ts:25 | `trim` returns the slice of its input between an all-space prefix and an all-space suffix. The result neither starts nor ends with white space. |
| Text.CollapseSpaces | utils/excelParser.ts:66 | `replace(/\s+/g, '-')` leaves no white space, never lengthens a string, and leaves a string without white space unchanged. |
| Text.CollapseRun | utils/excelParser.ts:66 | A maximal run of white space, followed by the end or by a non-space character, becomes exactly one '-'. |
| Text.TrimStartSpaces | utils/excelParser.ts:66 | Helper for CollapseRun: removing leading white space takes off exactly a leading all-space run. |
| Text.NatToDecimal | utils/excelParser.ts:66 | The column number in the id is a non-empty string of decimal digits. |
| Text.DecimalRoundTrip | utils/excelParser.ts:66 | Reading the numeral back gives the column number. |
| Text.DecimalInjective | utils/excelParser.ts:66 | Distinct column numbers have distinct numerals. |
| Weights.Merge | App.tsx:59-65 | After a merge, a key is present if it was in either map. An imported value overrides an existing one, and every other existing value is kept. |
| Weights.MergeNothing | App.tsx:60 | Merging an empty import leaves the store as it was. |
| Weights.SetWeight | App.tsx:80-85 | The saved name gets the new weight. Every other name keeps its presence and its value. |
| Weights.GroupTotal | App.tsx:99-107 | The total loop returns `SlotTotal`: the sum of the weights of the non-empty slots whose stored weight is truthy. |
| Weights.GroupAverage | App.tsx:87-97 | The average is 0 when no slot counts. Otherwise it is the total of the counted slots divided by their number. |
| Weights.SlotTotalIsStoredTotal | App.tsx:99-105 | Leaving out zero weights does not change a total: the sum over the counted slots equals the sum of every stored weight of a non-empty slot. |
| Weights.SlotCount | App.tsx:89-94 | The number of counted slots is at most the number of slots. |
| Weights.SlotTotalAtLeast | App.tsx:99-105 | When every counted weight is at least `lo`, the total is at least count × `lo`. |
| Weights.SlotTotalAtMost | App.tsx:99-105 | When every counted weight is at most `hi`, the total is at most count × `hi`. |
| Weights.AverageWithinBounds | App.tsx:87-97 | A group's average lies between the smallest and the largest counted weight. |
| Weights.QuotientBounds | App.tsx:96 | Helper for AverageWithinBounds: dividing a total that lies between n × lo and n × hi by n gives a value between lo and hi. |
| Weights.ClassifyTier | App.tsx:109-115 | `undefined` gives the unset tier. Otherwise the tier is TH16 from 16 up, TH15 in [15, 16), TH14 in [14, 15), and the lowest tier below 14; each holds if and only if the band does. |
| Weights.TierMonotone | App.tsx:109-115 | A larger weight never gets a lower tier. |
| Weights.MemberTier | App.tsx:281 | A member's tier is the unset one exactly when the member has no stored weight. |
| Weights.ZeroWeightShownButNotCounted | App.tsx:91-102 | A stored weight of 0 is shown with the lowest tier, but it is left out of the group's total and count. |
| AppSession.Session.constructor | App.tsx:9-11 | The session starts with no sheets, the first tab and an empty store. |
| AppSession.Session.Upload | App.tsx:53-70 | The upload succeeds if and only if the parse does. On success the sheets are replaced, the first tab is selected, the active groups (`App.tsx:117`) are those of the first sheet or none, and the imported weights are merged into the store. On failure nothing changes. |
| AppSession.Session.Clear | App.tsx:145 | Clearing empties the sheet list but keeps the tab index and the store, and no groups remain active. |
| AppSession.Session.SelectTab | App.tsx:202-205 | Selecting a listed sheet changes only the tab, and that sheet's groups become active. |
| AppSession.Session.SaveWeight | App.tsx:80-85 | Saving changes only the store, by `SetWeight`. |
| ParserExamples.EmptyNormalSheetIsRecorded | utils/excelParser.ts:42-45 | A workbook whose only sheet is a normal sheet with no rows parses to that sheet with no groups and no weights. |
| ParserExamples.EmptyWorkbookFails | utils/excelParser.ts:78-81 | A workbook without sheets fails with `NoValidData`. |
| ParserExamples.MixedHeaders | utils/excelParser.ts:51-54 | In the example grid, only column 1 has a truthy header. |
| ParserExamples.MixedMembers | utils/excelParser.ts:55-63 | Column 1 of the example grid has 15 empty member slots. |
| ParserExamples.MixedId | utils/excelParser.ts:66 | Sheet "S 1", column 1 gets the id "S-1-group-1". |
| ParserExamples.MixedName | utils/excelParser.ts:67 | The header "A" gives the name "A". |
| ParserExamples.MixedGridGroups | utils/excelParser.ts:41-75 | The example sheet has exactly one group: column "A". The column with header "" is skipped. |
| ParserExamples.AliceRow | utils/excelParser.ts:25-33 | The row ["Alice", "16"] supplies the weight 16 for "Alice". |
| ParserExamples.BobRow | utils/excelParser.ts:29-31 | The row ["Bob", "x"] supplies nothing, because "x" does not parse. |
| ParserExamples.MixedWeightsImported | utils/excelParser.ts:21-35 | The two rows import exactly {"Alice": 16}. |
| ParserExamples.MixedWorkbook | utils/excelParser.ts:12-83 | The example workbook parses to one sheet with one group and the weights {"Alice": 16}. |
| ParserExamples.BlankHeaderMakesNamelessGroup | utils/excelParser.ts:52-67 | A header of white space only is truthy, so its column becomes a group with an empty name. |

## Left out

- Reading the file is not modelled: `FileReader`, `XLSX.read` and
  `sheet_to_json`. The model starts from the list of sheets, each with a name
  and a grid of cells. So are the promise plumbing and the `catch` of
  library exceptions (`utils/excelParser.ts:4-10, 84-90`).
- Boolean and date cells are not modelled, because cells are only text,
  numbers or `undefined`.
- `String(number)` and `parseFloat` are parameters (`Host`): their JavaScript
  definitions are not modelled.
- `parseFloat` can return `Infinity`, which the code accepts because only
  `NaN` is rejected. The model's weights are real numbers and cannot be
  infinite.
- Weights are exact reals: IEEE rounding of sums and quotients is not
  modelled.
- The `toFixed(1)` and `toFixed(2)` display formatting of the total and the
  average is not modelled: `GroupTotal` and `GroupAverage` return the number
  itself.
- `localStorage` is not modelled. This covers loading and saving the weight
  store, its JSON decoding and the colour theme (`App.tsx:15-51`).
- The weight editor `components/MemberWeightModal.tsx` is not modelled. Its
  NaN filter is not needed, because the model's weights are reals and
  `SaveWeight` takes any real.
- `components/AnalysisPanel.tsx` is not modelled: it sends the groups over
  the network to Google's GenAI service.
- Rendering, drag-and-drop, the `alert` on failure and the modal's open and
  close state are not modelled. `Upload` reports the alert case as
  `ok == false`.
- JavaScript object keys are not modelled: the store is a map with no
  inherited keys such as `__proto__` or `constructor`.
- React's asynchronous batching of state updates is not modelled. Each
  handler is one atomic transition of `Session`.
- Duplicate sheet names are allowed in the model, though a real workbook
  cannot hold them. Every property holds for any list of sheets.
