# Participant import, validation rules and ranking export

This project models the spreadsheet side of a cosplay contest manager:

- **Participant import.** A sheet of entrants is read, each row is normalised and checked against the participant rules, and the batch is accepted or rejected as a whole.
- **Validation rules.** The rules for entrant records (`nome`, `categoria`, `cosplay`) and for judges' scores.
- **Ranking export.** The per-category winner lists are flattened into the rows of the ranking sheet.
- **Import template.** The sample rows of the downloadable template.

There are three modules:

- `JsString` (`js_string.dfy`) models the JavaScript string built-ins the code relies on:
  - `trim` and the `\s` class;
  - `toUpperCase` on Latin-1;
  - the UTF-16 `length`;
  - decimal number-to-text conversion;
  - `join`;
  - a line splitter, used only to state what the error message shows.
- `ValidationSchemas` (`validation_schemas.dfy`) models `participantSchema` and `scoreSchema`:
  - the participant schema collects every failed check. Fields are taken in declaration order, and within a string field the checks run in the order trim, min, max, regex;
  - the category set `CATEGORIES` is a parameter.
- `ExcelUtils` (`excel_utils.dfy`) models three pieces of `readExcelFile`, `exportRankingToExcel` and `downloadExcelTemplate`:
  - the row loop of `readExcelFile`, as methods: `ImportRow` is the `forEach` callback, `ImportRecord` is its checking half, and `ReadRows` is the loop with the final verdict;
  - the nested row-building loops of `exportRankingToExcel`, as the method `ExportRanking`;
  - the sample rows of `downloadExcelTemplate`.

  The import methods are proved against the functions `ClassifyRow`, `Outcomes`, `ValidRows`, `RowErrors` and `Verdict`. The lemmas state the properties the import promises.

Sheet rows are maps from column header to cell text. A score is `null`, `undefined`, an exact real number, or some other value.

Alias lookup takes the first truthy cell under exactly the listed keys, before trimming. So a cell of spaces under `nome` hides a filled-in `Nome`; `WhitespaceAliasShadowsLater` states this.

## Model

| member | source | states |
|---|---|---|
| JsString.TrimSpec | src/lib/excel-utils.ts:29-31 | `trim` never lengthens a string, and what it leaves neither starts nor ends with whitespace |
| JsString.TrimIsSlice | src/lib/excel-utils.ts:29-31 | the trimmed text is a contiguous slice of the input, and everything cut away on either side is whitespace |
| JsString.TrimIdempotent | src/lib/excel-utils.ts:29-31 | trimming twice is the same as trimming once |
| JsString.TrimEmptyIff | src/lib/excel-utils.ts:29-37 | a cell trims to the empty string exactly when all its characters are whitespace |
| JsString.IsWhitespace | src/lib/validation-schemas.ts:13 | the characters of `\s`, which `trim` also strips: tab, line feed, vertical tab, form feed, carriage return, space, U+00A0, U+1680, U+2000–U+200A, U+2028, U+2029, U+202F, U+205F, U+3000 and U+FEFF |
| JsString.Trim | src/lib/excel-utils.ts:29-31 | `.trim()`: drops the leading and then the trailing `\s` characters |
| JsString.UpperChar | src/lib/excel-utils.ts:30 | `toUpperCase` on one character: a–z and U+00E0–U+00FE except ÷ go to their capitals (minus 0x20), anything else stays; it never turns whitespace into non-whitespace or back |
| JsString.ToUpper | src/lib/excel-utils.ts:30 | `.toUpperCase()` on a string, character by character |
| JsString.ToUpperSpec | src/lib/excel-utils.ts:30 | `toUpperCase` keeps the length and maps each character through the case mapping in place |
| JsString.ToUpperIdempotent | src/lib/excel-utils.ts:30 | after upper-casing no letter that `UpperChar` maps (a–z, and U+00E0–U+00FE except ÷) is left, and upper-casing again changes nothing |
| JsString.Utf16LengthBounds | src/lib/validation-schemas.ts:11-12 | the JavaScript length lies between the character count and twice that, and equals the character count exactly when every character is in the Basic Multilingual Plane |
| JsString.Utf16Length | src/lib/validation-schemas.ts:12 | the JavaScript `length` that `.min` and `.max` count: one unit per character in the Basic Multilingual Plane, two for any other |
| JsString.NatToStringRoundTrip | src/lib/excel-utils.ts:49-51 | the decimal text written for a line number reads back as that number |
| JsString.NatToStringInjective | src/lib/excel-utils.ts:49-51 | different line numbers are written differently |
| JsString.NatToString | src/lib/excel-utils.ts:51 | the decimal text `${n}` writes for a line number or a count: digits only, with no leading zero |
| JsString.Join | src/lib/excel-utils.ts:57 | `.join(sep)`: the strings in order with `sep` between each pair |
| JsString.SplitLinesJoin | src/lib/excel-utils.ts:57 | joining single-line strings with line feeds and cutting at line feeds gives the strings back |
| ValidationSchemas.ParseParticipant | src/lib/validation-schemas.ts:7-23 | on success the record has `nome` and `cosplay` trimmed and `categoria` unchanged; on failure it carries a non-empty issue list, namely every failed check in order |
| ValidationSchemas.NomeIssues | src/lib/validation-schemas.ts:8-13 | the issues of the `nome` chain on the trimmed text, in check order: `Nome é obrigatório` when it is empty, the 100-limit message when it is over 100 UTF-16 units, and the class message when the pattern fails |
| ValidationSchemas.CategoriaIssues | src/lib/validation-schemas.ts:14-16 | the enum check: no issue for a member of the category set, otherwise `Categoria inválida` |
| ValidationSchemas.CosplayIssues | src/lib/validation-schemas.ts:17-22 | the issues of the `cosplay` chain on the trimmed text, in check order, with the 200 limit and the wider class |
| ValidationSchemas.ParticipantIssues | src/lib/validation-schemas.ts:7-23 | the issues of the whole object, field by field in declaration order: `nome`, then `categoria`, then `cosplay` |
| ValidationSchemas.ParseAcceptsExactly | src/lib/validation-schemas.ts:7-23 | a record is accepted if and only if its trimmed `nome` and `cosplay` meet their length bounds and character classes and its `categoria` is a member of the category set |
| ValidationSchemas.NomeIssuesEmptyIff | src/lib/validation-schemas.ts:8-13 | `nome` has no issue exactly when its trimmed text has JavaScript length 1 to 100 and matches the `nome` class |
| ValidationSchemas.CosplayIssuesEmptyIff | src/lib/validation-schemas.ts:17-22 | `cosplay` has no issue exactly when its trimmed text has JavaScript length 1 to 200 and matches the `cosplay` class |
| ValidationSchemas.ParseIdempotent | src/lib/validation-schemas.ts:7-23 | parsing the output of a successful parse succeeds with the identical record |
| ValidationSchemas.NormalisedIssues | src/lib/validation-schemas.ts:10-19 | trimming the text fields beforehand changes none of the issues, because the schema trims first |
| ValidationSchemas.FirstIssue | src/lib/validation-schemas.ts:7-22 | the first issue is picked by field order (nome, categoria, cosplay), and within a field by check order (min, max, regex) |
| ValidationSchemas.EmptyNomeReportedAsRequired | src/lib/validation-schemas.ts:10-13 | a `nome` that trims to nothing always fails, and its first issue is `Nome é obrigatório` |
| ValidationSchemas.CategoriaExact | src/lib/validation-schemas.ts:14-16 | `Categoria inválida` is among the issues exactly when `categoria` is not in the set verbatim, with no trimming or case folding |
| ValidationSchemas.NomeValidImpliesCosplayValid | src/lib/validation-schemas.ts:13-22 | any trimmed text valid as `nome` is valid as `cosplay` |
| ValidationSchemas.ValidFieldLength | src/lib/validation-schemas.ts:8-22 | in an accepted field every character is a single UTF-16 unit, so the 100 and 200 limits count characters |
| ValidationSchemas.PatternLength | src/lib/validation-schemas.ts:13-22 | every string matching either pattern has JavaScript length equal to its character count |
| ValidationSchemas.IsNomeChar | src/lib/validation-schemas.ts:13 | the class `[a-zA-ZÀ-ÿ0-9\s\-'".]`: a letter a–z or A–Z, U+00C0–U+00FF, a digit, a `\s` character, or one of `-'".` |
| ValidationSchemas.MatchesNomePattern | src/lib/validation-schemas.ts:13 | the anchored pattern `^[…]+$` of `nome`: non-empty, and every character in the `nome` class |
| ValidationSchemas.IsCosplayChar | src/lib/validation-schemas.ts:22 | the `cosplay` class: the `nome` class plus `,:;!?()&/` |
| ValidationSchemas.MatchesCosplayPattern | src/lib/validation-schemas.ts:22 | the anchored pattern of `cosplay`: non-empty, and every character in the `cosplay` class |
| ValidationSchemas.IssuesSingleLine | src/lib/validation-schemas.ts:11-22 | no participant issue message contains a line feed |
| ValidationSchemas.ScoreIssues | src/lib/validation-schemas.ts:28-36 | the issues of the score chain: none for `null`, the required message for `undefined`, the type message for a non-number, and for a number the below-0, above-10 and not-half-step messages in that order |
| ValidationSchemas.IsHalfStep | src/lib/validation-schemas.ts:35 | `.multipleOf(0.5)` on an exact number: twice the value is a whole number |
| ValidationSchemas.ParseScore | src/lib/validation-schemas.ts:28-36 | a score passes exactly when it is `null` or a number in [0, 10] that is a multiple of 0.5; a pass returns the value unchanged, and a failure carries at least one issue |
| ValidationSchemas.ScoreAcceptedExactly | src/lib/validation-schemas.ts:28-36 | the accepted numbers are exactly the 21 half-points 0, 0.5, …, 10 |
| ExcelUtils.FirstTruthyIsFirst | src/lib/excel-utils.ts:29-31 | the lookup yields the cell under the first key whose cell is truthy, even when a later key is truthy too; it yields `''` when no key is; any non-empty result is one of the looked-up cells |
| ExcelUtils.FirstTruthy | src/lib/excel-utils.ts:29-31 | the `row[k1] \|\| row[k2] \|\| … \|\| ''` chain over a field's aliases |
| ExcelUtils.NormaliseRow | src/lib/excel-utils.ts:28-32 | the `rawData` record: each field is looked up through its aliases and trimmed, and the category is upper-cased |
| ExcelUtils.NormalisedRowIsTrimmed | src/lib/excel-utils.ts:28-32 | each normalised field is already trimmed, and the category holds no letter that `UpperChar` maps (a–z, and U+00E0–U+00FE except ÷) |
| ExcelUtils.WhitespaceAliasShadowsLater | src/lib/excel-utils.ts:29 | a cell of spaces under `nome` hides a filled-in `Nome`, giving an empty `nome` |
| ExcelUtils.ClassifyRow | src/lib/excel-utils.ts:28-53 | a row contributes nothing exactly when its three normalised fields are all empty |
| ExcelUtils.WhitespaceRowSkipped | src/lib/excel-utils.ts:34-37 | a row whose cells are missing or hold only whitespace is skipped |
| ExcelUtils.ImportRow | src/lib/excel-utils.ts:27-54 | the callback appends the row's record to `rows` or its line error to `errors`, or neither for a blank row, and changes nothing else |
| ExcelUtils.ImportRecord | src/lib/excel-utils.ts:34-53 | on the normalised record: a blank record adds nothing, a valid one adds its parsed record, and an invalid one adds `Linha <index+2>: <first issue>` |
| ExcelUtils.ReadRows | src/lib/excel-utils.ts:24-66 | the loop and final branches return exactly the verdict on the accepted records and the error lines of all rows, in sheet order |
| ExcelUtils.Verdict | src/lib/excel-utils.ts:56-66 | the import succeeds exactly when there is no error and at least one row, and then it returns the rows |
| ExcelUtils.ImportCounts | src/lib/excel-utils.ts:40-53 | each non-blank outcome adds exactly one record or one error |
| ExcelUtils.RowsPlusErrors | src/lib/excel-utils.ts:27-53 | the number of valid rows plus the number of errors is the number of non-blank rows |
| ExcelUtils.ErrorOfRow | src/lib/excel-utils.ts:47-51 | a failing row at list index i yields `Linha (i+2): <first issue>`, with i counting the blank rows too; it comes right after the errors of the rows above it |
| ExcelUtils.RowOfRow | src/lib/excel-utils.ts:41-46 | a passing row yields its parsed record, right after the records of the rows above it |
| ExcelUtils.ErrorsKeepOrder | src/lib/excel-utils.ts:51 | errors are listed in the order of the rows they come from |
| ExcelUtils.LineError | src/lib/excel-utils.ts:49-51 | the error line `Linha <index+2>: <message>` |
| ExcelUtils.ErrorsFromRejected | src/lib/excel-utils.ts:47-51 | every error line comes from a rejected row |
| ExcelUtils.RowsFromAccepted | src/lib/excel-utils.ts:41-46 | every record comes from an accepted row |
| ExcelUtils.LineErrorLine | src/lib/excel-utils.ts:49-51 | two error lines that read the same name the same row |
| ExcelUtils.BlankRowNeverReported | src/lib/excel-utils.ts:34-37 | no error line ever names a blank row, whatever its position |
| ExcelUtils.AcceptedRowIsParsed | src/lib/excel-utils.ts:41-46 | an accepted row's record passes the schema unchanged |
| ExcelUtils.ValidRowsAreParsed | src/lib/excel-utils.ts:41-46 | every imported record passes the schema unchanged |
| ExcelUtils.RowErrorsSingleLine | src/lib/excel-utils.ts:49-51 | every error line is a single line |
| ExcelUtils.BatchMessage | src/lib/excel-utils.ts:57 | the rejection text: the header, then the first five errors, then `... e mais <k-5> erros` when there are k > 5, joined by line feeds |
| ExcelUtils.BatchMessageLines | src/lib/excel-utils.ts:57 | the rejection message splits into the header, exactly the first min(k, 5) errors, and then `... e mais (k-5) erros` if and only if k > 5 |
| ExcelUtils.ImportVerdict | src/lib/excel-utils.ts:56-66 | three outcomes: with k > 0 errors, a rejection listing the capped errors; with no errors and no filled-in row, `Nenhum dado válido encontrado no arquivo`; otherwise every filled-in row, in sheet order |
| ExcelUtils.FlattenRanking | src/lib/excel-utils.ts:80-95 | the rows of each category in order: its winners with positions 1, 2, …, then the empty separator |
| ExcelUtils.FlattenLength | src/lib/excel-utils.ts:80-95 | the ranking sheet has Σ\|ganhadores\| + (number of categories) rows |
| ExcelUtils.FlattenLayout | src/lib/excel-utils.ts:80-95 | in each category's block the j-th winner has position j+1 with its category and fields, and the row after the last winner is the empty separator |
| ExcelUtils.ExportRanking | src/lib/excel-utils.ts:77-95 | the nested loops build exactly the flattened ranking, with Σ\|ganhadores\| + (number of categories) rows |
| ExcelUtils.ExportCells | src/lib/excel-utils.ts:82-94 | the object pushed for a sheet row: the seven columns of a winner, or `{}` for the separator |
| ExcelUtils.ExportCellsColumns | src/lib/excel-utils.ts:82-94 | the seven column headers are distinct; a winner's object fills exactly those columns, each with its own field; the separator fills none |
| ExcelUtils.TemplateImports | src/lib/excel-utils.ts:115-120 | the template as shipped imports without error to its own three rows whenever ANIME, GAME and GEEK are valid categories |
| ExcelUtils.TemplateRowAccepted | src/lib/excel-utils.ts:116-119 | each sample row of the template is accepted as itself |
| ExcelUtils.TemplateRowClean | src/lib/excel-utils.ts:116-119 | each sample row is trimmed, upper-case in its category and within the character classes and length limits |
| ExcelUtils.CleanRowAccepted | src/lib/excel-utils.ts:28-46 | any record that is trimmed, matches the character classes, has at most 100 (`nome`) and 200 (`cosplay`) characters and a known category already upper-case imports as itself |

## Left out

- Reading the file is not modelled: `FileReader`, the `Promise`, `XLSX.read`, `sheet_to_json`, the `Erro ao ler arquivo` rejection and the outer `catch` that rejects with the thrown error. These are I/O and library calls. `ReadRows` starts from the list of rows that `sheet_to_json` returns.
- Which sheet lines `sheet_to_json` drops or keeps (header detection, fully empty lines) is library behaviour and is not modelled. The line number is the row's index in the returned list plus 2, as the code computes it.
- Cells are text. `String(...)` applied to numbers, booleans or dates is not modelled, nor is the way a falsy non-text cell such as `0` or `false` falls through to the next alias.
- `ImportRecord`: the `instanceof ZodError` test is not modelled, because `participantSchema.parse` only throws Zod errors on these string records.
- `toUpperCase` is modelled for ASCII letters and the Latin-1 lower-case letters U+00E0–U+00FE except U+00F7. Other Unicode case mappings are left out, such as `ß` to `SS`, `ÿ` to `Ÿ` and letters outside Latin-1.
- Strings are sequences of Unicode scalar values. Unpaired surrogates are not represented.
- The Zod library beyond the declared checks is not modelled. Fields of other types, extra keys, `NaN` and infinities are left out. Scores are exact reals, so floating-point rounding in `multipleOf` is not modelled.
- `CATEGORIES` lives in `src/lib/cosplay-types.ts`, which is not part of this model. It is the parameter `categories`.
- `ExportRanking`: the statistics `media`, `med` and `desv` are a type parameter `S`. They are copied as they are, because `toFixed(2)` and how the statistics are computed are not modelled.
- Writing workbooks is not modelled: `json_to_sheet`, `book_new`, `book_append_sheet`, `writeFile`, the sheet names, the column widths and the date-stamped file name. These are library calls and a clock.
- `downloadExcelTemplate` is modelled by its data only, `TEMPLATE`. Writing it is left out, for the reasons above.
