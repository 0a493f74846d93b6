/** The spreadsheet side of participant management: turning the rows read
    from a sheet into validated participants (or one aggregate error),
    flattening the per-category winner lists into the rows of the ranking
    sheet, and the fill-in template. The workbook reading and writing
    itself is not modelled: rows come in, and go out, as values. */
module ExcelUtils {
  import opened JsString
  import opened ValidationSchemas

  /** One sheet row as the reader hands it over: column header to cell text. */
  type SheetRow = map<string, string>

  /** A validated import row. */
  datatype ExcelRow = ExcelRow(nome: string, categoria: string, cosplay: string)

  /** The outcome of an import: the rows, or the message it is rejected with. */
  datatype ImportResult = Ok(rows: seq<ExcelRow>) | Err(message: string)

  /** The headers tried for each field, highest priority first. */
  const NOME_KEYS: seq<string> := ["nome", "Nome", "NOME"]
  const CATEGORIA_KEYS: seq<string> := ["categoria", "Categoria", "CATEGORIA"]
  const COSPLAY_KEYS: seq<string> := ["cosplay", "Cosplay", "COSPLAY", "personagem", "Personagem"]

  const LINE_OFFSET: nat := 2
  const MAX_SHOWN_ERRORS: nat := 5
  const BATCH_HEADER := "Erros de validação " + "encontrados:"
  const NO_VALID_DATA := "Nenhum dado válido encontrado no arquivo"

  /** A cell is truthy when it is present and not the empty string. */
  predicate Truthy(row: SheetRow, key: string) {
    key in row && row[key] != ""
  }

  /** `row[k1] || row[k2] || … || ''`. */
  function FirstTruthy(row: SheetRow, keys: seq<string>): string {
    if keys == [] then ""
    else if Truthy(row, keys[0]) then row[keys[0]]
    else FirstTruthy(row, keys[1..])
  }

  /** The lookup yields the value under the first key whose cell is truthy,
      even when a later key is truthy too, and the empty string when no key
      is; so a non-empty result is always one of the looked-up cells. */
  lemma {:induction false} FirstTruthyIsFirst(row: SheetRow, keys: seq<string>)
    ensures (forall i :: 0 <= i < |keys| ==> !Truthy(row, keys[i])) ==> FirstTruthy(row, keys) == ""
    ensures forall i :: (0 <= i < |keys| && Truthy(row, keys[i])
                         && forall j :: 0 <= j < i ==> !Truthy(row, keys[j]))
                        ==> FirstTruthy(row, keys) == row[keys[i]]
    ensures FirstTruthy(row, keys) != "" ==>
              exists i :: 0 <= i < |keys| && keys[i] in row && FirstTruthy(row, keys) == row[keys[i]]
  {
    if keys != [] && !Truthy(row, keys[0]) {
      FirstTruthyIsFirst(row, keys[1..]);
      assert forall i :: 1 <= i < |keys| ==> keys[i] == keys[1..][i - 1];
      if FirstTruthy(row, keys) != "" {
        var i :| 0 <= i < |keys[1..]| && keys[1..][i] in row && FirstTruthy(row, keys) == row[keys[1..][i]];
        assert keys[i + 1] == keys[1..][i];
      }
    }
  }

  /** The `rawData` record built from a sheet row: each field is looked up
      through its aliases and trimmed, and the category is upper-cased. */
  function NormaliseRow(row: SheetRow): Participant {
    Participant(Trim(FirstTruthy(row, NOME_KEYS)),
                ToUpper(Trim(FirstTruthy(row, CATEGORIA_KEYS))),
                Trim(FirstTruthy(row, COSPLAY_KEYS)))
  }

  /** A normalised row has no surrounding whitespace in any field, and its
      category holds no letter that `UpperChar` maps (a-z, and U+00E0-U+00FE
      except U+00F7). */
  lemma NormalisedRowIsTrimmed(row: SheetRow)
    ensures var p := NormaliseRow(row);
      && Trim(p.nome) == p.nome && Trim(p.categoria) == p.categoria && Trim(p.cosplay) == p.cosplay
      && forall i :: 0 <= i < |p.categoria| ==> !IsLowerLetter(p.categoria[i])
  {
    var c := Trim(FirstTruthy(row, CATEGORIA_KEYS));
    TrimIdempotent(FirstTruthy(row, NOME_KEYS));
    TrimIdempotent(FirstTruthy(row, COSPLAY_KEYS));
    ToUpperIdempotent(c);
    UpperOfTrimmed(FirstTruthy(row, CATEGORIA_KEYS));
  }

  predicate IsBlank(p: Participant) {
    p.nome == "" && p.categoria == "" && p.cosplay == ""
  }

  /** The error line for the row at `index` of the list: the sheet line is
      `index + 2`, one for the header row and one for counting from 1. */
  function LineError(index: nat, message: string): string {
    "Linha " + NatToString(index + LINE_OFFSET) + ": " + message
  }

  function ToExcelRow(p: Participant): ExcelRow {
    ExcelRow(p.nome, p.categoria, p.cosplay)
  }

  function AsParticipant(r: ExcelRow): Participant {
    Participant(r.nome, r.categoria, r.cosplay)
  }

  /** What one row of the sheet contributes to the import. */
  datatype RowOutcome = Skipped | Accepted(row: ExcelRow) | Rejected(error: string)

  /** The row at `index`: skipped when its normalised fields are all empty,
      otherwise the parsed record, or the line error of the first issue. */
  function ClassifyRow(row: SheetRow, index: nat, categories: set<string>): (r: RowOutcome)
    ensures r.Skipped? <==> IsBlank(NormaliseRow(row))
  {
    ClassifyRecord(NormaliseRow(row), index, categories)
  }

  function ClassifyRecord(p: Participant, index: nat, categories: set<string>): (r: RowOutcome)
    ensures r.Skipped? <==> IsBlank(p)
  {
    if IsBlank(p) then Skipped
    else match ParseParticipant(p, categories)
      case Success(v) => Accepted(ToExcelRow(v))
      case Failure(issues) => Rejected(LineError(index, issues[0]))
  }

  /** The outcome of every row, in sheet order. */
  function Outcomes(sheet: seq<SheetRow>, categories: set<string>): (outs: seq<RowOutcome>)
    ensures |outs| == |sheet|
    ensures forall i :: 0 <= i < |sheet| ==> outs[i] == ClassifyRow(sheet[i], i, categories)
  {
    seq(|sheet|, i requires 0 <= i < |sheet| => ClassifyRow(sheet[i], i, categories))
  }

  /** What one outcome adds to `rows`. */
  function Kept(o: RowOutcome): seq<ExcelRow> {
    if o.Accepted? then [o.row] else []
  }

  /** What one outcome adds to `errors`. */
  function Reported(o: RowOutcome): seq<string> {
    if o.Rejected? then [o.error] else []
  }

  /** The accepted records of a run of outcomes, in order (`rows`). */
  function AcceptedRows(outs: seq<RowOutcome>): seq<ExcelRow> {
    if outs == [] then []
    else AcceptedRows(outs[..|outs| - 1])
         + Kept(outs[|outs| - 1])
  }

  /** The error lines of a run of outcomes, in order (`errors`). */
  function ErrorLines(outs: seq<RowOutcome>): seq<string> {
    if outs == [] then []
    else ErrorLines(outs[..|outs| - 1])
         + Reported(outs[|outs| - 1])
  }

  /** How many outcomes are not skips. */
  function NonBlankCount(outs: seq<RowOutcome>): nat {
    if outs == [] then 0
    else NonBlankCount(outs[..|outs| - 1]) + if outs[|outs| - 1].Skipped? then 0 else 1
  }

  function ValidRows(sheet: seq<SheetRow>, categories: set<string>): seq<ExcelRow> {
    AcceptedRows(Outcomes(sheet, categories))
  }

  function RowErrors(sheet: seq<SheetRow>, categories: set<string>): seq<string> {
    ErrorLines(Outcomes(sheet, categories))
  }

  /** The first five error lines, then how many more there were. */
  function OverflowLine(extra: nat): string {
    "... e mais " + NatToString(extra) + " erros"
  }

  function BatchMessage(errors: seq<string>): string {
    var shown := if |errors| < MAX_SHOWN_ERRORS then |errors| else MAX_SHOWN_ERRORS;
    BATCH_HEADER + "\n" + Join(errors[..shown], "\n")
    + if |errors| > MAX_SHOWN_ERRORS then "\n" + OverflowLine(|errors| - MAX_SHOWN_ERRORS) else ""
  }

  /** The final verdict on the collected rows and errors: any error rejects
      the whole batch; otherwise no rows is an error too. */
  function Verdict(rows: seq<ExcelRow>, errors: seq<string>): (r: ImportResult)
    ensures r.Ok? <==> errors == [] && rows != []
    ensures r.Ok? ==> r.rows == rows
  {
    if |errors| > 0 then Err(BatchMessage(errors))
    else if |rows| == 0 then Err(NO_VALID_DATA)
    else Ok(rows)
  }

  /** The `forEach` callback of `readExcelFile` on the row at `index`:
      a blank row adds nothing, a valid one adds its record, and an invalid
      one adds the line error of its first issue. */
  method ImportRow(row: SheetRow, index: nat, categories: set<string>,
                   rows: seq<ExcelRow>, errors: seq<string>)
      returns (rows': seq<ExcelRow>, errors': seq<string>)
    ensures rows' == rows + Kept(ClassifyRow(row, index, categories))
    ensures errors' == errors + Reported(ClassifyRow(row, index, categories))
  {
    var rawData := NormaliseRow(row);
    rows', errors' := ImportRecord(rawData, index, categories, rows, errors);
  }

  method ImportRecord(rawData: Participant, index: nat, categories: set<string>,
                   rows: seq<ExcelRow>, errors: seq<string>)
      returns (rows': seq<ExcelRow>, errors': seq<string>)
    ensures rows' == rows + Kept(ClassifyRecord(rawData, index, categories))
    ensures errors' == errors + Reported(ClassifyRecord(rawData, index, categories))
  {
    if IsBlank(rawData) {
      rows', errors' := rows, errors;
    } else {
      var parsed := ParseParticipant(rawData, categories);
      if parsed.Success? {
        var v := parsed.value;
        rows', errors' := rows + [ExcelRow(v.nome, v.categoria, v.cosplay)], errors;
      } else {
        rows', errors' := rows, errors + [LineError(index, parsed.issues[0])];
      }
    }
  }

  /** The row loop of `readExcelFile`, on the rows already read from the
      first sheet; `categories` stands for `CATEGORIES`. */
  method ReadRows(sheet: seq<SheetRow>, categories: set<string>) returns (result: ImportResult)
    ensures result == Verdict(ValidRows(sheet, categories), RowErrors(sheet, categories))
  {
    ghost var outs := Outcomes(sheet, categories);
    var rows: seq<ExcelRow> := [];
    var errors: seq<string> := [];
    var index := 0;
    assert outs[..index] == [];
    while index < |sheet|
      invariant 0 <= index <= |sheet|
      invariant rows == AcceptedRows(outs[..index])
      invariant errors == ErrorLines(outs[..index])
    {
      OutcomeStep(outs, index);
      rows, errors := ImportRow(sheet[index], index, categories, rows, errors);
      index := index + 1;
    }
    assert outs[..index] == outs;
    if |errors| > 0 {
      return Err(BatchMessage(errors));
    }
    if |rows| == 0 {
      return Err(NO_VALID_DATA);
    }
    return Ok(rows);
  }

  /** One more outcome extends the records or the errors by what it holds. */
  lemma OutcomeStep(outs: seq<RowOutcome>, i: nat)
    requires i < |outs|
    ensures AcceptedRows(outs[..i + 1])
            == AcceptedRows(outs[..i]) + Kept(outs[i])
    ensures ErrorLines(outs[..i + 1])
            == ErrorLines(outs[..i]) + Reported(outs[i])
  {
    assert outs[..i + 1][..i] == outs[..i];
  }

  // ----- properties of the import -----

  /** Every outcome that is not a skip adds exactly one record or one error. */
  lemma {:induction false} ImportCounts(outs: seq<RowOutcome>)
    ensures |AcceptedRows(outs)| + |ErrorLines(outs)| == NonBlankCount(outs)
  {
    if outs != [] {
      ImportCounts(outs[..|outs| - 1]);
    }
  }

  /** The error of a rejected outcome sits right after the errors of the
      outcomes before it. */
  lemma {:induction false} ErrorPosition(outs: seq<RowOutcome>, i: nat)
    requires i < |outs| && outs[i].Rejected?
    ensures |ErrorLines(outs[..i])| < |ErrorLines(outs)|
    ensures ErrorLines(outs)[|ErrorLines(outs[..i])|] == outs[i].error
  {
    var prefix := outs[..|outs| - 1];
    if i < |outs| - 1 {
      assert prefix[..i] == outs[..i];
      ErrorPosition(prefix, i);
    } else {
      assert prefix == outs[..i];
    }
  }

  /** The record of an accepted outcome sits right after the records of the
      outcomes before it. */
  lemma {:induction false} RowPosition(outs: seq<RowOutcome>, i: nat)
    requires i < |outs| && outs[i].Accepted?
    ensures |AcceptedRows(outs[..i])| < |AcceptedRows(outs)|
    ensures AcceptedRows(outs)[|AcceptedRows(outs[..i])|] == outs[i].row
  {
    var prefix := outs[..|outs| - 1];
    if i < |outs| - 1 {
      assert prefix[..i] == outs[..i];
      RowPosition(prefix, i);
    } else {
      assert prefix == outs[..i];
    }
  }

  /** A later rejected outcome has a later error, so errors keep row order. */
  lemma {:induction false} ErrorsKeepOrder(outs: seq<RowOutcome>, i: nat, j: nat)
    requires i < j <= |outs| && outs[i].Rejected?
    ensures |ErrorLines(outs[..i])| < |ErrorLines(outs[..j])|
  {
    if j == i + 1 {
      assert outs[..j][..i] == outs[..i];
    } else {
      ErrorsKeepOrder(outs, i, j - 1);
      assert outs[..j][..j - 1] == outs[..j - 1];
    }
  }

  /** Every error line is the error of some rejected outcome. */
  lemma {:induction false} ErrorsFromRejected(outs: seq<RowOutcome>, k: nat)
    requires k < |ErrorLines(outs)|
    ensures exists i :: 0 <= i < |outs| && outs[i].Rejected? && ErrorLines(outs)[k] == outs[i].error
  {
    var prefix := outs[..|outs| - 1];
    if k < |ErrorLines(prefix)| {
      ErrorsFromRejected(prefix, k);
      var i :| 0 <= i < |prefix| && prefix[i].Rejected? && ErrorLines(prefix)[k] == prefix[i].error;
      assert outs[i] == prefix[i];
    } else {
      assert outs[|outs| - 1].Rejected?;
    }
  }

  /** Every record is the record of some accepted outcome. */
  lemma {:induction false} RowsFromAccepted(outs: seq<RowOutcome>, k: nat)
    requires k < |AcceptedRows(outs)|
    ensures exists i :: 0 <= i < |outs| && outs[i].Accepted? && AcceptedRows(outs)[k] == outs[i].row
  {
    var prefix := outs[..|outs| - 1];
    if k < |AcceptedRows(prefix)| {
      RowsFromAccepted(prefix, k);
      var i :| 0 <= i < |prefix| && prefix[i].Accepted? && AcceptedRows(prefix)[k] == prefix[i].row;
      assert outs[i] == prefix[i];
    } else {
      assert outs[|outs| - 1].Accepted?;
    }
  }

  /** A row that is not blank and fails the schema yields the error
      `Linha <index+2>: <first issue>`, where `index` counts the blank rows
      before it too; it is preceded in the error list by exactly the errors
      of the rows above it. */
  lemma ErrorOfRow(sheet: seq<SheetRow>, categories: set<string>, index: nat)
    requires index < |sheet|
    requires !IsBlank(NormaliseRow(sheet[index]))
    requires ParseParticipant(NormaliseRow(sheet[index]), categories).Failure?
    ensures var outs := Outcomes(sheet, categories);
      var k := |ErrorLines(outs[..index])|;
      && k < |RowErrors(sheet, categories)|
      && RowErrors(sheet, categories)[k]
         == LineError(index, ParseParticipant(NormaliseRow(sheet[index]), categories).issues[0])
  {
    ErrorPosition(Outcomes(sheet, categories), index);
  }

  /** A row that passes the schema yields its parsed record, preceded in the
      result by exactly the records of the rows above it. */
  lemma RowOfRow(sheet: seq<SheetRow>, categories: set<string>, index: nat)
    requires index < |sheet|
    requires !IsBlank(NormaliseRow(sheet[index]))
    requires ParseParticipant(NormaliseRow(sheet[index]), categories).Success?
    ensures var outs := Outcomes(sheet, categories);
      var k := |AcceptedRows(outs[..index])|;
      && k < |ValidRows(sheet, categories)|
      && ValidRows(sheet, categories)[k]
         == ToExcelRow(ParseParticipant(NormaliseRow(sheet[index]), categories).value)
  {
    RowPosition(Outcomes(sheet, categories), index);
  }

  /** The indices of the rows that are not blank once normalised. */
  function FilledIndices(sheet: seq<SheetRow>): set<nat> {
    set i: nat | i < |sheet| && !IsBlank(NormaliseRow(sheet[i]))
  }

  /** The first `n` indices whose outcome is not a skip. */
  function NotSkipped(outs: seq<RowOutcome>, n: nat): set<nat>
    requires n <= |outs|
  {
    set i: nat | i < n && !outs[i].Skipped?
  }

  /** |rows| + |errors| is the number of rows that are not blank. */
  lemma RowsPlusErrors(sheet: seq<SheetRow>, categories: set<string>)
    ensures |ValidRows(sheet, categories)| + |RowErrors(sheet, categories)| == |FilledIndices(sheet)|
  {
    FilledAreNotSkipped(sheet, categories);
    CountsAreNotSkipped(Outcomes(sheet, categories));
  }

  lemma FilledAreNotSkipped(sheet: seq<SheetRow>, categories: set<string>)
    ensures NotSkipped(Outcomes(sheet, categories), |sheet|) == FilledIndices(sheet)
  {
    var outs := Outcomes(sheet, categories);
    forall i: nat | i < |sheet| ensures i in NotSkipped(outs, |outs|) <==> i in FilledIndices(sheet) {
      assert outs[i] == ClassifyRow(sheet[i], i, categories);
    }
  }

  lemma CountsAreNotSkipped(outs: seq<RowOutcome>)
    ensures |AcceptedRows(outs)| + |ErrorLines(outs)| == |NotSkipped(outs, |outs|)|
  {
    ImportCounts(outs);
    NonBlankCountIsSize(outs, |outs|);
    assert outs[..|outs|] == outs;
  }

  lemma {:induction false} NonBlankCountIsSize(outs: seq<RowOutcome>, n: nat)
    requires n <= |outs|
    ensures NonBlankCount(outs[..n]) == |NotSkipped(outs, n)|
  {
    if n > 0 {
      NonBlankCountIsSize(outs, n - 1);
      assert outs[..n][..n - 1] == outs[..n - 1];
      if outs[n - 1].Skipped? {
        assert NotSkipped(outs, n) == NotSkipped(outs, n - 1);
      } else {
        assert NotSkipped(outs, n) == NotSkipped(outs, n - 1) + {n - 1};
      }
    }
  }

  /** The line number can be read back off an error line. */
  lemma LineErrorLine(i: nat, m1: string, j: nat, m2: string)
    requires LineError(i, m1) == LineError(j, m2)
    ensures i == j
  {
    var a, b := NatToString(i + LINE_OFFSET), NatToString(j + LINE_OFFSET);
    var s := LineError(i, m1);
    assert s[6..] == a + (": " + m1) && s[6..] == b + (": " + m2);
    LeadingDigitsOf(a, ": " + m1);
    LeadingDigitsOf(b, ": " + m2);
    NatToStringInjective(i + LINE_OFFSET, j + LINE_OFFSET);
  }

  /** A blank row, including one whose cells hold only whitespace, is never
      named in any error line. */
  lemma BlankRowNeverReported(sheet: seq<SheetRow>, categories: set<string>, index: nat)
    requires index < |sheet|
    requires IsBlank(NormaliseRow(sheet[index]))
    ensures forall k, m :: 0 <= k < |RowErrors(sheet, categories)| ==>
              RowErrors(sheet, categories)[k] != LineError(index, m)
  {
    var outs := Outcomes(sheet, categories);
    var errs := ErrorLines(outs);
    forall k, m | 0 <= k < |errs| ensures errs[k] != LineError(index, m) {
      ErrorsFromRejected(outs, k);
      var other :| 0 <= other < |outs| && outs[other].Rejected? && errs[k] == outs[other].error;
      var p := NormaliseRow(sheet[other]);
      var first := ParseParticipant(p, categories).issues[0];
      assert errs[k] == LineError(other, first);
      if errs[k] == LineError(index, m) {
        LineErrorLine(other, first, index, m);
      }
    }
  }

  /** A row whose cells are missing or hold only whitespace is skipped. */
  lemma WhitespaceRowSkipped(row: SheetRow, index: nat, categories: set<string>)
    requires forall k :: k in row ==> AllWhitespace(row[k])
    ensures ClassifyRow(row, index, categories) == Skipped
  {
    var n, c, o := FirstTruthy(row, NOME_KEYS), FirstTruthy(row, CATEGORIA_KEYS), FirstTruthy(row, COSPLAY_KEYS);
    FirstTruthyIsFirst(row, NOME_KEYS);
    FirstTruthyIsFirst(row, CATEGORIA_KEYS);
    FirstTruthyIsFirst(row, COSPLAY_KEYS);
    assert AllWhitespace(n) && AllWhitespace(c) && AllWhitespace(o);
    TrimEmptyIff(n);
    TrimEmptyIff(c);
    TrimEmptyIff(o);
  }

  /** Lookup takes the first truthy cell before trimming, so a cell of
      spaces under `nome` hides a filled-in `Nome`. */
  lemma WhitespaceAliasShadowsLater()
    ensures NormaliseRow(map["nome" := " ", "Nome" := "Ana"]).nome == ""
  {
    var row := map["nome" := " ", "Nome" := "Ana"];
    assert Truthy(row, NOME_KEYS[0]);
    assert FirstTruthy(row, NOME_KEYS) == " ";
    TrimEmptyIff(" ");
  }

  /** An accepted row holds a record that passes the schema unchanged. */
  lemma AcceptedRowIsParsed(row: SheetRow, index: nat, categories: set<string>)
    requires ClassifyRow(row, index, categories).Accepted?
    ensures var p := AsParticipant(ClassifyRow(row, index, categories).row);
      ParseParticipant(p, categories) == Success(p)
  {
    ParseIdempotent(NormaliseRow(row), categories);
  }

  /** Every imported record passes the participant schema unchanged. */
  lemma ValidRowsAreParsed(sheet: seq<SheetRow>, categories: set<string>, k: nat)
    requires k < |ValidRows(sheet, categories)|
    ensures var p := AsParticipant(ValidRows(sheet, categories)[k]);
      ParseParticipant(p, categories) == Success(p)
  {
    var outs := Outcomes(sheet, categories);
    RowsFromAccepted(outs, k);
    var i :| 0 <= i < |outs| && outs[i].Accepted? && AcceptedRows(outs)[k] == outs[i].row;
    AcceptedRowIsParsed(sheet[i], i, categories);
  }

  lemma DigitsSingleLine(s: string)
    requires AllDigits(s)
    ensures SingleLine(s)
  {
    forall i | 0 <= i < |s| ensures s[i] != '\n' {
      assert IsDigit(s[i]);
    }
  }

  /** A line error is one line when its message is. */
  lemma LineErrorSingleLine(index: nat, message: string)
    requires SingleLine(message)
    ensures SingleLine(LineError(index, message))
  {
    DigitsSingleLine(NatToString(index + LINE_OFFSET));
    assert SingleLine("Linha ");
    assert SingleLine(": ");
  }

  /** A rejected row's error is a single line. */
  lemma RejectedRowSingleLine(row: SheetRow, index: nat, categories: set<string>)
    requires ClassifyRow(row, index, categories).Rejected?
    ensures SingleLine(ClassifyRow(row, index, categories).error)
  {
    var p := NormaliseRow(row);
    var issues := ParseParticipant(p, categories).issues;
    assert ClassifyRow(row, index, categories).error == LineError(index, issues[0]);
    IssuesSingleLine(p, categories);
    LineErrorSingleLine(index, issues[0]);
  }

  lemma RowErrorsSingleLine(sheet: seq<SheetRow>, categories: set<string>)
    ensures forall k :: 0 <= k < |RowErrors(sheet, categories)| ==>
              SingleLine(RowErrors(sheet, categories)[k])
  {
    var outs := Outcomes(sheet, categories);
    forall k | 0 <= k < |ErrorLines(outs)| ensures SingleLine(ErrorLines(outs)[k]) {
      ErrorsFromRejected(outs, k);
      var i :| 0 <= i < |outs| && outs[i].Rejected? && ErrorLines(outs)[k] == outs[i].error;
      RejectedRowSingleLine(sheet[i], i, categories);
    }
  }

  lemma HeaderSingleLine()
    ensures SingleLine(BATCH_HEADER)
  {
    assert SingleLine(BATCH_HEADER);
  }

  lemma OverflowSingleLine(extra: nat)
    ensures SingleLine(OverflowLine(extra))
  {
    DigitsSingleLine(NatToString(extra));
    assert SingleLine("... e mais ");
    assert SingleLine(" erros");
  }

  /** Cut at line feeds, the rejection message of a batch with errors is the
      header, then exactly the first min(k, 5) errors, then, only when there
      are more than five, the line counting the rest. */
  lemma BatchMessageLines(errors: seq<string>)
    requires |errors| > 0
    requires forall i :: 0 <= i < |errors| ==> SingleLine(errors[i])
    ensures var shown := if |errors| < MAX_SHOWN_ERRORS then |errors| else MAX_SHOWN_ERRORS;
      SplitLines(BatchMessage(errors))
      == [BATCH_HEADER] + errors[..shown]
         + if |errors| > MAX_SHOWN_ERRORS then [OverflowLine(|errors| - MAX_SHOWN_ERRORS)] else []
  {
    var shown := if |errors| < MAX_SHOWN_ERRORS then |errors| else MAX_SHOWN_ERRORS;
    var listed := errors[..shown];
    var lines := listed + if |errors| > MAX_SHOWN_ERRORS then [OverflowLine(|errors| - MAX_SHOWN_ERRORS)] else [];
    HeaderSingleLine();
    if |errors| > MAX_SHOWN_ERRORS {
      OverflowSingleLine(|errors| - MAX_SHOWN_ERRORS);
      JoinSnoc(listed, OverflowLine(|errors| - MAX_SHOWN_ERRORS), "\n");
    } else {
      assert lines == listed;
    }
    assert BatchMessage(errors) == BATCH_HEADER + "\n" + Join(lines, "\n");
    HeadedLines(BATCH_HEADER, lines);
  }

  /** The three verdicts of an import: rejected with the capped error list
      when any row failed, rejected as empty when no row was filled in, and
      otherwise every filled-in row, valid, in sheet order. */
  lemma ImportVerdict(sheet: seq<SheetRow>, categories: set<string>)
    ensures var rows, errors := ValidRows(sheet, categories), RowErrors(sheet, categories);
      var r := Verdict(rows, errors);
      var k := |errors|;
      var filled := |FilledIndices(sheet)|;
      && (k > 0 ==> (r.Err? && SplitLines(r.message)
            == [BATCH_HEADER] + errors[..if k < MAX_SHOWN_ERRORS then k else MAX_SHOWN_ERRORS]
               + if k > MAX_SHOWN_ERRORS then [OverflowLine(k - MAX_SHOWN_ERRORS)] else []))
      && (k == 0 && filled == 0 ==> r == Err(NO_VALID_DATA))
      && (k == 0 && filled > 0 ==> r == Ok(rows) && |rows| == filled)
  {
    var errors := RowErrors(sheet, categories);
    RowsPlusErrors(sheet, categories);
    if |errors| > 0 {
      RowErrorsSingleLine(sheet, categories);
      BatchMessageLines(errors);
    }
  }

  // ----- exportRankingToExcel -----

  /** A ranked participant, with its statistics left abstract (`S`). */
  datatype Entrant = Entrant(nome: string, cosplay: string)
  datatype Winner<S> = Winner(it: Entrant, media: S, med: S, desv: S)
  datatype CategoryRanking<S> = CategoryRanking(categoria: string, ganhadores: seq<Winner<S>>)

  /** A row of the ranking sheet: a winner, or the empty row `{}` that
      separates categories. */
  datatype ExportRow<S> =
    | BlankRow
    | WinnerRow(posicao: nat, categoria: string, nome: string, cosplay: string,
                media: S, mediana: S, desvio: S)

  const EXPORT_COLUMNS: seq<string> :=
    ["Posição", "Categoria", "Nome", "Personagem/Cosplay", "Média", "Mediana", "Desvio Padrão"]

  /** A cell of the ranking sheet: the position, a text, or a statistic. */
  datatype Cell<S> = Position(n: nat) | Text(s: string) | Statistic(v: S)

  /** The object `data.push` receives for each row `ExportRanking` returns,
      keyed by column header: a winner's seven columns, or the empty object
      for the separator. */
  function ExportCells<S>(row: ExportRow<S>): map<string, Cell<S>> {
    match row
    case BlankRow => map[]
    case WinnerRow(posicao, categoria, nome, cosplay, media, mediana, desvio) =>
      map[EXPORT_COLUMNS[0] := Position(posicao), EXPORT_COLUMNS[1] := Text(categoria),
          EXPORT_COLUMNS[2] := Text(nome), EXPORT_COLUMNS[3] := Text(cosplay),
          EXPORT_COLUMNS[4] := Statistic(media), EXPORT_COLUMNS[5] := Statistic(mediana),
          EXPORT_COLUMNS[6] := Statistic(desvio)]
  }

  /** A winner's object fills every column, each field under its own header
      (the seven headers are distinct), and the separator fills none. */
  lemma ExportCellsColumns<S>(row: ExportRow<S>)
    ensures forall i, j :: 0 <= i < j < |EXPORT_COLUMNS| ==> EXPORT_COLUMNS[i] != EXPORT_COLUMNS[j]
    ensures row.BlankRow? ==> ExportCells(row).Keys == {}
    ensures row.WinnerRow? ==>
      && ExportCells(row).Keys == set c | c in EXPORT_COLUMNS
      && ExportCells(row)[EXPORT_COLUMNS[0]] == Position(row.posicao)
      && ExportCells(row)[EXPORT_COLUMNS[1]] == Text(row.categoria)
      && ExportCells(row)[EXPORT_COLUMNS[2]] == Text(row.nome)
      && ExportCells(row)[EXPORT_COLUMNS[3]] == Text(row.cosplay)
      && ExportCells(row)[EXPORT_COLUMNS[4]] == Statistic(row.media)
      && ExportCells(row)[EXPORT_COLUMNS[5]] == Statistic(row.mediana)
      && ExportCells(row)[EXPORT_COLUMNS[6]] == Statistic(row.desvio)
  {
    var cols := EXPORT_COLUMNS;
    assert cols[0][0] == 'P' && cols[1][0] == 'C' && cols[2][0] == 'N' && cols[3][0] == 'P';
    assert cols[4][0] == 'M' && cols[5][0] == 'M' && cols[6][0] == 'D';
    assert |cols[0]| != |cols[3]| && |cols[4]| != |cols[5]|;
  }

  function WinnerRowAt<S>(categoria: string, w: Winner<S>, index: nat): ExportRow<S> {
    WinnerRow(index + 1, categoria, w.it.nome, w.it.cosplay, w.media, w.med, w.desv)
  }

  function CategoryEntries<S>(categoria: string, ws: seq<Winner<S>>): seq<ExportRow<S>> {
    seq(|ws|, k requires 0 <= k < |ws| => WinnerRowAt(categoria, ws[k], k))
  }

  /** The rows of one category: its winners, then one empty row. */
  function CategoryBlock<S>(c: CategoryRanking<S>): seq<ExportRow<S>> {
    CategoryEntries(c.categoria, c.ganhadores) + [BlankRow]
  }

  function FlattenRanking<S>(rankings: seq<CategoryRanking<S>>): seq<ExportRow<S>> {
    if rankings == [] then []
    else FlattenRanking(rankings[..|rankings| - 1]) + CategoryBlock(rankings[|rankings| - 1])
  }

  function TotalWinners<S>(rankings: seq<CategoryRanking<S>>): nat {
    if rankings == [] then 0
    else TotalWinners(rankings[..|rankings| - 1]) + |rankings[|rankings| - 1].ganhadores|
  }

  /** Where the rows of category `c` start in the sheet. */
  function BlockStart<S>(rankings: seq<CategoryRanking<S>>, c: nat): nat
    requires c <= |rankings|
  {
    TotalWinners(rankings[..c]) + c
  }

  lemma {:induction false} FlattenLength<S>(rankings: seq<CategoryRanking<S>>)
    ensures |FlattenRanking(rankings)| == TotalWinners(rankings) + |rankings|
  {
    if rankings != [] {
      FlattenLength(rankings[..|rankings| - 1]);
    }
  }

  /** Inside the rows of category `c`, the `j`-th winner has position `j+1`,
      and the row after the last winner is the empty separator. */
  lemma {:induction false} FlattenLayout<S>(rankings: seq<CategoryRanking<S>>, c: nat, j: nat)
    requires c < |rankings| && j <= |rankings[c].ganhadores|
    ensures BlockStart(rankings, c) + j < |FlattenRanking(rankings)|
    ensures var g := rankings[c].ganhadores;
      FlattenRanking(rankings)[BlockStart(rankings, c) + j]
      == if j < |g| then
           WinnerRow(j + 1, rankings[c].categoria, g[j].it.nome, g[j].it.cosplay,
                     g[j].media, g[j].med, g[j].desv)
         else BlankRow
  {
    var prefix := rankings[..|rankings| - 1];
    FlattenLength(prefix);
    FlattenLength(rankings);
    if c == |rankings| - 1 {
      assert rankings[..c] == prefix;
    } else {
      assert rankings[..c] == prefix[..c];
      FlattenLayout(prefix, c, j);
    }
  }

  /** The row-building loops of `exportRankingToExcel`: the rows handed to
      the sheet writer. */
  method ExportRanking<S>(rankings: seq<CategoryRanking<S>>) returns (data: seq<ExportRow<S>>)
    ensures data == FlattenRanking(rankings)
    ensures |data| == TotalWinners(rankings) + |rankings|
  {
    data := [];
    var c := 0;
    while c < |rankings|
      invariant 0 <= c <= |rankings|
      invariant data == FlattenRanking(rankings[..c])
    {
      var categoria, ganhadores := rankings[c].categoria, rankings[c].ganhadores;
      var index := 0;
      while index < |ganhadores|
        invariant 0 <= index <= |ganhadores|
        invariant data == FlattenRanking(rankings[..c]) + CategoryEntries(categoria, ganhadores[..index])
      {
        var ganhador := ganhadores[index];
        data := data + [WinnerRow(index + 1, categoria, ganhador.it.nome, ganhador.it.cosplay,
                                  ganhador.media, ganhador.med, ganhador.desv)];
        assert ganhadores[..index + 1][..index] == ganhadores[..index];
        index := index + 1;
      }
      assert ganhadores[..index] == ganhadores;
      data := data + [BlankRow];
      assert rankings[..c + 1][..c] == rankings[..c];
      c := c + 1;
    }
    assert rankings[..c] == rankings;
    FlattenLength(rankings);
  }

  // ----- downloadExcelTemplate -----

  /** The sample rows of the import template, in column order nome,
      categoria, cosplay. */
  const TEMPLATE: seq<ExcelRow> := [
    ExcelRow("João Silva", "ANIME", "Naruto Uzumaki"),
    ExcelRow("Maria Santos", "GAME", "Lara Croft"),
    ExcelRow("Pedro Costa", "GEEK", "Spider-Man")
  ]

  /** The sheet rows the template reads back as: one cell per column. */
  function TemplateRow(r: ExcelRow): SheetRow {
    map["nome" := r.nome, "categoria" := r.categoria, "cosplay" := r.cosplay]
  }

  function TemplateSheet(): seq<SheetRow> {
    seq(|TEMPLATE|, i requires 0 <= i < |TEMPLATE| => TemplateRow(TEMPLATE[i]))
  }

  /** The template, filled in as shipped, imports without error to its own
      rows whenever its three categories are valid. */
  lemma TemplateImports(categories: set<string>)
    requires "ANIME" in categories && "GAME" in categories && "GEEK" in categories
    ensures Verdict(ValidRows(TemplateSheet(), categories), RowErrors(TemplateSheet(), categories))
            == Ok(TEMPLATE)
  {
    var sheet := TemplateSheet();
    var outs := Outcomes(sheet, categories);
    forall i | 0 <= i < |TEMPLATE| ensures outs[i] == Accepted(TEMPLATE[i]) {
      TemplateRowAccepted(i, i, categories);
    }
    AllAccepted(outs, TEMPLATE);
  }

  /** A run of outcomes that are all acceptances yields exactly their
      records and no error. */
  lemma {:induction false} AllAccepted(outs: seq<RowOutcome>, rows: seq<ExcelRow>)
    requires |outs| == |rows|
    requires forall i :: 0 <= i < |rows| ==> outs[i] == Accepted(rows[i])
    ensures AcceptedRows(outs) == rows && ErrorLines(outs) == []
  {
    if outs != [] {
      var n := |outs| - 1;
      AllAccepted(outs[..n], rows[..n]);
      assert AcceptedRows(outs) == rows[..n] + Kept(outs[n]);
      assert ErrorLines(outs) == [] + Reported(outs[n]);
      SplitLast(rows);
    }
  }

  lemma SplitLast<T>(s: seq<T>)
    requires |s| > 0
    ensures s == s[..|s| - 1] + [s[|s| - 1]]
  {
  }

  /** Each sample row of the template is accepted as itself. */
  lemma TemplateRowAccepted(i: nat, index: nat, categories: set<string>)
    requires i < |TEMPLATE|
    requires "ANIME" in categories && "GAME" in categories && "GEEK" in categories
    ensures ClassifyRow(TemplateRow(TEMPLATE[i]), index, categories) == Accepted(TEMPLATE[i])
  {
    TemplateRowClean(i);
    CleanRowAccepted(TEMPLATE[i], index, categories);
  }

  /** Text with nothing to trim: non-empty, no whitespace at either end. */
  predicate Unpadded(s: string) {
    s != "" && !IsWhitespace(s[0]) && !IsWhitespace(s[|s| - 1])
  }

  /** A record already in normal form that passes the schema's character
      classes and length limits. */
  predicate CleanRecord(r: ExcelRow) {
    && Unpadded(r.categoria) && ToUpper(r.categoria) == r.categoria
    && Unpadded(r.nome) && MatchesNomePattern(r.nome) && |r.nome| <= NOME_MAX
    && Unpadded(r.cosplay) && MatchesCosplayPattern(r.cosplay) && |r.cosplay| <= COSPLAY_MAX
  }

  /** A clean record with a known category, written as a template row,
      imports as itself. */
  lemma CleanRowAccepted(r: ExcelRow, index: nat, categories: set<string>)
    requires CleanRecord(r) && r.categoria in categories
    ensures ClassifyRow(TemplateRow(r), index, categories) == Accepted(r)
  {
    var row := TemplateRow(r);
    assert NOME_KEYS[0] == "nome" && CATEGORIA_KEYS[0] == "categoria" && COSPLAY_KEYS[0] == "cosplay";
    assert FirstTruthy(row, NOME_KEYS) == r.nome;
    assert FirstTruthy(row, CATEGORIA_KEYS) == r.categoria;
    assert FirstTruthy(row, COSPLAY_KEYS) == r.cosplay;
    UnpaddedTrim(r.nome);
    UnpaddedTrim(r.categoria);
    UnpaddedTrim(r.cosplay);
    PatternLength(r.nome);
    PatternLength(r.cosplay);
    assert NormaliseRow(row) == AsParticipant(r);
  }

  lemma TemplateRowClean(i: nat)
    requires i < |TEMPLATE|
    ensures CleanRecord(TEMPLATE[i])
    ensures TEMPLATE[i].categoria == "ANIME" || TEMPLATE[i].categoria == "GAME" || TEMPLATE[i].categoria == "GEEK"
  {
    var r := TEMPLATE[i];
    assert r == ExcelRow("João Silva", "ANIME", "Naruto Uzumaki")
        || r == ExcelRow("Maria Santos", "GAME", "Lara Croft")
        || r == ExcelRow("Pedro Costa", "GEEK", "Spider-Man");
    SampleCategoria(r.categoria);
    SampleNome(r.nome);
    SampleCosplay(r.cosplay);
  }

  lemma SampleCategoria(s: string)
    requires s == "ANIME" || s == "GAME" || s == "GEEK"
    ensures Unpadded(s) && ToUpper(s) == s
  {
    NoLowerIsUpper(s);
  }

  lemma SampleNome(s: string)
    requires s == "João Silva" || s == "Maria Santos" || s == "Pedro Costa"
    ensures Unpadded(s) && MatchesNomePattern(s) && |s| <= NOME_MAX
  {
  }

  lemma SampleCosplay(s: string)
    requires s == "Naruto Uzumaki" || s == "Lara Croft" || s == "Spider-Man"
    ensures Unpadded(s) && MatchesCosplayPattern(s) && |s| <= COSPLAY_MAX
  {
  }
}
