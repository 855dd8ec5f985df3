/** The import of an hours sheet (server/services/xlsx-processor.ts): phone
    normalisation, the hours cell check, and the loop over the rows and the
    date columns of the first sheet. The workbook reader is out of scope:
    the first sheet arrives as its list of row objects, `parseDate` as the
    table of the column names it accepts, and `storage.getUserByPhone` as a
    map from normalised phones to user ids. */
module XlsxProcessor {
  import opened Wrappers
  import opened Objects
  import opened Hierarchy

  // ---------------------------------------------------------------------
  // cells

  /** A cell value as `sheet_to_json` hands it over. A text cell carries
      what `Number(text)` gives for it (None for NaN); a number cell carries
      what `toString()` gives for it. */
  datatype Cell =
    | Undefined
    | Null
    | Text(s: string, asNumber: Option<real>)
    | Num(x: real, asText: string)

  /** `!value`: undefined, null, the empty string and zero are falsy. */
  predicate Falsy(c: Cell)
  {
    c.Undefined? || c.Null? || (c.Text? && c.s == "") || (c.Num? && c.x == 0.0)
  }

  /** Undefined, null or the empty string. */
  predicate Blank(c: Cell)
  {
    c.Undefined? || c.Null? || (c.Text? && c.s == "")
  }

  /** `value.toString()` for a value that is not undefined or null. */
  function CellText(c: Cell): string
  {
    match c
    case Text(s, _) => s
    case Num(_, t) => t
    case _ => ""
  }

  // ---------------------------------------------------------------------
  // normalizePhone

  predicate IsDigit(c: char)
  {
    '0' <= c <= '9'
  }

  predicate AllDigits(s: string)
  {
    forall i :: 0 <= i < |s| ==> IsDigit(s[i])
  }

  /** The ASCII digits of s, in order. */
  function Digits(s: string): (d: string)
    ensures AllDigits(d) && |d| <= |s|
  {
    if s == [] then []
    else (if IsDigit(s[0]) then [s[0]] else []) + Digits(s[1..])
  }

  lemma {:induction false} DigitsAppend(a: string, b: string)
    ensures Digits(a + b) == Digits(a) + Digits(b)
  {
    if a != [] {
      assert (a + b)[0] == a[0];
      assert (a + b)[1..] == a[1..] + b;
      DigitsAppend(a[1..], b);
      var h := if IsDigit(a[0]) then [a[0]] else [];
      assert Digits(a + b) == h + Digits(a[1..] + b);
      assert Digits(a) == h + Digits(a[1..]);
      assert h + (Digits(a[1..]) + Digits(b)) == (h + Digits(a[1..])) + Digits(b);
    } else {
      assert a + b == b;
    }
  }

  lemma {:induction false} DigitsOfDigits(s: string)
    requires AllDigits(s)
    ensures Digits(s) == s
  {
    if s != [] {
      DigitsOfDigits(s[1..]);
    }
  }

  /** The classification of the digits (the lines after the length check);
      `trim()` removes only white space, which `Digits` drops anyway. */
  function NormalizeDigits(d: string): Option<string>
  {
    if |d| < 10 then None
    else if d[0] == '8' && |d| == 11 then Some("+7" + d[1..])
    else if d[0] == '7' && |d| == 11 then Some("+" + d)
    else if |d| == 10 then Some("+7" + d)
    else Some("+" + d)
  }

  /** `normalizePhone(phone)`, with None for null. */
  function NormalizePhone(c: Cell): Option<string>
  {
    if Falsy(c) then None else NormalizeDigits(Digits(CellText(c)))
  }

  /** The phone is refused exactly when the cell is falsy or fewer than 10
      digits remain. */
  lemma NormalizePhoneRefuses(c: Cell)
    ensures NormalizePhone(c).None? <==> Falsy(c) || |Digits(CellText(c))| < 10
  {
  }

  /** An accepted phone is "+" and at least 11 digits, and it ends in the
      same 10 digits as the input; with 10 or 11 digits (8 or 7 first) it is
      "+7" and 10 digits, with any other count "+" and the digits unchanged. */
  lemma NormalizeDigitsShape(d: string)
    requires AllDigits(d) && |d| >= 10
    ensures NormalizeDigits(d).Some?
    ensures var p := NormalizeDigits(d).value;
      && |p| >= 12 && p[0] == '+' && AllDigits(p[1..])
      && p[|p| - 10..] == d[|d| - 10..]
      && (|d| == 10 || (|d| == 11 && (d[0] == '7' || d[0] == '8')) ==> |p| == 12 && p[1] == '7')
      && (|d| > 11 || (|d| == 11 && d[0] != '7' && d[0] != '8') ==> p == "+" + d)
  {
    var p := NormalizeDigits(d).value;
    assert p[1..] == if |d| == 10 || (|d| == 11 && d[0] == '8') then "7" + d[|d| - 10..] else d;
  }

  /** The digits of "+" and digits are those digits. */
  lemma DigitsOfPhone(p: string)
    requires |p| > 0 && p[0] == '+' && AllDigits(p[1..])
    ensures Digits(p) == p[1..]
  {
    assert p == [p[0]] + p[1..];
    DigitsAppend([p[0]], p[1..]);
    DigitsOfDigits(p[1..]);
    assert Digits([p[0]]) == [];
  }

  lemma NormalizeDigitsIdempotent(d: string)
    requires AllDigits(d) && |d| >= 10
    ensures NormalizeDigits(d).Some?
    ensures NormalizeDigits(NormalizeDigits(d).value[1..]) == NormalizeDigits(d)
  {
    NormalizeDigitsShape(d);
    var p := NormalizeDigits(d).value;
    var q := p[1..];
    assert p == "+" + q;
    if |q| == 11 {
      assert q[0] == p[1];
    }
  }

  /** Normalising a normalised phone changes nothing. */
  lemma NormalizePhoneIdempotent(c: Cell, n: Option<real>)
    requires NormalizePhone(c).Some?
    ensures NormalizePhone(Text(NormalizePhone(c).value, n)) == NormalizePhone(c)
  {
    var d := Digits(CellText(c));
    NormalizeDigitsIdempotent(d);
    var p := NormalizePhone(c).value;
    DigitsOfPhone(p);
  }

  // ---------------------------------------------------------------------
  // parseHours

  /** `parseHours(value)`: None for an empty value, for NaN and for a
      negative number. */
  function ParseHours(c: Cell): Option<real>
  {
    match c
    case Undefined => None
    case Null => None
    case Text(s, n) => if s == "" || n.None? || n.value < 0.0 then None else n
    case Num(x, _) => if x < 0.0 then None else Some(x)
  }

  /** The hours a cell gives are its number, which is not negative; a cell is
      refused exactly when it is empty, not a number, or negative. */
  lemma ParseHoursAccepts(c: Cell)
    ensures ParseHours(c).Some? ==> ParseHours(c).value >= 0.0
    ensures ParseHours(c).None? <==>
      Blank(c) || (c.Text? && (c.asNumber.None? || c.asNumber.value < 0.0)) || (c.Num? && c.x < 0.0)
    ensures ParseHours(c).Some? && c.Num? ==> ParseHours(c).value == c.x
    ensures ParseHours(c).Some? && c.Text? ==> c.asNumber == ParseHours(c)
  {
  }

  // ---------------------------------------------------------------------
  // processFile

  /** A row object, its keys in order. */
  type Row = seq<(string, Cell)>

  /** `row[key]`: undefined when the row has no such key. */
  function Lookup(row: Row, key: string): Cell
  {
    if row == [] then Undefined
    else if row[0].0 == key then row[0].1
    else Lookup(row[1..], key)
  }

  /** The columns other than "phone", in order. */
  function DateColumns(columns: seq<string>): (r: seq<string>)
    ensures forall c :: c in r <==> c in columns && c != "phone"
  {
    if columns == [] then []
    else (if columns[0] != "phone" then [columns[0]] else []) + DateColumns(columns[1..])
  }

  /** The reasons the whole file is refused. */
  datatype FileError = NoSheets | NoData | NoPhoneColumn | NoDateColumns

  /** The entries of `result.errors`, warnings included. */
  datatype RowError =
    | InvalidPhone(phoneCell: Cell)
    | UserNotFound(phone: string)
    | InvalidHours(column: string, value: Cell)
    | InvalidDate(column: string)
    | SuspiciousHours(phone: string, date: Date, hours: real)

  datatype ImportError = ImportError(row: nat, error: RowError)

  /** An upsert of the hours of a user on a date. */
  datatype HoursWrite = HoursWrite(userId: UserId, workDate: Date, hours: real)

  /** What the loop adds to the errors and to the hours table. */
  datatype Step = Step(errors: seq<ImportError>, writes: seq<HoursWrite>)

  function Then(a: Step, b: Step): Step
  {
    Step(a.errors + b.errors, a.writes + b.writes)
  }

  /** One date column of one row whose phone and user were found. */
  function CellStep(row: Row, rowNumber: nat, col: string, phone: string, user: UserId, dates: map<string, Date>): Step
  {
    var v := Lookup(row, col);
    if Blank(v) then Step([], [])
    else match ParseHours(v)
      case None => Step([ImportError(rowNumber, InvalidHours(col, v))], [])
      case Some(h) =>
        if col !in dates then Step([ImportError(rowNumber, InvalidDate(col))], [])
        else
          var d := dates[col];
          Step(if h > 16.0 then [ImportError(rowNumber, SuspiciousHours(phone, d, h))] else [],
               [HoursWrite(user, d, h)])
  }

  /** The loop over the date columns `cols`. */
  function CellsStep(row: Row, rowNumber: nat, cols: seq<string>, phone: string, user: UserId, dates: map<string, Date>): Step
  {
    if cols == [] then Step([], [])
    else Then(CellsStep(row, rowNumber, cols[..|cols| - 1], phone, user, dates),
              CellStep(row, rowNumber, cols[|cols| - 1], phone, user, dates))
  }

  /** A row passes when its phone normalises to the phone of a known user. */
  predicate Passes(row: Row, users: map<string, UserId>)
  {
    var p := NormalizePhone(Lookup(row, "phone"));
    p.Some? && p.value in users
  }

  /** One row: its errors and writes. */
  function RowStep(row: Row, rowNumber: nat, cols: seq<string>, users: map<string, UserId>, dates: map<string, Date>): Step
  {
    var p := NormalizePhone(Lookup(row, "phone"));
    if p.None? then Step([ImportError(rowNumber, InvalidPhone(Lookup(row, "phone")))], [])
    else if p.value !in users then Step([ImportError(rowNumber, UserNotFound(p.value))], [])
    else CellsStep(row, rowNumber, cols, p.value, users[p.value], dates)
  }

  /** The loop over the rows `rows`: row i has row number i + 2. */
  function RowsStep(rows: seq<Row>, cols: seq<string>, users: map<string, UserId>, dates: map<string, Date>): Step
  {
    if rows == [] then Step([], [])
    else Then(RowsStep(rows[..|rows| - 1], cols, users, dates),
              RowStep(rows[|rows| - 1], |rows| + 1, cols, users, dates))
  }

  /** `result.processedRows` after the rows `rows`. */
  function Processed(rows: seq<Row>, users: map<string, UserId>): nat
  {
    if rows == [] then 0
    else Processed(rows[..|rows| - 1], users) + (if Passes(rows[|rows| - 1], users) then 1 else 0)
  }

  /** A row of hours_raw as the import keeps it. */
  datatype Stored = Stored(hours: real, importId: nat)

  /** hours_raw, keyed by (user, date). */
  type HoursTable = map<(UserId, Date), Stored>

  /** The upserts `ws`, in order. */
  function Apply(table: HoursTable, ws: seq<HoursWrite>, importId: nat): HoursTable
  {
    if ws == [] then table
    else
      var w := ws[|ws| - 1];
      Apply(table, ws[..|ws| - 1], importId)[(w.userId, w.workDate) := Stored(w.hours, importId)]
  }

  datatype ProcessingResult = ProcessingResult(processedRows: nat, errors: seq<ImportError>)

  /** The file-level checks, in the order `processFile` makes them. */
  function FileCheck(sheet: Option<seq<Row>>): Option<FileError>
  {
    if sheet.None? then Some(NoSheets)
    else if |sheet.value| == 0 then Some(NoData)
    else if "phone" !in Keys(sheet.value[0]) then Some(NoPhoneColumn)
    else if |DateColumns(Keys(sheet.value[0]))| == 0 then Some(NoDateColumns)
    else None
  }

  /** `processFile` over the first sheet (None when the workbook has none):
      the result, or the error the file is refused with, and hours_raw after. */
  function ProcessFile(sheet: Option<seq<Row>>, users: map<string, UserId>, dates: map<string, Date>, importId: nat, table: HoursTable)
    : (Result<ProcessingResult, FileError>, HoursTable)
  {
    match FileCheck(sheet)
    case Some(e) => (Failure(e), table)
    case None =>
      var rows := sheet.value;
      var step := RowsStep(rows, DateColumns(Keys(rows[0])), users, dates);
      (Success(ProcessingResult(Processed(rows, users), step.errors)), Apply(table, step.writes, importId))
  }

  /** The nested loop of `processFile`, once the file checks have passed. */
  method ProcessRows(rows: seq<Row>, dateColumns: seq<string>, users: map<string, UserId>, dates: map<string, Date>, importId: nat, table: HoursTable)
    returns (result: ProcessingResult, table': HoursTable)
    ensures result == ProcessingResult(Processed(rows, users), RowsStep(rows, dateColumns, users, dates).errors)
    ensures table' == Apply(table, RowsStep(rows, dateColumns, users, dates).writes, importId)
  {
    result := ProcessingResult(0, []);
    table' := table;
    for i := 0 to |rows|
      invariant result == ProcessingResult(Processed(rows[..i], users), RowsStep(rows[..i], dateColumns, users, dates).errors)
      invariant table' == Apply(table, RowsStep(rows[..i], dateColumns, users, dates).writes, importId)
    {
      ghost var before := RowsStep(rows[..i], dateColumns, users, dates);
      result, table' := ProcessRow(rows[i], i + 2, dateColumns, users, dates, importId, result, table');
      RowsSnoc(rows, i, dateColumns, users, dates);
      ApplyThen(table, before.writes, RowStep(rows[i], i + 2, dateColumns, users, dates).writes, importId);
    }
    assert rows[..|rows|] == rows;
  }

  lemma RowsSnoc(rows: seq<Row>, i: nat, cols: seq<string>, users: map<string, UserId>, dates: map<string, Date>)
    requires i < |rows|
    ensures RowsStep(rows[..i + 1], cols, users, dates) == Then(RowsStep(rows[..i], cols, users, dates), RowStep(rows[i], i + 2, cols, users, dates))
    ensures Processed(rows[..i + 1], users) == Processed(rows[..i], users) + (if Passes(rows[i], users) then 1 else 0)
  {
    assert rows[..i + 1][..i] == rows[..i];
  }

  /** The body of the loop over the rows: the phone checks, then the date
      columns. */
  method ProcessRow(row: Row, rowNumber: nat, dateColumns: seq<string>, users: map<string, UserId>, dates: map<string, Date>, importId: nat,
                    result: ProcessingResult, table: HoursTable)
    returns (result': ProcessingResult, table': HoursTable)
    ensures result' == ProcessingResult(result.processedRows + (if Passes(row, users) then 1 else 0),
                                        result.errors + RowStep(row, rowNumber, dateColumns, users, dates).errors)
    ensures table' == Apply(table, RowStep(row, rowNumber, dateColumns, users, dates).writes, importId)
  {
    var phone := NormalizePhone(Lookup(row, "phone"));
    result' := result;
    table' := table;
    if phone.None? {
      result' := result.(errors := result.errors + [ImportError(rowNumber, InvalidPhone(Lookup(row, "phone")))]);
    } else if phone.value !in users {
      result' := result.(errors := result.errors + [ImportError(rowNumber, UserNotFound(phone.value))]);
    } else {
      var errors;
      errors, table' := ProcessCells(row, rowNumber, dateColumns, phone.value, users[phone.value], dates, importId, result.errors, table);
      result' := ProcessingResult(result.processedRows + 1, errors);
    }
  }

  /** The loop over the date columns of one row. */
  method ProcessCells(row: Row, rowNumber: nat, dateColumns: seq<string>, phone: string, user: UserId, dates: map<string, Date>, importId: nat,
                      errors: seq<ImportError>, table: HoursTable)
    returns (errors': seq<ImportError>, table': HoursTable)
    ensures errors' == errors + CellsStep(row, rowNumber, dateColumns, phone, user, dates).errors
    ensures table' == Apply(table, CellsStep(row, rowNumber, dateColumns, phone, user, dates).writes, importId)
  {
    errors' := errors;
    table' := table;
    for k := 0 to |dateColumns|
      invariant errors' == errors + CellsStep(row, rowNumber, dateColumns[..k], phone, user, dates).errors
      invariant table' == Apply(table, CellsStep(row, rowNumber, dateColumns[..k], phone, user, dates).writes, importId)
    {
      ghost var e0, t0 := errors', table';
      ghost var before := CellsStep(row, rowNumber, dateColumns[..k], phone, user, dates);
      ghost var step := CellStep(row, rowNumber, dateColumns[k], phone, user, dates);
      errors', table' := ProcessCell(row, rowNumber, dateColumns[k], phone, user, dates, importId, errors', table');
      CellsSnoc(row, rowNumber, dateColumns, k, phone, user, dates);
      StepCompose(table, importId, errors, before, step, CellsStep(row, rowNumber, dateColumns[..k + 1], phone, user, dates), e0, t0, errors', table');
    }
    assert dateColumns[..|dateColumns|] == dateColumns;
  }

  /** The errors and table after one more step of a loop, given those
      before it. */
  lemma StepCompose(table: HoursTable, importId: nat, errors: seq<ImportError>, before: Step, step: Step, after: Step,
                    e0: seq<ImportError>, t0: HoursTable, e1: seq<ImportError>, t1: HoursTable)
    requires after == Then(before, step)
    requires e0 == errors + before.errors && t0 == Apply(table, before.writes, importId)
    requires e1 == e0 + step.errors && t1 == Apply(t0, step.writes, importId)
    ensures e1 == errors + after.errors && t1 == Apply(table, after.writes, importId)
  {
    ApplyThen(table, before.writes, step.writes, importId);
  }

  lemma CellsSnoc(row: Row, rowNumber: nat, cols: seq<string>, k: nat, phone: string, user: UserId, dates: map<string, Date>)
    requires k < |cols|
    ensures CellsStep(row, rowNumber, cols[..k + 1], phone, user, dates)
         == Then(CellsStep(row, rowNumber, cols[..k], phone, user, dates), CellStep(row, rowNumber, cols[k], phone, user, dates))
  {
    assert cols[..k + 1][..k] == cols[..k];
  }

  /** The body of the loop over the date columns: a blank cell is skipped, a
      bad value or column is reported, any other value is saved, with a
      warning above 16 hours. */
  method ProcessCell(row: Row, rowNumber: nat, dateCol: string, phone: string, user: UserId, dates: map<string, Date>, importId: nat,
                     errors: seq<ImportError>, table: HoursTable)
    returns (errors': seq<ImportError>, table': HoursTable)
    ensures errors' == errors + CellStep(row, rowNumber, dateCol, phone, user, dates).errors
    ensures table' == Apply(table, CellStep(row, rowNumber, dateCol, phone, user, dates).writes, importId)
  {
    errors' := errors;
    table' := table;
    var hoursValue := Lookup(row, dateCol);
    if hoursValue.Undefined? || hoursValue.Null? || (hoursValue.Text? && hoursValue.s == "") {
      assert errors' == errors + [];
    } else {
      var hours := ParseHours(hoursValue);
      if hours.None? {
        errors' := errors' + [ImportError(rowNumber, InvalidHours(dateCol, hoursValue))];
      } else if dateCol !in dates {
        errors' := errors' + [ImportError(rowNumber, InvalidDate(dateCol))];
      } else {
        var workDate := dates[dateCol];
        if hours.value > 16.0 {
          errors' := errors' + [ImportError(rowNumber, SuspiciousHours(phone, workDate, hours.value))];
        } else {
          assert errors' == errors + [];
        }
        table' := table'[(user, workDate) := Stored(hours.value, importId)];
        assert [HoursWrite(user, workDate, hours.value)][..0] == [];
      }
    }
  }

  /** Applying two lists of writes in turn is applying them one after the other. */
  lemma {:induction false} ApplyThen(table: HoursTable, a: seq<HoursWrite>, b: seq<HoursWrite>, importId: nat)
    ensures Apply(table, a + b, importId) == Apply(Apply(table, a, importId), b, importId)
    decreases |b|
  {
    if b != [] {
      var w := b[|b| - 1];
      var key := (w.userId, w.workDate);
      assert (a + b)[..|a + b| - 1] == a + b[..|b| - 1];
      assert (a + b)[|a + b| - 1] == w;
      ApplyThen(table, a, b[..|b| - 1], importId);
      assert Apply(table, a + b, importId) == Apply(table, a + b[..|b| - 1], importId)[key := Stored(w.hours, importId)];
      assert Apply(Apply(table, a, importId), b, importId)
          == Apply(Apply(table, a, importId), b[..|b| - 1], importId)[key := Stored(w.hours, importId)];
    } else {
      assert a + b == a;
    }
  }

  /** `processFile`: the file checks, then the loop over the rows. */
  method ProcessFileMethod(sheet: Option<seq<Row>>, users: map<string, UserId>, dates: map<string, Date>, importId: nat, table: HoursTable)
    returns (r: Result<ProcessingResult, FileError>, table': HoursTable)
    ensures (r, table') == ProcessFile(sheet, users, dates, importId, table)
  {
    table' := table;
    if sheet.None? {
      return Failure(NoSheets), table';
    }
    var jsonData := sheet.value;
    if |jsonData| == 0 {
      return Failure(NoData), table';
    }
    var columns := Keys(jsonData[0]);
    if "phone" !in columns {
      return Failure(NoPhoneColumn), table';
    }
    var dateColumns := DateColumns(columns);
    if |dateColumns| == 0 {
      return Failure(NoDateColumns), table';
    }
    var result;
    result, table' := ProcessRows(jsonData, dateColumns, users, dates, importId, table);
    r := Success(result);
  }

  // ---------------------------------------------------------------------
  // properties of processFile

  /** The file is refused without a phone column, and without any other
      column, and nothing is written then. */
  lemma ProcessFileRefuses(sheet: Option<seq<Row>>, users: map<string, UserId>, dates: map<string, Date>, importId: nat, table: HoursTable)
    requires sheet.Some? && |sheet.value| > 0
    ensures var (r, t) := ProcessFile(sheet, users, dates, importId, table);
      && (r == Failure(NoPhoneColumn) <==> "phone" !in Keys(sheet.value[0]))
      && (r == Failure(NoDateColumns) <==>
            "phone" in Keys(sheet.value[0]) && forall c :: c in Keys(sheet.value[0]) ==> c == "phone")
      && (r.Failure? ==> t == table)
  {
    DateColumnsEmpty(Keys(sheet.value[0]));
  }

  /** No date column is left exactly when every column is the phone one. */
  lemma DateColumnsEmpty(columns: seq<string>)
    ensures |DateColumns(columns)| == 0 <==> forall c :: c in columns ==> c == "phone"
  {
    var r := DateColumns(columns);
    if |r| > 0 {
      assert r[0] in r;
    }
  }

  /** The rows of `rows` that pass. */
  function Passing(rows: seq<Row>, users: map<string, UserId>): (r: seq<Row>)
    ensures forall x :: x in r <==> x in rows && Passes(x, users)
  {
    if rows == [] then [] else (if Passes(rows[0], users) then [rows[0]] else []) + Passing(rows[1..], users)
  }

  lemma {:induction false} PassingSnoc(rows: seq<Row>, x: Row, users: map<string, UserId>)
    ensures Passing(rows + [x], users) == Passing(rows, users) + (if Passes(x, users) then [x] else [])
  {
    if rows != [] {
      assert (rows + [x])[1..] == rows[1..] + [x];
      PassingSnoc(rows[1..], x, users);
    }
  }

  /** `processedRows` counts exactly the rows whose phone normalises and
      whose user is found. */
  lemma {:induction false} ProcessedCountsPassing(rows: seq<Row>, users: map<string, UserId>)
    ensures Processed(rows, users) == |Passing(rows, users)| <= |rows|
  {
    if rows != [] {
      var init := rows[..|rows| - 1];
      ProcessedCountsPassing(init, users);
      assert rows == init + [rows[|rows| - 1]];
      PassingSnoc(init, rows[|rows| - 1], users);
    }
  }

  /** The errors carry row numbers 2 through `last`, in order. */
  predicate RowNumbersOrdered(es: seq<ImportError>, last: nat)
  {
    && (forall j :: 0 <= j < |es| ==> 2 <= es[j].row <= last)
    && (forall j, k :: 0 <= j < k < |es| ==> es[j].row <= es[k].row)
  }

  /** Every error names the row number of a row of the sheet, and the row
      numbers never go down. */
  lemma {:induction false} ErrorRowNumbers(rows: seq<Row>, cols: seq<string>, users: map<string, UserId>, dates: map<string, Date>)
    ensures RowNumbersOrdered(RowsStep(rows, cols, users, dates).errors, |rows| + 1)
  {
    if rows != [] {
      var init := rows[..|rows| - 1];
      ErrorRowNumbers(init, cols, users, dates);
      var row := rows[|rows| - 1];
      var p := NormalizePhone(Lookup(row, "phone"));
      if p.Some? && p.value in users {
        CellsRowNumber(row, |rows| + 1, cols, p.value, users[p.value], dates);
      }
      var es1 := RowStep(row, |rows| + 1, cols, users, dates).errors;
      RowNumbersAppend(RowsStep(init, cols, users, dates).errors, es1, |rows|);
    }
  }

  lemma RowNumbersAppend(es0: seq<ImportError>, es1: seq<ImportError>, n: nat)
    requires RowNumbersOrdered(es0, n)
    requires forall e :: e in es1 ==> e.row == n + 1 && n + 1 >= 2
    ensures RowNumbersOrdered(es0 + es1, n + 1)
  {
    var es := es0 + es1;
    forall j | 0 <= j < |es| ensures 2 <= es[j].row <= n + 1 {
      if j >= |es0| {
        assert es[j] == es1[j - |es0|];
      }
    }
    forall j, k | 0 <= j < k < |es| ensures es[j].row <= es[k].row {
      if k >= |es0| {
        assert es[k] == es1[k - |es0|];
        if j >= |es0| {
          assert es[j] == es1[j - |es0|];
        }
      }
    }
  }

  /** The errors of the cells of a row carry the row's number, and none is
      a phone or user error. */
  lemma {:induction false} CellsRowNumber(row: Row, rowNumber: nat, cols: seq<string>, phone: string, user: UserId, dates: map<string, Date>)
    ensures forall e :: e in CellsStep(row, rowNumber, cols, phone, user, dates).errors ==>
      e.row == rowNumber && !e.error.InvalidPhone? && !e.error.UserNotFound?
  {
    if cols != [] {
      CellsRowNumber(row, rowNumber, cols[..|cols| - 1], phone, user, dates);
    }
  }

  /** The errors of one row carry its number; a row that does not pass
      leaves exactly one error, a phone or user error, and writes nothing,
      while the errors of a passing row are never phone or user errors. */
  lemma RowStepErrors(row: Row, rowNumber: nat, cols: seq<string>, users: map<string, UserId>, dates: map<string, Date>)
    ensures var s := RowStep(row, rowNumber, cols, users, dates);
      && (forall e :: e in s.errors ==> e.row == rowNumber && ((e.error.InvalidPhone? || e.error.UserNotFound?) <==> !Passes(row, users)))
      && (!Passes(row, users) ==> |s.errors| == 1 && s.writes == [])
  {
    var p := NormalizePhone(Lookup(row, "phone"));
    if p.Some? && p.value in users {
      CellsRowNumber(row, rowNumber, cols, p.value, users[p.value], dates);
    }
  }

  /** The errors of the loop are the errors of the rows, the row at index i
      contributing its errors under row number i + 2, the number of its line
      in the sheet below the header. */
  lemma {:induction false} RowsErrors(rows: seq<Row>, cols: seq<string>, users: map<string, UserId>, dates: map<string, Date>)
    ensures forall e :: e in RowsStep(rows, cols, users, dates).errors <==>
      exists i :: 0 <= i < |rows| && e in RowStep(rows[i], i + 2, cols, users, dates).errors && e.row == i + 2
  {
    if rows != [] {
      var init, last := rows[..|rows| - 1], rows[|rows| - 1];
      RowsErrors(init, cols, users, dates);
      RowStepErrors(last, |rows| + 1, cols, users, dates);
      forall e ensures e in RowsStep(rows, cols, users, dates).errors <==>
        exists i :: 0 <= i < |rows| && e in RowStep(rows[i], i + 2, cols, users, dates).errors && e.row == i + 2
      {
        if exists i :: 0 <= i < |rows| && e in RowStep(rows[i], i + 2, cols, users, dates).errors && e.row == i + 2 {
          var i :| 0 <= i < |rows| && e in RowStep(rows[i], i + 2, cols, users, dates).errors && e.row == i + 2;
          if i < |init| {
            assert rows[i] == init[i];
          }
        }
        if e in RowsStep(init, cols, users, dates).errors {
          var i :| 0 <= i < |init| && e in RowStep(init[i], i + 2, cols, users, dates).errors && e.row == i + 2;
          assert rows[i] == init[i];
        }
      }
    }
  }

  /** A date column of a passing row is written exactly when its cell holds
      hours and the column is a date; hours above 16 are written as well, with
      a warning; whatever is written is not negative. */
  lemma CellWrites(row: Row, rowNumber: nat, col: string, phone: string, user: UserId, dates: map<string, Date>)
    ensures var s := CellStep(row, rowNumber, col, phone, user, dates);
      var h := ParseHours(Lookup(row, col));
      && (|s.writes| == 1 <==> !Blank(Lookup(row, col)) && h.Some? && col in dates)
      && |s.writes| <= 1
      && (|s.writes| == 1 ==> s.writes[0] == HoursWrite(user, dates[col], h.value) && h.value >= 0.0)
      && (|s.writes| == 1 ==> (s.errors == [ImportError(rowNumber, SuspiciousHours(phone, dates[col], h.value))] <==> h.value > 16.0))
      && (Blank(Lookup(row, col)) ==> s == Step([], []))
  {
    ParseHoursAccepts(Lookup(row, col));
  }
}
