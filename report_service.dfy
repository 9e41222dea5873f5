/**
  `ReportService`: the account statement of one customer over an inclusive date range (one row
  per movement, or a placeholder row for an account without movements, newest first), and the
  nine-column sheet the statement is exported as.
*/
module ReportService {
  import opened Common
  import opened AccountModel
  import opened StableSort
  import opened DateFormat
  import MovementService
  import AccountService

  /** A statement row (`MovementReportDto`); every field but the date is nullable. */
  datatype MovementReport = MovementReport(
    fecha: DateTime,
    cliente: Option<string>,
    numeroCuenta: Option<string>,
    tipo: Option<string>,
    saldoInicial: Option<Money>,
    estado: Option<bool>,
    valorMovimiento: Option<Money>,
    tipoMovimiento: Option<string>,
    saldoDisponible: Option<Money>)

  // ---------------------------------------------------------------------------------------------
  // The customer's name
  // ---------------------------------------------------------------------------------------------

  /** The customer directory's answer, as far as the statement uses it. */
  datatype CustomerInfo = CustomerInfo(name: Option<string>)

  /**
    How the call to the customer directory ended: with an answer, or failed (no connection,
    an error status such as an unknown customer, or an unreadable body).
  */
  datatype Lookup = Answered(info: CustomerInfo) | Failed

  const UNAVAILABLE_NAME := "Cliente no disponible"

  /** `getCustomerById`: when the call fails for any reason, a default carrying a fixed name. */
  function CustomerInfoOf(lookup: Lookup): (info: CustomerInfo)
    ensures lookup.Failed? ==> info.name == Some(UNAVAILABLE_NAME)
    ensures lookup.Answered? ==> info == lookup.info
  {
    match lookup
    case Answered(info) => info
    case Failed => CustomerInfo(Some(UNAVAILABLE_NAME))
  }

  // ---------------------------------------------------------------------------------------------
  // Queries
  // ---------------------------------------------------------------------------------------------

  /** `findByCustomerId`: the rows of the account table owned by the customer, in table order. */
  function CustomerAccounts(table: seq<Account>, customerId: int): (r: seq<Account>)
    ensures forall a :: a in r <==> a in table && a.customerId == customerId
    ensures forall a :: multiset(r)[a] == if a.customerId == customerId then multiset(table)[a] else 0
    ensures |r| <= |table|
  {
    if table == [] then []
    else
      assert forall a :: a in table <==> a == table[0] || a in table[1..];
      assert table == [table[0]] + table[1..];
      (if table[0].customerId == customerId then [table[0]] else []) + CustomerAccounts(table[1..], customerId)
  }

  /**
    The statement's account table is the store's `accounts` map listed in some order; the
    customer's accounts it selects are then exactly those `getAccountsByCustomerId` returns.
  */
  lemma CustomerAccountsAgree(accounts: map<int, Account>, table: seq<Account>, customerId: int)
    requires forall a :: a in table <==> a.id in accounts && accounts[a.id] == a
    ensures forall a :: a in CustomerAccounts(table, customerId) <==>
              var listed := AccountService.AccountsOfCustomer(accounts, customerId);
              a.id in listed && listed[a.id] == a
  {
  }

  /** The range query: the account's movement qualifies when `start <= movementDate <= end`. */
  predicate InRange(m: Movement, accountId: int, start: DateTime, end: DateTime) {
    m.accountId == accountId && NotAfter(start, m.movementDate) && NotAfter(m.movementDate, end)
  }

  /** `findByAccountIdAndMovementDateBetween`: the qualifying movements, in log order. */
  function MovementsInRange(log: seq<Movement>, accountId: int, start: DateTime, end: DateTime): (r: seq<Movement>)
    ensures forall m :: m in r <==> m in log && InRange(m, accountId, start, end)
    ensures forall m :: multiset(r)[m] == if InRange(m, accountId, start, end) then multiset(log)[m] else 0
    ensures |r| <= |log|
  {
    if log == [] then []
    else
      assert forall m :: m in log <==> m == log[0] || m in log[1..];
      assert log == [log[0]] + log[1..];
      (if InRange(log[0], accountId, start, end) then [log[0]] else [])
      + MovementsInRange(log[1..], accountId, start, end)
  }

  // ---------------------------------------------------------------------------------------------
  // Rows
  // ---------------------------------------------------------------------------------------------

  /** The balance before the movement, recovered by undoing it: credits are subtracted, anything else added back. */
  function OpeningBalance(m: Movement): (b: Money)
    ensures IsCredit(m.movementType) ==> b + m.value == m.balance
    ensures !IsCredit(m.movementType) ==> b - m.value == m.balance
  {
    if IsCredit(m.movementType) then m.balance - m.value else m.balance + m.value
  }

  /**
    A movement the ledger accepted carries its account's balance from just before the posting
    as its opening balance: undoing the movement recovers the balance it was posted against,
    although the label tests for a debit and the opening balance for a credit.
  */
  lemma OpeningBalanceUndoesPosting(accounts: map<int, Account>, log: seq<Movement>, request: MovementService.MovementRequest,
                                    movementId: int, now: DateTime)
    requires MovementService.PostingResult(accounts, request).Success?
    ensures var (_, posted) := MovementService.Posted(accounts, log, request, movementId, now);
            && |posted| == |log| + 1
            && OpeningBalance(posted[|log|]) == accounts[request.accountId].currentBalance
  {
    DebitIsNotCredit(request.movementType);
  }

  const DEBIT_LABEL := "Débito"
  const CREDIT_LABEL := "Crédito"
  const NO_MOVEMENTS_LABEL := "Sin movimientos"

  /** The label of a movement row: a debit (in any letter case) or, for every other type, a credit. */
  function MovementLabel(movementType: string): (name: string)
    ensures name == DEBIT_LABEL <==> IsDebit(movementType)
    ensures name == CREDIT_LABEL <==> !IsDebit(movementType)
  {
    if IsDebit(movementType) then DEBIT_LABEL else CREDIT_LABEL
  }

  /**
    The row of one movement of `account`: dated and valued as the movement, with the balance it
    left, the balance it started from and its label.
  */
  function MovementRow(m: Movement, account: Account, info: CustomerInfo): (row: MovementReport)
    ensures row.fecha == m.movementDate && row.cliente == info.name
    ensures row.numeroCuenta == Some(account.accountNumber) && row.tipo == Some(account.accountType)
    ensures row.estado == Some(account.status)
    ensures row.valorMovimiento == Some(m.value) && row.saldoDisponible == Some(m.balance)
    ensures row.tipoMovimiento == Some(DEBIT_LABEL) <==> IsDebit(m.movementType)
    ensures row.tipoMovimiento == Some(CREDIT_LABEL) <==> !IsDebit(m.movementType)
    ensures row.saldoInicial.Some?
    ensures IsCredit(m.movementType) ==> row.saldoInicial.value + m.value == m.balance
    ensures !IsCredit(m.movementType) ==> row.saldoInicial.value - m.value == m.balance
  {
    MovementReport(m.movementDate, info.name, Some(account.accountNumber), Some(account.accountType),
                   Some(OpeningBalance(m)), Some(account.status), Some(m.value),
                   Some(MovementLabel(m.movementType)), Some(m.balance))
  }

  /**
    The single row of an account without movements in the range: dated at the account's creation
    (or `now` when that is unknown), moving nothing, from the initial balance (or the current
    one when that is unknown) to the current balance.
  */
  function PlaceholderRow(account: Account, info: CustomerInfo, now: DateTime): (row: MovementReport)
    ensures account.createdAt.Some? ==> row.fecha == account.createdAt.value
    ensures account.createdAt.None? ==> row.fecha == now
    ensures row.cliente == info.name
    ensures row.numeroCuenta == Some(account.accountNumber) && row.tipo == Some(account.accountType)
    ensures row.estado == Some(account.status)
    ensures account.initialBalance.Some? ==> row.saldoInicial == account.initialBalance
    ensures account.initialBalance.None? ==> row.saldoInicial == Some(account.currentBalance)
    ensures row.valorMovimiento == Some(0) && row.tipoMovimiento == Some(NO_MOVEMENTS_LABEL)
    ensures row.saldoDisponible == Some(account.currentBalance)
  {
    MovementReport(account.createdAt.GetOr(now), info.name, Some(account.accountNumber), Some(account.accountType),
                   Some(account.initialBalance.GetOr(account.currentBalance)), Some(account.status), Some(0),
                   Some(NO_MOVEMENTS_LABEL), Some(account.currentBalance))
  }

  /** A placeholder row is never mistaken for a movement row: its label is neither "Débito" nor "Crédito". */
  lemma PlaceholderIsNoMovementRow(m: Movement, a: Account, b: Account, info: CustomerInfo, now: DateTime)
    ensures PlaceholderRow(a, info, now) != MovementRow(m, b, info)
  {
    assert |NO_MOVEMENTS_LABEL| != |DEBIT_LABEL| && |NO_MOVEMENTS_LABEL| != |CREDIT_LABEL|;
  }

  function MovementDateOf(m: Movement): DateTime {
    m.movementDate
  }

  function FechaOf(r: MovementReport): DateTime {
    r.fecha
  }

  function MovementRows(ms: seq<Movement>, account: Account, info: CustomerInfo): (r: seq<MovementReport>)
    ensures |r| == |ms|
    ensures forall i :: 0 <= i < |ms| ==> r[i] == MovementRow(ms[i], account, info)
  {
    seq(|ms|, i requires 0 <= i < |ms| => MovementRow(ms[i], account, info))
  }

  /**
    The rows one account contributes: its in-range movements oldest first, each as a movement
    row, or the placeholder row when there are none.
  */
  function AccountRows(account: Account, log: seq<Movement>, info: CustomerInfo,
                       start: DateTime, end: DateTime, now: DateTime): seq<MovementReport>
  {
    var ms := MovementsInRange(log, account.id, start, end);
    if ms == [] then [PlaceholderRow(account, info, now)]
    else MovementRows(Sort(ms, MovementDateOf, Ascending), account, info)
  }

  /**
    An account with in-range movements yields exactly one row per movement, oldest first, each
    showing the movement's value and balance and the account's own number, type and status; an
    account without any yields exactly the placeholder row.
  */
  lemma AccountRowsShape(account: Account, log: seq<Movement>, info: CustomerInfo,
                         start: DateTime, end: DateTime, now: DateTime)
    ensures var ms := MovementsInRange(log, account.id, start, end);
            var rows := AccountRows(account, log, info, start, end, now);
            && (ms == [] ==> rows == [PlaceholderRow(account, info, now)])
            && (ms != [] ==>
                  && |rows| == |ms|
                  && SortedBy(rows, FechaOf, Ascending)
                  && multiset(rows) == multiset(MovementRows(ms, account, info))
                  && forall k :: WithKey(rows, FechaOf, k) == WithKey(MovementRows(ms, account, info), FechaOf, k))
  {
    var ms := MovementsInRange(log, account.id, start, end);
    if ms != [] {
      MovementRowsSort(ms, account, info);
      SortCorrect(MovementRows(ms, account, info), FechaOf, Ascending);
    }
  }

  lemma MovementRowsCons(x: Movement, s: seq<Movement>, account: Account, info: CustomerInfo)
    ensures MovementRows([x] + s, account, info) == [MovementRow(x, account, info)] + MovementRows(s, account, info)
  {
  }

  /** A row's date is its movement's date, so building rows commutes with inserting by date. */
  lemma {:induction false} MovementRowsInsert(x: Movement, s: seq<Movement>, account: Account, info: CustomerInfo)
    ensures MovementRows(Insert(x, s, MovementDateOf, Ascending), account, info)
            == Insert(MovementRow(x, account, info), MovementRows(s, account, info), FechaOf, Ascending)
  {
    var rs := MovementRows(s, account, info);
    if s == [] || InOrder(Ascending, MovementDateOf(x), MovementDateOf(s[0])) {
      MovementRowsCons(x, s, account, info);
    } else {
      MovementRowsInsert(x, s[1..], account, info);
      MovementRowsCons(s[0], Insert(x, s[1..], MovementDateOf, Ascending), account, info);
      MovementRowsCons(s[0], s[1..], account, info);
      assert [s[0]] + s[1..] == s;
      assert rs[1..] == MovementRows(s[1..], account, info);
    }
  }

  /** Building rows commutes with sorting by date. */
  lemma {:induction false} MovementRowsSort(s: seq<Movement>, account: Account, info: CustomerInfo)
    ensures MovementRows(Sort(s, MovementDateOf, Ascending), account, info)
            == Sort(MovementRows(s, account, info), FechaOf, Ascending)
  {
    if s != [] {
      MovementRowsSort(s[1..], account, info);
      MovementRowsInsert(s[0], Sort(s[1..], MovementDateOf, Ascending), account, info);
      MovementRowsCons(s[0], s[1..], account, info);
      assert [s[0]] + s[1..] == s;
    }
  }

  /** The rows of all accounts, concatenated in account order. */
  function AllRows(accounts: seq<Account>, log: seq<Movement>, info: CustomerInfo,
                   start: DateTime, end: DateTime, now: DateTime): seq<MovementReport>
  {
    if accounts == [] then []
    else AccountRows(accounts[0], log, info, start, end, now) + AllRows(accounts[1..], log, info, start, end, now)
  }

  /** The number of rows an account contributes: its in-range movements, or one placeholder. */
  function RowCount(account: Account, log: seq<Movement>, start: DateTime, end: DateTime): nat {
    var n := |MovementsInRange(log, account.id, start, end)|;
    if n == 0 then 1 else n
  }

  function TotalRowCount(accounts: seq<Account>, log: seq<Movement>, start: DateTime, end: DateTime): nat {
    if accounts == [] then 0
    else RowCount(accounts[0], log, start, end) + TotalRowCount(accounts[1..], log, start, end)
  }

  lemma {:induction false} AllRowsLength(accounts: seq<Account>, log: seq<Movement>, info: CustomerInfo,
                                         start: DateTime, end: DateTime, now: DateTime)
    ensures |AllRows(accounts, log, info, start, end, now)| == TotalRowCount(accounts, log, start, end)
  {
    if accounts != [] {
      AccountRowsShape(accounts[0], log, info, start, end, now);
      AllRowsLength(accounts[1..], log, info, start, end, now);
    }
  }

  /**
    Where a statement row comes from: an in-range movement of one of the accounts, or the
    placeholder of an account without any.
  */
  predicate RowOrigin(row: MovementReport, accounts: seq<Account>, log: seq<Movement>, info: CustomerInfo,
                      start: DateTime, end: DateTime, now: DateTime)
  {
    exists a :: a in accounts && RowOfAccount(row, a, log, info, start, end, now)
  }

  /** `row` is built from an in-range movement of `a`, or is the placeholder of `a` when it has none. */
  predicate RowOfAccount(row: MovementReport, a: Account, log: seq<Movement>, info: CustomerInfo,
                         start: DateTime, end: DateTime, now: DateTime)
  {
    || (exists m :: m in MovementsInRange(log, a.id, start, end) && row == MovementRow(m, a, info))
    || (MovementsInRange(log, a.id, start, end) == [] && row == PlaceholderRow(a, info, now))
  }

  lemma AccountRowsOrigin(a: Account, log: seq<Movement>, info: CustomerInfo,
                          start: DateTime, end: DateTime, now: DateTime)
    ensures forall row :: row in AccountRows(a, log, info, start, end, now) ==>
              RowOfAccount(row, a, log, info, start, end, now)
  {
    var ms := MovementsInRange(log, a.id, start, end);
    if ms != [] {
      var sorted := Sort(ms, MovementDateOf, Ascending);
      SortCorrect(ms, MovementDateOf, Ascending);
      forall row | row in AccountRows(a, log, info, start, end, now)
        ensures RowOfAccount(row, a, log, info, start, end, now)
      {
        var i :| 0 <= i < |sorted| && MovementRows(sorted, a, info)[i] == row;
        assert sorted[i] in multiset(ms);
      }
    }
  }

  lemma {:induction false} AllRowsOrigin(accounts: seq<Account>, log: seq<Movement>, info: CustomerInfo,
                                         start: DateTime, end: DateTime, now: DateTime)
    ensures forall row :: row in AllRows(accounts, log, info, start, end, now) ==>
              RowOrigin(row, accounts, log, info, start, end, now)
  {
    if accounts != [] {
      var a := accounts[0];
      AllRowsOrigin(accounts[1..], log, info, start, end, now);
      AccountRowsOrigin(a, log, info, start, end, now);
      forall row | row in AllRows(accounts, log, info, start, end, now)
        ensures RowOrigin(row, accounts, log, info, start, end, now)
      {
        if row in AccountRows(a, log, info, start, end, now) {
          assert RowOfAccount(row, a, log, info, start, end, now);
        } else {
          assert row in AllRows(accounts[1..], log, info, start, end, now);
          var b :| b in accounts[1..] && RowOfAccount(row, b, log, info, start, end, now);
          assert b in accounts;
        }
      }
    }
  }

  // ---------------------------------------------------------------------------------------------
  // The statement
  // ---------------------------------------------------------------------------------------------

  /**
    `generateMovementReport`: a customer without accounts fails with "No accounts found for
    customer ID"; otherwise the rows of all the customer's accounts, newest first. The sort is
    stable: rows with the same date keep their order across the concatenation.
  */
  function GenerateMovementReport(lookup: Lookup, table: seq<Account>, log: seq<Movement>, customerId: int,
                                  start: DateTime, end: DateTime, now: DateTime)
    : (r: Result<seq<MovementReport>, AccountError>)
    ensures r.Failure? <==> forall a :: a in table ==> a.customerId != customerId
    ensures r.Failure? ==> r.error == NoAccountsForCustomer(customerId)
    ensures r.Success? ==>
              var rows := AllRows(CustomerAccounts(table, customerId), log, CustomerInfoOf(lookup), start, end, now);
              && SortedBy(r.value, FechaOf, Descending)
              && multiset(r.value) == multiset(rows)
              && |r.value| == TotalRowCount(CustomerAccounts(table, customerId), log, start, end)
              && forall k :: WithKey(r.value, FechaOf, k) == WithKey(rows, FechaOf, k)
  {
    var accounts := CustomerAccounts(table, customerId);
    if accounts == [] then
      Failure(NoAccountsForCustomer(customerId))
    else
      var info := CustomerInfoOf(lookup);
      var rows := AllRows(accounts, log, info, start, end, now);
      SortCorrect(rows, FechaOf, Descending);
      AllRowsLength(accounts, log, info, start, end, now);
      assert accounts[0] in accounts;
      Success(Sort(rows, FechaOf, Descending))
  }

  /** Every row of a statement traces back to a movement in the range or to a placeholder. */
  lemma ReportRowsOrigin(lookup: Lookup, table: seq<Account>, log: seq<Movement>, customerId: int,
                         start: DateTime, end: DateTime, now: DateTime)
    requires GenerateMovementReport(lookup, table, log, customerId, start, end, now).Success?
    ensures forall row :: row in GenerateMovementReport(lookup, table, log, customerId, start, end, now).value ==>
              RowOrigin(row, CustomerAccounts(table, customerId), log, CustomerInfoOf(lookup), start, end, now)
  {
    var accounts := CustomerAccounts(table, customerId);
    var info := CustomerInfoOf(lookup);
    var rows := AllRows(accounts, log, info, start, end, now);
    AllRowsOrigin(accounts, log, info, start, end, now);
    var report := GenerateMovementReport(lookup, table, log, customerId, start, end, now).value;
    forall row | row in report ensures RowOrigin(row, accounts, log, info, start, end, now) {
      assert row in multiset(report);
    }
  }

  // ---------------------------------------------------------------------------------------------
  // The exported sheet
  // ---------------------------------------------------------------------------------------------

  /** The content of one spreadsheet cell. */
  datatype Cell = Blank | Text(text: string) | Number(amount: Money)

  const HEADERS: seq<string> := ["Fecha", "Cliente", "Número Cuenta", "Tipo", "Saldo Inicial",
                                 "Estado", "Valor movimiento", "Tipo Movimiento", "Saldo Disponible"]

  function TextCell(s: Option<string>): Cell {
    Text(s.GetOr(""))
  }

  function NumberCell(n: Option<Money>): Cell {
    if n.Some? then Number(n.value) else Blank
  }

  function FlagCell(b: Option<bool>): Cell {
    if b.Some? then Text(if b.value then "True" else "False") else Blank
  }

  /** The nine cells a statement row is written as, in header order. */
  function RowCells(row: MovementReport): (cells: seq<Cell>)
    ensures |cells| == |HEADERS|
  {
    [Text(FormatDateTime(row.fecha)), TextCell(row.cliente), TextCell(row.numeroCuenta), TextCell(row.tipo),
     NumberCell(row.saldoInicial), FlagCell(row.estado), NumberCell(row.valorMovimiento),
     TextCell(row.tipoMovimiento), NumberCell(row.saldoDisponible)]
  }

  /**
    How a row's nulls reach the sheet: a null text field becomes an empty text cell, never a
    blank one, and an amount or status cell is blank exactly when its field is null.
  */
  lemma RowCellsNulls(row: MovementReport)
    ensures var cells := RowCells(row);
            && cells[1] == Text(row.cliente.GetOr("")) && cells[2] == Text(row.numeroCuenta.GetOr(""))
            && cells[3] == Text(row.tipo.GetOr("")) && cells[7] == Text(row.tipoMovimiento.GetOr(""))
            && (cells[4] == Blank <==> row.saldoInicial.None?) && (cells[5] == Blank <==> row.estado.None?)
            && (cells[6] == Blank <==> row.valorMovimiento.None?) && (cells[8] == Blank <==> row.saldoDisponible.None?)
  {
  }

  /**
    `generateAccountStatementExcel`'s sheet: the header row, then one row per statement row in
    statement order.
  */
  method StatementSheet(rows: seq<MovementReport>) returns (sheet: seq<seq<Cell>>)
    ensures |sheet| == |rows| + 1
    ensures |sheet[0]| == |HEADERS| && forall j :: 0 <= j < |HEADERS| ==> sheet[0][j] == Text(HEADERS[j])
    ensures forall i :: 0 <= i < |rows| ==> sheet[i + 1] == RowCells(rows[i])
    ensures forall i :: 0 <= i < |sheet| ==> |sheet[i]| == |HEADERS|
  {
    var header := HeaderRow();
    var body := DataRows(rows);
    sheet := [header] + body;
    assert sheet[0] == header;
    assert forall i :: 0 <= i < |rows| ==> sheet[i + 1] == body[i];
  }

  /** The data rows, one per statement row in statement order. */
  method DataRows(rows: seq<MovementReport>) returns (body: seq<seq<Cell>>)
    ensures |body| == |rows|
    ensures forall i :: 0 <= i < |rows| ==> body[i] == RowCells(rows[i])
  {
    body := [];
    for k := 0 to |rows|
      invariant |body| == k
      invariant forall i :: 0 <= i < k ==> body[i] == RowCells(rows[i])
    {
      var cells := WriteRow(rows[k]);
      body := body + [cells];
    }
  }

  /** The header row, one text cell per column title. */
  method HeaderRow() returns (header: seq<Cell>)
    ensures |header| == |HEADERS|
    ensures forall j :: 0 <= j < |HEADERS| ==> header[j] == Text(HEADERS[j])
  {
    header := [];
    for i := 0 to |HEADERS|
      invariant |header| == i
      invariant forall j :: 0 <= j < i ==> header[j] == Text(HEADERS[j])
    {
      header := header + [Text(HEADERS[i])];
    }
  }

  /** One data row, written cell by cell in column order. */
  method WriteRow(row: MovementReport) returns (cells: seq<Cell>)
    ensures cells == RowCells(row)
  {
    var date := Text(FormatDateTime(row.fecha));
    var cliente := TextCell(row.cliente);
    var numeroCuenta := TextCell(row.numeroCuenta);
    var tipo := TextCell(row.tipo);
    var saldoInicial := NumberCell(row.saldoInicial);
    var estado := FlagCell(row.estado);
    var valorMovimiento := NumberCell(row.valorMovimiento);
    var tipoMovimiento := TextCell(row.tipoMovimiento);
    var saldoDisponible := NumberCell(row.saldoDisponible);
    cells := [];
    cells := cells + [date];
    cells := cells + [cliente];
    cells := cells + [numeroCuenta];
    cells := cells + [tipo];
    cells := cells + [saldoInicial];
    cells := cells + [estado];
    cells := cells + [valorMovimiento];
    cells := cells + [tipoMovimiento];
    cells := cells + [saldoDisponible];
    assert cells == [date, cliente, numeroCuenta, tipo, saldoInicial, estado, valorMovimiento, tipoMovimiento, saldoDisponible];
  }

  /** What a reader of the sheet can recover from one data row. */
  datatype ReadBack = ReadBack(
    fecha: Option<StatementDate>,
    cliente: string,
    numeroCuenta: string,
    tipo: string,
    saldoInicial: Option<Money>,
    estado: Option<bool>,
    valorMovimiento: Option<Money>,
    tipoMovimiento: string,
    saldoDisponible: Option<Money>)

  function ReadText(c: Cell): string {
    if c.Text? then c.text else ""
  }

  function ReadNumber(c: Cell): Option<Money> {
    if c.Number? then Some(c.amount) else None
  }

  function ReadFlag(c: Cell): Option<bool> {
    if c == Text("True") then Some(true) else if c == Text("False") then Some(false) else None
  }

  function ReadDate(c: Cell): Option<StatementDate> {
    if c.Text? then ParseStatementDate(c.text) else None
  }

  function ReadRow(cells: seq<Cell>): ReadBack
    requires |cells| == |HEADERS|
  {
    ReadBack(ReadDate(cells[0]), ReadText(cells[1]), ReadText(cells[2]), ReadText(cells[3]),
             ReadNumber(cells[4]), ReadFlag(cells[5]), ReadNumber(cells[6]), ReadText(cells[7]),
             ReadNumber(cells[8]))
  }

  /**
    A data row loses nothing but the nulls of its text fields (written as empty text) and the
    date's nanoseconds: amounts and the status come back exactly, null ones as `None`, and the
    date text shows the row's day, month, year, hour, minute and second. Which cells are blank
    is stated by `RowCellsNulls`.
  */
  lemma RowRoundTrip(row: MovementReport)
    requires ValidDateTime(row.fecha) && 1 <= row.fecha.year <= 9999
    ensures ReadRow(RowCells(row))
            == ReadBack(Some(StatementDate(row.fecha.day, row.fecha.month, row.fecha.year,
                                           row.fecha.hour, row.fecha.minute, row.fecha.second)),
                        row.cliente.GetOr(""), row.numeroCuenta.GetOr(""), row.tipo.GetOr(""),
                        row.saldoInicial, row.estado, row.valorMovimiento,
                        row.tipoMovimiento.GetOr(""), row.saldoDisponible)
  {
    FormatRoundTrip(row.fecha);
  }
}
