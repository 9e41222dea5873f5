/**
  The account service's data: the `accounts` table, the `movements` log, the errors its
  services fail with, and the ledger arithmetic that ties a balance to the movements posted
  against it.
*/
module AccountModel {
  import opened Common

  /** A `BigDecimal` amount, kept exact (in the currency's smallest unit). */
  type Money = int

  /** A row of the `accounts` table; nullable columns the services test for null are options. */
  datatype Account = Account(
    id: int,
    accountNumber: string,
    accountType: string,
    initialBalance: Option<Money>,
    currentBalance: Money,
    status: bool,
    customerId: int,
    createdAt: Option<DateTime>,
    updatedAt: Option<DateTime>)

  /** A row of the `movements` table; `balance` is the account's balance just after the movement. */
  datatype Movement = Movement(
    id: int,
    accountId: int,
    movementDate: DateTime,
    movementType: string,
    value: Money,
    balance: Money,
    createdAt: DateTime)

  datatype AccountError =
    | InvalidValue
    | AccountNotFound(accountId: int)
    | AccountInactive
    | InsufficientBalance
    | InvalidMovementType
    | MovementNotFound(movementId: int)
    | DuplicateAccountNumber(accountNumber: string)
    | NoAccountsForCustomer(customerId: int)

  /** The message of the exception each error is raised with. */
  function Message(e: AccountError): string {
    match e
    case InvalidValue => "Movement value must be greater than zero"
    case AccountNotFound(id) => "Account not found with ID: " + IntToDecimal(id)
    case AccountInactive => "Account is inactive"
    case InsufficientBalance => "Saldo no disponible"
    case InvalidMovementType => "Invalid movement type. Must be DEBIT or CREDIT"
    case MovementNotFound(id) => "Movement not found with ID: " + IntToDecimal(id)
    case DuplicateAccountNumber(n) =>
      "Ya existe una cuenta registrada con el número '" + n
      + "'. Por favor, utilice un número de cuenta diferente."
    case NoAccountsForCustomer(id) => "No accounts found for customer ID: " + IntToDecimal(id)
  }

  /** The check an error reports, ignoring the id or number it names. */
  function ErrorKind(e: AccountError): nat {
    match e
    case InvalidValue => 0
    case AccountNotFound(_) => 1
    case AccountInactive => 2
    case InsufficientBalance => 3
    case InvalidMovementType => 4
    case MovementNotFound(_) => 5
    case DuplicateAccountNumber(_) => 6
    case NoAccountsForCustomer(_) => 7
  }

  /**
    A message names its account, movement, account number or customer exactly: two errors of
    the same kind raised with the same message are the same error.
  */
  lemma MessageIdentifiesError(e1: AccountError, e2: AccountError)
    requires ErrorKind(e1) == ErrorKind(e2)
    ensures Message(e1) == Message(e2) ==> e1 == e2
  {
    if Message(e1) == Message(e2) {
      match e1
      case AccountNotFound(id) =>
        AfterPrefix("Account not found with ID: ", IntToDecimal(id), IntToDecimal(e2.accountId));
        IntToDecimalInjective(id, e2.accountId);
      case MovementNotFound(id) =>
        AfterPrefix("Movement not found with ID: ", IntToDecimal(id), IntToDecimal(e2.movementId));
        IntToDecimalInjective(id, e2.movementId);
      case NoAccountsForCustomer(id) =>
        AfterPrefix("No accounts found for customer ID: ", IntToDecimal(id), IntToDecimal(e2.customerId));
        IntToDecimalInjective(id, e2.customerId);
      case DuplicateAccountNumber(n) =>
        AroundInfix("Ya existe una cuenta registrada con el número '", n, e2.accountNumber,
                    "'. Por favor, utilice un número de cuenta diferente.");
      case InvalidValue =>
      case AccountInactive =>
      case InsufficientBalance =>
      case InvalidMovementType =>
    }
  }

  const DEBIT := "DEBIT"
  const CREDIT := "CREDIT"

  predicate IsDebit(movementType: string) {
    EqualsIgnoreCase(DEBIT, movementType)
  }

  predicate IsCredit(movementType: string) {
    EqualsIgnoreCase(CREDIT, movementType)
  }

  lemma DebitIsNotCredit(movementType: string)
    ensures !(IsDebit(movementType) && IsCredit(movementType))
  {
  }

  /** What one movement adds to its account's balance: its value for a credit, minus it for a debit. */
  function Effect(m: Movement): Money {
    if IsDebit(m.movementType) then -m.value
    else if IsCredit(m.movementType) then m.value
    else 0
  }

  /** Credits minus debits over the movements of `log` posted against `accountId`. */
  function Net(log: seq<Movement>, accountId: int): Money {
    if log == [] then 0
    else Net(log[..|log| - 1], accountId)
         + (if log[|log| - 1].accountId == accountId then Effect(log[|log| - 1]) else 0)
  }

  /** The most recent movement of `log` posted against `accountId`, if any. */
  function LastMovementOf(log: seq<Movement>, accountId: int): (r: Option<Movement>)
    ensures r.Some? ==> r.value in log && r.value.accountId == accountId
    ensures r.None? <==> forall m :: m in log ==> m.accountId != accountId
  {
    if log == [] then None
    else if log[|log| - 1].accountId == accountId then Some(log[|log| - 1])
    else
      assert forall m :: m in log ==> m in log[..|log| - 1] || m == log[|log| - 1];
      LastMovementOf(log[..|log| - 1], accountId)
  }

  lemma NetAppend(log: seq<Movement>, m: Movement, accountId: int)
    ensures Net(log + [m], accountId)
            == Net(log, accountId) + (if m.accountId == accountId then Effect(m) else 0)
  {
    assert (log + [m])[..|log|] == log;
  }

  lemma LastMovementAppend(log: seq<Movement>, m: Movement, accountId: int)
    ensures LastMovementOf(log + [m], accountId)
            == if m.accountId == accountId then Some(m) else LastMovementOf(log, accountId)
  {
    assert (log + [m])[..|log|] == log;
  }

  /** An account no movement refers to has a net of zero. */
  lemma {:induction false} NetOfUnusedAccount(log: seq<Movement>, accountId: int)
    requires forall i :: 0 <= i < |log| ==> log[i].accountId != accountId
    ensures Net(log, accountId) == 0
  {
    if log != [] {
      NetOfUnusedAccount(log[..|log| - 1], accountId);
    }
  }

  /** Keys match ids, ids are below the sequences, movement ids and account numbers are unique. */
  predicate WellFormed(accounts: map<int, Account>, log: seq<Movement>, nextAccountId: int, nextMovementId: int) {
    && (forall id :: id in accounts ==> accounts[id].id == id && id < nextAccountId)
    && (forall i :: 0 <= i < |log| ==> log[i].id < nextMovementId)
    && (forall i, j :: 0 <= i < j < |log| ==> log[i].id != log[j].id)
    && (forall a, b ::
          a in accounts && b in accounts && accounts[a].accountNumber == accounts[b].accountNumber
          ==> a == b)
  }

  /**
    The ledger invariant: every account's balance is its opening balance plus its credits
    minus its debits, is never negative, and equals the balance snapshot of its latest movement;
    and every movement was posted against an account that had been created.
  */
  predicate LedgerBalanced(accounts: map<int, Account>, log: seq<Movement>, opening: map<int, Money>, nextAccountId: int) {
    && (forall i :: 0 <= i < |log| ==> log[i].accountId < nextAccountId)
    && forall id :: id in accounts ==>
      && id in opening
      && accounts[id].currentBalance == opening[id] + Net(log, id)
      && accounts[id].currentBalance >= 0
      && (LastMovementOf(log, id).Some? ==> LastMovementOf(log, id).value.balance == accounts[id].currentBalance)
  }

  /**
    The two tables of the account service's database (`accounts` keyed by id, `movements` in
    insertion order) and the identity sequences that number new rows.
  */
  class AccountStore {
    var accounts: map<int, Account>
    var movements: seq<Movement>
    var nextAccountId: int
    var nextMovementId: int
    /** Each account's balance when it was created, the base of its ledger. */
    ghost var opening: map<int, Money>

    /** The integrity constraints of the two tables. */
    ghost predicate Valid()
      reads this
    {
      WellFormed(accounts, movements, nextAccountId, nextMovementId)
    }

    /** The ledger invariant over the current tables. */
    ghost predicate Balanced()
      reads this
    {
      LedgerBalanced(accounts, movements, opening, nextAccountId)
    }

    /** An empty database. */
    constructor ()
      ensures Valid() && Balanced()
      ensures accounts == map[] && movements == [] && opening == map[]
      ensures nextAccountId == 1 && nextMovementId == 1
    {
      accounts := map[];
      movements := [];
      nextAccountId := 1;
      nextMovementId := 1;
      opening := map[];
    }
  }
}
