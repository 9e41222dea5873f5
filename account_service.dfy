/**
  `AccountService`: opening accounts with a unique number, looking them up by id or by customer,
  partial updates, and deletion, over the `accounts` table of an `AccountStore`.
*/
module AccountService {
  import opened Common
  import opened AccountModel

  /** The validated fields of an account creation request. */
  datatype AccountRequest = AccountRequest(
    accountNumber: string,
    accountType: string,
    initialBalance: Money,
    status: bool,
    customerId: int)

  /** `findByAccountNumber`: whether some account already carries the number. */
  predicate NumberTaken(accounts: map<int, Account>, accountNumber: string) {
    exists id :: id in accounts && accounts[id].accountNumber == accountNumber
  }

  /** The row a creation request is saved as: the current balance starts at the initial balance. */
  function NewAccount(id: int, request: AccountRequest, now: DateTime): (a: Account)
    ensures a.id == id && a.currentBalance == request.initialBalance
    ensures a.initialBalance == Some(request.initialBalance)
    ensures a.accountNumber == request.accountNumber && a.accountType == request.accountType
    ensures a.status == request.status && a.customerId == request.customerId
    ensures a.createdAt == Some(now) && a.updatedAt == Some(now)
  {
    Account(id, request.accountNumber, request.accountType, Some(request.initialBalance),
            request.initialBalance, request.status, request.customerId, Some(now), Some(now))
  }

  /**
    `createAccount`: a number already in the table fails with the duplicate-number error and
    inserts nothing; otherwise exactly one account is inserted under a fresh id, its ledger opens
    at the initial balance, and no other account changes.
  */
  method CreateAccount(store: AccountStore, request: AccountRequest, now: DateTime)
    returns (r: Result<Account, AccountError>)
    requires store.Valid()
    modifies store
    ensures store.Valid()
    ensures store.movements == old(store.movements) && store.nextMovementId == old(store.nextMovementId)
    ensures r.Failure? <==> NumberTaken(old(store.accounts), request.accountNumber)
    ensures r.Failure? ==>
              && r.error == DuplicateAccountNumber(request.accountNumber)
              && store.accounts == old(store.accounts)
              && store.opening == old(store.opening)
              && store.nextAccountId == old(store.nextAccountId)
    ensures r.Success? ==>
              && old(store.nextAccountId) !in old(store.accounts)
              && r.value == NewAccount(old(store.nextAccountId), request, now)
              && store.accounts == old(store.accounts)[r.value.id := r.value]
              && store.opening == old(store.opening)[r.value.id := request.initialBalance]
              && store.nextAccountId == old(store.nextAccountId) + 1
    ensures old(store.Balanced()) && request.initialBalance >= 0 ==> store.Balanced()
  {
    if NumberTaken(store.accounts, request.accountNumber) {
      return Failure(DuplicateAccountNumber(request.accountNumber));
    }
    var account := NewAccount(store.nextAccountId, request, now);
    if store.Balanced() {
      NetOfUnusedAccount(store.movements, account.id);
      assert LastMovementOf(store.movements, account.id).None?;
    }
    store.accounts := store.accounts[account.id := account];
    store.opening := store.opening[account.id := request.initialBalance];
    store.nextAccountId := store.nextAccountId + 1;
    return Success(account);
  }

  /** `getAccountById`: the account, or "Account not found with ID". */
  function GetAccountById(store: AccountStore, id: int): (r: Result<Account, AccountError>)
    reads store
    requires store.Valid()
    ensures r.Failure? <==> id !in store.accounts
    ensures r.Failure? ==> r.error == AccountNotFound(id)
    ensures r.Success? ==> r.value.id == id && r.value == store.accounts[id]
  {
    if id in store.accounts then Success(store.accounts[id]) else Failure(AccountNotFound(id))
  }

  /** The accounts of `accounts` whose `customerId` is the given one, keyed by id. */
  function AccountsOfCustomer(accounts: map<int, Account>, customerId: int): (r: map<int, Account>)
    ensures r.Keys <= accounts.Keys
    ensures forall id :: id in r ==> r[id] == accounts[id] && r[id].customerId == customerId
    ensures forall id :: id in accounts && accounts[id].customerId == customerId ==> id in r
  {
    map id | id in accounts && accounts[id].customerId == customerId :: accounts[id]
  }

  /** `getAccountsByCustomerId`: exactly the customer's accounts; none is not an error. */
  function GetAccountsByCustomerId(store: AccountStore, customerId: int): (r: map<int, Account>)
    reads store
    ensures forall id :: id in r <==> id in store.accounts && store.accounts[id].customerId == customerId
    ensures forall id :: id in r ==> r[id] == store.accounts[id]
  {
    AccountsOfCustomer(store.accounts, customerId)
  }

  /** A new account is listed for its customer and for no other. */
  lemma NewAccountListed(accounts: map<int, Account>, id: int, request: AccountRequest, now: DateTime, customerId: int)
    ensures var listed := AccountsOfCustomer(accounts[id := NewAccount(id, request, now)], customerId);
            id in listed <==> customerId == request.customerId
  {
  }

  /** The nullable fields of an account update request. */
  datatype AccountUpdate = AccountUpdate(
    accountType: Option<string>,
    status: Option<bool>,
    initialBalance: Option<Money>)

  /** `existing` with the request's non-null fields written over it and `updatedAt` set. */
  function Updated(existing: Account, update: AccountUpdate, now: DateTime): (a: Account)
    ensures a.accountType == update.accountType.GetOr(existing.accountType)
    ensures a.status == update.status.GetOr(existing.status)
    ensures a.initialBalance == if update.initialBalance.Some? then update.initialBalance else existing.initialBalance
    ensures a.updatedAt == Some(now)
    ensures a.id == existing.id && a.accountNumber == existing.accountNumber
    ensures a.currentBalance == existing.currentBalance && a.customerId == existing.customerId
    ensures a.createdAt == existing.createdAt
  {
    var a := if update.accountType.Some? then existing.(accountType := update.accountType.value) else existing;
    var a := if update.status.Some? then a.(status := update.status.value) else a;
    var a := if update.initialBalance.Some? then a.(initialBalance := update.initialBalance) else a;
    a.(updatedAt := Some(now))
  }

  /** An update with every field null only refreshes `updatedAt`. */
  lemma EmptyUpdate(existing: Account, now: DateTime)
    ensures Updated(existing, AccountUpdate(None, None, None), now) == existing.(updatedAt := Some(now))
  {
  }

  /**
    `updateAccount`: an unknown id fails with "Account not found with ID" and changes nothing;
    otherwise only that account changes, by `Updated`. The balance is never touched, so the
    ledger stays balanced even when the initial balance is rewritten.
  */
  method UpdateAccount(store: AccountStore, id: int, update: AccountUpdate, now: DateTime)
    returns (r: Result<Account, AccountError>)
    requires store.Valid()
    modifies store
    ensures store.Valid()
    ensures store.movements == old(store.movements) && store.opening == old(store.opening)
    ensures store.nextAccountId == old(store.nextAccountId) && store.nextMovementId == old(store.nextMovementId)
    ensures r.Failure? <==> id !in old(store.accounts)
    ensures r.Failure? ==> r.error == AccountNotFound(id) && store.accounts == old(store.accounts)
    ensures r.Success? ==>
              && r.value == Updated(old(store.accounts)[id], update, now)
              && store.accounts == old(store.accounts)[id := r.value]
    ensures old(store.Balanced()) ==> store.Balanced()
  {
    if id !in store.accounts {
      return Failure(AccountNotFound(id));
    }
    var account := ApplyToAccount(store.accounts[id], update, now);
    store.accounts := store.accounts[id := account];
    return Success(account);
  }

  /** The setters of `updateAccount`, one non-null field at a time. */
  method ApplyToAccount(existing: Account, update: AccountUpdate, now: DateTime) returns (account: Account)
    ensures account == Updated(existing, update, now)
  {
    account := existing;
    if update.accountType.Some? {
      account := account.(accountType := update.accountType.value);
    }
    if update.status.Some? {
      account := account.(status := update.status.value);
    }
    if update.initialBalance.Some? {
      account := account.(initialBalance := update.initialBalance);
    }
    account := account.(updatedAt := Some(now));
  }

  /**
    `deleteAccount`: an unknown id fails with "Account not found with ID" and changes nothing;
    otherwise exactly that account leaves the table. Its movements stay in the log.
  */
  method DeleteAccount(store: AccountStore, id: int) returns (r: Result<(), AccountError>)
    requires store.Valid()
    modifies store
    ensures store.Valid()
    ensures store.movements == old(store.movements) && store.opening == old(store.opening)
    ensures store.nextAccountId == old(store.nextAccountId) && store.nextMovementId == old(store.nextMovementId)
    ensures r.Failure? <==> id !in old(store.accounts)
    ensures r.Failure? ==> r.error == AccountNotFound(id) && store.accounts == old(store.accounts)
    ensures r.Success? ==> store.accounts == old(store.accounts) - {id}
    ensures old(store.Balanced()) ==> store.Balanced()
  {
    if id !in store.accounts {
      return Failure(AccountNotFound(id));
    }
    store.accounts := store.accounts - {id};
    return Success(());
  }
}
