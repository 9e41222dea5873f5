/**
  `MovementService`: posting a debit or credit against an account (the ledger's only way of
  changing a balance), and finding, correcting and deleting movements by id.
*/
module MovementService {
  import opened Common
  import opened AccountModel

  /** The fields of a posting request the service reads; the other fields are overwritten. */
  datatype MovementRequest = MovementRequest(accountId: int, movementType: string, value: Money)

  /**
    The balance a posting leaves, or the error it is refused with, in the order the service
    checks: the amount, the account's existence, its status, then the movement type.
  */
  function PostingResult(accounts: map<int, Account>, request: MovementRequest): (r: Result<Money, AccountError>)
    ensures request.value <= 0 ==> r == Failure(InvalidValue)
    ensures request.value > 0 && request.accountId !in accounts ==> r == Failure(AccountNotFound(request.accountId))
    ensures request.value > 0 && request.accountId in accounts && !accounts[request.accountId].status
            ==> r == Failure(AccountInactive)
    ensures request.value > 0 && request.accountId in accounts && accounts[request.accountId].status
            && IsDebit(request.movementType) && request.value > accounts[request.accountId].currentBalance
            ==> r == Failure(InsufficientBalance)
    ensures request.value > 0 && request.accountId in accounts && accounts[request.accountId].status
            && !IsDebit(request.movementType) && !IsCredit(request.movementType)
            ==> r == Failure(InvalidMovementType)
    ensures r.Success? <==>
              && request.value > 0 && request.accountId in accounts && accounts[request.accountId].status
              && ((IsDebit(request.movementType) && request.value <= accounts[request.accountId].currentBalance)
                  || IsCredit(request.movementType))
    ensures r.Success? ==>
              && (IsDebit(request.movementType) ==>
                    r.value == accounts[request.accountId].currentBalance - request.value && r.value >= 0)
              && (!IsDebit(request.movementType) ==>
                    IsCredit(request.movementType)
                    && r.value == accounts[request.accountId].currentBalance + request.value)
  {
    if request.value <= 0 then Failure(InvalidValue)
    else if request.accountId !in accounts then Failure(AccountNotFound(request.accountId))
    else
      var account := accounts[request.accountId];
      if !account.status then Failure(AccountInactive)
      else if IsDebit(request.movementType) then
        var newBalance := account.currentBalance - request.value;
        if newBalance < 0 then Failure(InsufficientBalance) else Success(newBalance)
      else if IsCredit(request.movementType) then Success(account.currentBalance + request.value)
      else Failure(InvalidMovementType)
  }

  /** A debit of exactly the balance is accepted and leaves the account at zero. */
  lemma DebitOfWholeBalance(accounts: map<int, Account>, request: MovementRequest)
    requires request.accountId in accounts && accounts[request.accountId].status
    requires IsDebit(request.movementType) && request.value == accounts[request.accountId].currentBalance > 0
    ensures PostingResult(accounts, request) == Success(0)
  {
  }

  /**
    `createMovement`: on success the account's balance becomes the posting's result, its
    `updatedAt` becomes `now`, and exactly one movement is appended whose `balance` snapshot is
    the new balance; on any error neither table changes.
  */
  method CreateMovement(store: AccountStore, request: MovementRequest, now: DateTime)
    returns (r: Result<Movement, AccountError>)
    requires store.Valid()
    modifies store
    ensures store.Valid()
    ensures store.opening == old(store.opening) && store.nextAccountId == old(store.nextAccountId)
    ensures r.Failure? <==> PostingResult(old(store.accounts), request).Failure?
    ensures r.Failure? ==>
              && r.error == PostingResult(old(store.accounts), request).error
              && store.accounts == old(store.accounts)
              && store.movements == old(store.movements)
              && store.nextMovementId == old(store.nextMovementId)
    ensures r.Success? ==>
              && var balance := PostingResult(old(store.accounts), request).value;
              && r.value == Movement(old(store.nextMovementId), request.accountId, now,
                                     request.movementType, request.value, balance, now)
              && store.movements == old(store.movements) + [r.value]
              && store.accounts == old(store.accounts)[request.accountId :=
                   old(store.accounts)[request.accountId].(currentBalance := balance, updatedAt := Some(now))]
              && store.nextMovementId == old(store.nextMovementId) + 1
    ensures old(store.Balanced()) ==> store.Balanced()
  {
    var outcome := PostingResult(store.accounts, request);
    if outcome.Failure? {
      return Failure(outcome.error);
    }
    var movement := Post(store, request, outcome.value, now);
    return Success(movement);
  }

  /** The writes of an accepted posting: the account's new balance and the appended movement. */
  method Post(store: AccountStore, request: MovementRequest, newBalance: Money, now: DateTime)
    returns (movement: Movement)
    requires store.Valid()
    requires PostingResult(store.accounts, request) == Success(newBalance)
    modifies store
    ensures store.Valid()
    ensures store.opening == old(store.opening) && store.nextAccountId == old(store.nextAccountId)
    ensures movement == Movement(old(store.nextMovementId), request.accountId, now,
                                 request.movementType, request.value, newBalance, now)
    ensures store.movements == old(store.movements) + [movement]
    ensures store.accounts == old(store.accounts)[request.accountId :=
              old(store.accounts)[request.accountId].(currentBalance := newBalance, updatedAt := Some(now))]
    ensures store.nextMovementId == old(store.nextMovementId) + 1
    ensures old(store.Balanced()) ==> store.Balanced()
  {
    movement := Movement(store.nextMovementId, request.accountId, now,
                         request.movementType, request.value, newBalance, now);
    var account := store.accounts[request.accountId].(currentBalance := newBalance, updatedAt := Some(now));
    var accounts, log, opening := store.accounts, store.movements, store.opening;
    var nextAccountId, nextMovementId := store.nextAccountId, store.nextMovementId;
    PostingKeepsWellFormed(accounts, log, nextAccountId, nextMovementId, account, movement);
    if LedgerBalanced(accounts, log, opening, nextAccountId) {
      PostingKeepsLedger(accounts, log, opening, nextAccountId, request, newBalance, nextMovementId, now);
    }
    store.accounts, store.movements, store.nextMovementId :=
      accounts[request.accountId := account], log + [movement], nextMovementId + 1;
  }

  /** The account and the log after an accepted posting. */
  function Posted(accounts: map<int, Account>, log: seq<Movement>, request: MovementRequest, movementId: int, now: DateTime)
    : (r: (map<int, Account>, seq<Movement>))
    requires PostingResult(accounts, request).Success?
  {
    var balance := PostingResult(accounts, request).value;
    (accounts[request.accountId := accounts[request.accountId].(currentBalance := balance, updatedAt := Some(now))],
     log + [Movement(movementId, request.accountId, now, request.movementType, request.value, balance, now)])
  }

  /**
    An accepted posting keeps the ledger invariant: the account's new balance is still its
    opening balance plus its net movements, is not negative, and is the new movement's snapshot.
  */
  lemma PostingKeepsLedger(accounts: map<int, Account>, log: seq<Movement>, opening: map<int, Money>,
                           nextAccountId: int, request: MovementRequest, newBalance: Money,
                           movementId: int, now: DateTime)
    requires LedgerBalanced(accounts, log, opening, nextAccountId)
    requires forall id :: id in accounts ==> id < nextAccountId
    requires PostingResult(accounts, request) == Success(newBalance)
    ensures LedgerBalanced(
              accounts[request.accountId := accounts[request.accountId].(currentBalance := newBalance, updatedAt := Some(now))],
              log + [Movement(movementId, request.accountId, now, request.movementType, request.value, newBalance, now)],
              opening, nextAccountId)
  {
    var accounts' := accounts[request.accountId := accounts[request.accountId].(currentBalance := newBalance, updatedAt := Some(now))];
    var m := Movement(movementId, request.accountId, now, request.movementType, request.value, newBalance, now);
    var log' := log + [m];
    DebitIsNotCredit(request.movementType);
    forall id | id in accounts'
      ensures Net(log', id) == Net(log, id) + (if id == request.accountId then Effect(m) else 0)
      ensures LastMovementOf(log', id) == if id == request.accountId then Some(m) else LastMovementOf(log, id)
    {
      NetAppend(log, m, id);
      LastMovementAppend(log, m, id);
    }
  }

  /**
    A posting keeps ids and account numbers unique and below their sequences: it rewrites one
    account under its own id and number, and appends a movement numbered by the sequence.
  */
  lemma PostingKeepsWellFormed(accounts: map<int, Account>, log: seq<Movement>, nextAccountId: int,
                               nextMovementId: int, account: Account, m: Movement)
    requires WellFormed(accounts, log, nextAccountId, nextMovementId)
    requires account.id in accounts && accounts[account.id].accountNumber == account.accountNumber
    requires m.id == nextMovementId
    ensures WellFormed(accounts[account.id := account], log + [m], nextAccountId, nextMovementId + 1)
  {
    var accounts' := accounts[account.id := account];
    assert accounts'.Keys == accounts.Keys;
    assert forall id :: id in accounts' ==> accounts'[id].accountNumber == accounts[id].accountNumber;
  }

  /** The movement of `log` with the given id, if any. */
  function FindMovement(log: seq<Movement>, id: int): (r: Option<Movement>)
    ensures r.Some? ==> r.value in log && r.value.id == id
    ensures r.None? <==> forall m :: m in log ==> m.id != id
  {
    if log == [] then None
    else if log[0].id == id then Some(log[0])
    else
      assert forall m :: m in log ==> m == log[0] || m in log[1..];
      FindMovement(log[1..], id)
  }

  /** `getMovementById`: the movement with that id, or "Movement not found with ID". */
  function GetMovementById(store: AccountStore, id: int): (r: Result<Movement, AccountError>)
    reads store
    ensures r.Failure? <==> forall m :: m in store.movements ==> m.id != id
    ensures r.Failure? ==> r.error == MovementNotFound(id)
    ensures r.Success? ==> r.value in store.movements && r.value.id == id
  {
    match FindMovement(store.movements, id)
    case Some(m) => Success(m)
    case None => Failure(MovementNotFound(id))
  }

  /** `log` without the movements carrying `id`, in the same order. */
  function WithoutMovement(log: seq<Movement>, id: int): (r: seq<Movement>)
    ensures forall m :: m in r <==> m in log && m.id != id
  {
    if log == [] then []
    else
      assert forall m :: m in log ==> m == log[0] || m in log[1..];
      (if log[0].id == id then [] else [log[0]]) + WithoutMovement(log[1..], id)
  }

  /** Ids are unique, so removing an id that occurs removes exactly one movement. */
  lemma {:induction false} WithoutPresentMovement(log: seq<Movement>, id: int)
    requires forall i, j :: 0 <= i < j < |log| ==> log[i].id != log[j].id
    requires exists m :: m in log && m.id == id
    ensures |WithoutMovement(log, id)| == |log| - 1
  {
    if log[0].id == id {
      forall m | m in log[1..] ensures m.id != id {
        var j :| 0 <= j < |log[1..]| && log[1..][j] == m;
        assert log[j + 1] == m;
      }
      WithoutAbsentMovement(log[1..], id);
    } else {
      var m :| m in log && m.id == id;
      assert m in log[1..];
      WithoutPresentMovement(log[1..], id);
    }
  }

  lemma {:induction false} WithoutAbsentMovement(log: seq<Movement>, id: int)
    requires forall m :: m in log ==> m.id != id
    ensures WithoutMovement(log, id) == log
  {
    if log != [] {
      assert log[0] in log;
      assert forall m :: m in log[1..] ==> m in log;
      WithoutAbsentMovement(log[1..], id);
    }
  }

  predicate UniqueIds(log: seq<Movement>) {
    forall i, j :: 0 <= i < j < |log| ==> log[i].id != log[j].id
  }

  lemma PrependUnique(x: Movement, t: seq<Movement>)
    requires UniqueIds(t) && forall m :: m in t ==> m.id != x.id
    ensures UniqueIds([x] + t)
  {
    var r := [x] + t;
    forall i, j | 0 <= i < j < |r| ensures r[i].id != r[j].id {
      assert r[j] == t[j - 1];
      if i > 0 {
        assert r[i] == t[i - 1];
      }
    }
  }

  /** Removing movements keeps movement ids unique. */
  lemma {:induction false} WithoutMovementUnique(log: seq<Movement>, id: int)
    requires UniqueIds(log)
    ensures UniqueIds(WithoutMovement(log, id))
  {
    if log != [] {
      assert UniqueIds(log[1..]);
      WithoutMovementUnique(log[1..], id);
      if log[0].id != id {
        var t := WithoutMovement(log[1..], id);
        forall m | m in t ensures m.id != log[0].id {
          var k :| 0 <= k < |log[1..]| && log[1..][k] == m;
          assert log[k + 1] == m;
        }
        PrependUnique(log[0], t);
      }
    }
  }

  /**
    `deleteMovement`: an unknown id fails with "Movement not found with ID" and removes nothing;
    otherwise exactly that movement leaves the log, the others keep their order, and no balance
    is touched.
  */
  method DeleteMovement(store: AccountStore, id: int) returns (r: Result<(), AccountError>)
    requires store.Valid()
    modifies store
    ensures store.Valid()
    ensures store.accounts == old(store.accounts) && store.opening == old(store.opening)
    ensures store.nextAccountId == old(store.nextAccountId) && store.nextMovementId == old(store.nextMovementId)
    ensures r.Failure? <==> forall m :: m in old(store.movements) ==> m.id != id
    ensures r.Failure? ==> r.error == MovementNotFound(id) && store.movements == old(store.movements)
    ensures r.Success? ==>
              && store.movements == WithoutMovement(old(store.movements), id)
              && |store.movements| == |old(store.movements)| - 1
  {
    var found := FindMovement(store.movements, id);
    if found.None? {
      return Failure(MovementNotFound(id));
    }
    WithoutPresentMovement(store.movements, id);
    WithoutMovementUnique(store.movements, id);
    ghost var oldLog := store.movements;
    store.movements := WithoutMovement(store.movements, id);
    forall i | 0 <= i < |store.movements|
      ensures exists j :: 0 <= j < |oldLog| && oldLog[j] == store.movements[i]
    {
      assert store.movements[i] in store.movements;
    }
    return Success(());
  }

  /** A correction request; the date and balance are nullable. */
  datatype MovementUpdate = MovementUpdate(
    accountId: int,
    movementType: string,
    value: Money,
    movementDate: Option<DateTime>,
    balance: Option<Money>)

  /** The corrected row: `id` and `createdAt` are never copied from the request. */
  function Corrected(existing: Movement, update: MovementUpdate): (m: Movement)
    ensures m.id == existing.id && m.createdAt == existing.createdAt
    ensures m.accountId == update.accountId && m.movementType == update.movementType && m.value == update.value
    ensures update.movementDate.Some? ==> m.movementDate == update.movementDate.value
    ensures update.movementDate.None? ==> m.movementDate == existing.movementDate
    ensures update.balance.Some? ==> m.balance == update.balance.value
    ensures update.balance.None? ==> m.balance == existing.balance
  {
    existing.(accountId := update.accountId, movementType := update.movementType, value := update.value,
              movementDate := update.movementDate.GetOr(existing.movementDate),
              balance := update.balance.GetOr(existing.balance))
  }

  /**
    `updateMovement`: an unknown id fails with "Movement not found with ID" and changes nothing;
    otherwise the movement with that id is corrected in place and every other row is kept.
    Balances are not recomputed, so a correction can break the ledger invariant.
  */
  method UpdateMovement(store: AccountStore, id: int, update: MovementUpdate)
    returns (r: Result<Movement, AccountError>)
    requires store.Valid()
    modifies store
    ensures store.Valid()
    ensures store.accounts == old(store.accounts) && store.opening == old(store.opening)
    ensures store.nextAccountId == old(store.nextAccountId) && store.nextMovementId == old(store.nextMovementId)
    ensures r.Failure? <==> forall m :: m in old(store.movements) ==> m.id != id
    ensures r.Failure? ==> r.error == MovementNotFound(id) && store.movements == old(store.movements)
    ensures r.Success? ==>
              && |store.movements| == |old(store.movements)|
              && r.value in store.movements && r.value.id == id
              && forall i :: 0 <= i < |store.movements| ==>
                   store.movements[i] == if old(store.movements)[i].id == id
                                         then Corrected(old(store.movements)[i], update)
                                         else old(store.movements)[i]
  {
    var found := FindMovement(store.movements, id);
    if found.None? {
      return Failure(MovementNotFound(id));
    }
    var k :| 0 <= k < |store.movements| && store.movements[k] == found.value;
    var corrected := Corrected(store.movements[k], update);
    store.movements := store.movements[k := corrected];
    assert store.movements[k] == corrected;
    forall i | 0 <= i < |store.movements| && i != k ensures old(store.movements)[i].id != id {
      assert old(store.movements)[i].id != old(store.movements)[k].id;
    }
    return Success(corrected);
  }
}
