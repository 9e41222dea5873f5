# Banking ledger, statements and customer registry — a Dafny model

This project models the core of a two-service banking back end.

- The **account service** keeps an `accounts` table and an append-only `movements` log.
  - It posts debits and credits against accounts (`MovementService.createMovement`).
  - It opens, reads, updates and deletes accounts (`AccountService`).
  - It builds a customer's account statement over a date range and exports it as a nine-column sheet (`ReportService`).
- The **customer service** keeps a `persons` table and a `customers` table.
  - It registers a customer for a new or an existing person by the person's identification (`CustomerService.createCustomer`).
  - It reads, partially updates and deletes customers and persons (`CustomerService`, `PersonService`).

## Modelling choices

- Each service call is one atomic step. The reactive pipeline is modelled as follows:
  - an emitted value becomes `Success`;
  - an error becomes `Failure` with an error datatype whose `Message` is the text of the exception;
  - an empty result becomes `Option.None`.
- The database of each service is a class:
  - `AccountModel.AccountStore` holds `accounts: map<int, Account>`, `movements: seq<Movement>` and the two identity sequences;
  - `CustomerModel.CustomerStore` holds `persons` and `customers` maps and their sequences.
- The service operations are methods that take the store and declare `modifies store`. Lookups are functions that read it.
- `Valid()` states the tables' integrity constraints:
  - every key equals its row's id and lies below the identity sequence;
  - account numbers and movement ids are unique;
  - no person has two customers;
  - every customer refers to a person id that has already been handed out.
- `AccountStore.Balanced()` is the ledger invariant:
  - every balance equals the account's opening balance plus its credits minus its debits;
  - no balance is negative;
  - every balance equals the snapshot in the account's latest movement.
  The opening balance is a ghost field: each account's balance at its creation. It is not the `initialBalance` column, which `updateAccount` can rewrite (AccountService.java:77-85) while the current balance stays as it is.
- Amounts (`BigDecimal`) are exact integers (`Money`).
- The clock is a `now` parameter; each operation takes a single `now`.
- Nullable columns and request fields that the services test for null are `Option`s.
- `String.equalsIgnoreCase` is modelled by its definition:
  - two strings match when they have equal length and every pair of characters is equal, equal after upper-casing, or equal after upper- then lower-casing;
  - `Common.KeywordMatch` proves which strings match `DEBIT` and `CREDIT`.
- `LocalDateTime` and its ordering are modelled in `Common`.
- Pattern `dd/MM/yyyy HH:mm:ss` is modelled in `DateFormat`:
  - the year pattern prints the year of era;
  - a year of more than four digits is printed with a sign.
- `Stream.sorted` with `Comparator.comparing(...)` and `.reversed()` is a stable insertion sort in `StableSort`. It is proved sorted, a permutation and stable.
- The statement is a pure function of three inputs:
  - the customer directory's answer;
  - the account table as a sequence;
  - the movement log.
  Every repository query is a filter that keeps table order.
- `Customer.java` is not part of this model. The customer row's fields come from the columns that `CustomerRepository` selects.

## Model

| member | source | states |
|---|---|---|
| Common.KeywordMatch | account-service/src/main/java/org/example/accountservice/service/MovementService.java:48-55 | matching "DEBIT"/"CREDIT" ignoring case accepts exactly the same-length strings that spell each letter in either case (or with one of the four non-ASCII characters whose case mapping lands on it) |
| StableSort.SortCorrect | account-service/src/main/java/org/example/accountservice/service/ReportService.java:228-231 | sorting by a date key in either direction yields an ordered permutation of the input that keeps the input order of elements sharing a key |
| DateFormat.FormatRoundTrip | account-service/src/main/java/org/example/accountservice/service/ReportService.java:82-99 | for a valid date in years 1–9999 the date text has the 19-character `dd/MM/yyyy HH:mm:ss` layout and reads back as exactly the date's day, month, year, hour, minute and second |
| DateFormat.LongYearHasSign | account-service/src/main/java/org/example/accountservice/service/ReportService.java:82 | a year of five or more digits is printed as `+` followed by its digits |
| DateFormat.FormatDateTime | account-service/src/main/java/org/example/accountservice/service/ReportService.java:82-99 | the date text is at least nineteen characters: two digits or more per field and four or more for the year |
| AccountModel.NetAppend | account-service/src/main/java/org/example/accountservice/service/MovementService.java:61-70 | appending a movement changes the net of its own account by the movement's signed value and no other account's net |
| AccountModel.NetOfUnusedAccount | account-service/src/main/java/org/example/accountservice/service/AccountService.java:37-41 | an account no movement refers to has a net of zero, so a new account's ledger starts at its opening balance |
| AccountModel.MessageIdentifiesError | account-service/src/main/java/org/example/accountservice/service/MovementService.java:37-117 | each exception message names its account, movement, account number or customer exactly: two errors of the same kind with the same message are the same error |
| MovementService.PostingResult | account-service/src/main/java/org/example/accountservice/service/MovementService.java:36-59 | the error checks in order: a non-positive value, a missing account, an inactive account, a debit above the balance, an unknown type; a posting is accepted exactly when the value is positive, the account exists and is active, and it is a debit within the balance or a credit; on acceptance a debit leaves old − value ≥ 0 and a credit leaves old + value |
| MovementService.DebitOfWholeBalance | account-service/src/main/java/org/example/accountservice/service/MovementService.java:49-54 | a debit of exactly the balance is accepted and leaves zero |
| MovementService.CreateMovement | account-service/src/main/java/org/example/accountservice/service/MovementService.java:36-70 | each error leaves both tables unchanged; on success only the one account changes (new balance, updatedAt = now), exactly one movement dated now is appended with the new balance as its snapshot, and the ledger invariant is kept |
| MovementService.Post | account-service/src/main/java/org/example/accountservice/service/MovementService.java:61-70 | writes an accepted posting: the account gets the new balance and updatedAt = now, one movement numbered by the sequence is appended with the new balance as its snapshot, and both the integrity constraints and the ledger invariant are kept |
| MovementService.PostingKeepsLedger | account-service/src/main/java/org/example/accountservice/service/MovementService.java:47-70 | after an accepted posting every balance is still its opening balance plus credits minus debits, non-negative, and equal to its latest movement's snapshot |
| MovementService.PostingKeepsWellFormed | account-service/src/main/java/org/example/accountservice/service/MovementService.java:61-70 | an accepted posting keeps ids unique and below their sequences and account numbers unique |
| MovementService.GetMovementById | account-service/src/main/java/org/example/accountservice/service/MovementService.java:77-83 | fails with "Movement not found with ID" exactly when no movement has the id; otherwise returns a logged movement with that id |
| MovementService.DeleteMovement | account-service/src/main/java/org/example/accountservice/service/MovementService.java:114-121 | a missing id fails and removes nothing; otherwise exactly that movement leaves the log (one fewer row), the rest keep their order, no account changes |
| MovementService.WithoutPresentMovement | account-service/src/main/java/org/example/accountservice/service/MovementService.java:116-118 | with unique ids, removing an id that occurs removes exactly one movement |
| MovementService.UpdateMovement | account-service/src/main/java/org/example/accountservice/service/MovementService.java:100-106 | a missing id fails and changes nothing; otherwise the row with that id is corrected in place, keeping its id and createdAt, and every other row is kept; the table integrity constraints (`Valid`) are kept |
| MovementService.Corrected | account-service/src/main/java/org/example/accountservice/mapper/MovementMapper.java:19-21 | the corrected row keeps its id and createdAt and takes the request's account, type and value; by the model's choice, it keeps the stored date and balance when the request leaves them null |
| AccountService.CreateAccount | account-service/src/main/java/org/example/accountservice/service/AccountService.java:30-41 | fails with the duplicate-number error exactly when the number is taken, inserting nothing; otherwise inserts one account under a fresh id with currentBalance = initialBalance and both timestamps now, and keeps the ledger invariant when the initial balance is not negative |
| AccountService.GetAccountById | account-service/src/main/java/org/example/accountservice/service/AccountService.java:49-55 | fails with "Account not found with ID" exactly when the id is missing; otherwise returns that account |
| AccountService.GetAccountsByCustomerId | account-service/src/main/java/org/example/accountservice/service/AccountService.java:64-68 | returns exactly the accounts whose customerId matches |
| AccountService.NewAccountListed | account-service/src/main/java/org/example/accountservice/service/AccountService.java:64-68 | a newly inserted account is listed for its own customer and for no other |
| AccountService.Updated | account-service/src/main/java/org/example/accountservice/service/AccountService.java:77-86 | the non-null type, status and initial balance replace the stored ones; id, number, customer, currentBalance and createdAt are kept; updatedAt becomes now |
| AccountService.ApplyToAccount | account-service/src/main/java/org/example/accountservice/service/AccountService.java:77-86 | setting each non-null field in turn gives exactly the updated account the update describes |
| AccountService.UpdateAccount | account-service/src/main/java/org/example/accountservice/service/AccountService.java:74-87 | a missing id fails and changes nothing; otherwise only that account changes, and the ledger invariant is kept even when the initial balance is rewritten |
| AccountService.DeleteAccount | account-service/src/main/java/org/example/accountservice/service/AccountService.java:97-99 | a missing id fails and changes nothing; otherwise exactly that account is removed, all others and the log untouched |
| ReportService.CustomerInfoOf | account-service/src/main/java/org/example/accountservice/service/CustomerClientService.java:39-45 | a failed directory call (no connection, an error status, an unreadable body) yields the name "Cliente no disponible"; an answer is passed through |
| ReportService.CustomerAccounts | account-service/src/main/java/org/example/accountservice/service/ReportService.java:165-166 | an account is listed exactly when it is in the table and belongs to the customer, as often as it occurs in the table, and no other |
| ReportService.CustomerAccountsAgree | account-service/src/main/java/org/example/accountservice/service/ReportService.java:165-166 | over a table holding exactly the rows of the account map, the report's list and `AccountService.AccountsOfCustomer` hold the same accounts |
| ReportService.MovementsInRange | account-service/src/main/java/org/example/accountservice/repository/MovementRepository.java:16 | a movement is selected exactly when it belongs to the account and start ≤ movementDate ≤ end, as often as it occurs in the log, and no other |
| ReportService.OpeningBalance | account-service/src/main/java/org/example/accountservice/service/ReportService.java:188-193 | for a credit, opening + value = balance; for any other type, opening − value = balance |
| ReportService.OpeningBalanceUndoesPosting | account-service/src/main/java/org/example/accountservice/service/ReportService.java:188-193 | for any request `PostingResult` accepts, the movement `Posted` appends has an opening balance equal to the account's balance just before the posting |
| ReportService.MovementLabel | account-service/src/main/java/org/example/accountservice/service/ReportService.java:184-186 | the label is "Débito" exactly when the type equals DEBIT ignoring case, otherwise "Crédito" |
| ReportService.MovementRow | account-service/src/main/java/org/example/accountservice/service/ReportService.java:184-205 | dated and valued as the movement, with the account's number, type and status; labelled "Débito" exactly for a debit; starts from a balance that, with the movement applied, gives the movement's balance snapshot |
| ReportService.PlaceholderRow | account-service/src/main/java/org/example/accountservice/service/ReportService.java:208-219 | dated at the account's creation or at now when that is null; moves zero under "Sin movimientos" from the initial balance (or the current one when that is null) to the current balance |
| ReportService.PlaceholderIsNoMovementRow | account-service/src/main/java/org/example/accountservice/service/ReportService.java:184-220 | a placeholder row never equals a movement row, since its label is neither "Débito" nor "Crédito" |
| ReportService.AccountRowsShape | account-service/src/main/java/org/example/accountservice/service/ReportService.java:177-221 | an account without in-range movements yields exactly its placeholder row; otherwise exactly one row per movement, oldest first, a stable permutation of the movement rows |
| ReportService.MovementRowsSort | account-service/src/main/java/org/example/accountservice/service/ReportService.java:178-182 | sorting the movements by date and then building rows equals building rows and sorting them by date |
| ReportService.AllRowsLength | account-service/src/main/java/org/example/accountservice/service/ReportService.java:172-229 | the concatenation has one row per in-range movement of each account, plus one per account without any |
| ReportService.AllRowsOrigin | account-service/src/main/java/org/example/accountservice/service/ReportService.java:172-221 | every row comes from an in-range movement of one of the accounts or is the placeholder of an account without any |
| ReportService.GenerateMovementReport | account-service/src/main/java/org/example/accountservice/service/ReportService.java:160-231 | fails with "No accounts found for customer ID" exactly when the customer owns no account; otherwise newest first, a permutation of the per-account rows concatenated in account order, of the summed length, stable for equal dates |
| ReportService.ReportRowsOrigin | account-service/src/main/java/org/example/accountservice/service/ReportService.java:172-231 | every row of a statement traces back to an in-range movement or a placeholder of one of the customer's accounts |
| ReportService.RowCells | account-service/src/main/java/org/example/accountservice/service/ReportService.java:97-141 | every data row has as many cells as there are headers |
| ReportService.RowCellsNulls | account-service/src/main/java/org/example/accountservice/service/ReportService.java:104-141 | a null text field is written as an empty text cell, never a blank one; a cell for an amount or the status is blank exactly when that field is null |
| ReportService.WriteRow | account-service/src/main/java/org/example/accountservice/service/ReportService.java:97-141 | writing the nine cells one by one gives exactly the row's cells in header order |
| ReportService.StatementSheet | account-service/src/main/java/org/example/accountservice/service/ReportService.java:81-142 | the first row is exactly the nine headers in order; then one row per statement row in statement order; every row has nine cells |
| ReportService.RowRoundTrip | account-service/src/main/java/org/example/accountservice/service/ReportService.java:97-141 | reading a data row back recovers the date's fields, the amounts and the status exactly, and each text field, reading a null one as "". Whether a null became a blank or an empty text cell is stated by `RowCellsNulls` |
| CustomerModel.BuildCustomerDto | customer-service/src/main/java/org/example/customerservice/service/CustomerService.java:231-244 | keeps every field of the customer except its person id, and shows the person's name, gender, identification, address and phone |
| CustomerModel.BuildCustomerDtoWithoutPerson | customer-service/src/main/java/org/example/customerservice/service/CustomerService.java:246-259 | keeps every field of the customer except its person id, and leaves every person field null |
| CustomerModel.CustomerDtoRoundTrip | customer-service/src/main/java/org/example/customerservice/service/CustomerService.java:231-259 | the view keeps the customer's id, password, status and timestamps and the person's five fields; without the person it keeps the same customer fields with every person field null |
| CustomerModel.MessageIdentifiesError | customer-service/src/main/java/org/example/customerservice/service/CustomerService.java:44-199 | each exception message names its customer, person or identification exactly: two errors of the same kind with the same message are the same error |
| PersonService.CreatePerson | customer-service/src/main/java/org/example/customerservice/service/PersonService.java:24-37 | fails with "Person with identification already exists" exactly when the identification is taken, inserting nothing; otherwise inserts one person under a fresh id with both timestamps now |
| PersonService.GetPersonById | customer-service/src/main/java/org/example/customerservice/service/PersonService.java:43-48 | fails with "Person not found with ID" exactly when the id is missing; otherwise returns that person |
| PersonService.Rewritten | customer-service/src/main/java/org/example/customerservice/mapper/PersonMapper.java:19-22 | the rewritten person keeps its id and createdAt, takes all five fields from the request, and is stamped now |
| PersonService.RewriteIgnoresRequestKeys | customer-service/src/main/java/org/example/customerservice/mapper/PersonMapper.java:19-22 | the id and timestamps a request carries never reach the stored row |
| PersonService.UpdatePerson | customer-service/src/main/java/org/example/customerservice/service/PersonService.java:58-67 | a missing id fails and changes nothing; otherwise only that person changes, keeping its id and createdAt, with updatedAt = now |
| PersonService.DeletePerson | customer-service/src/main/java/org/example/customerservice/service/PersonService.java:73-80 | a missing id fails and changes nothing; otherwise exactly that person is removed |
| CustomerService.Adopted | customer-service/src/main/java/org/example/customerservice/service/CustomerService.java:49-53 | an existing person takes name, gender, address and phone from the request and keeps id, identification and createdAt |
| CustomerService.CreateCustomer | customer-service/src/main/java/org/example/customerservice/service/CustomerService.java:39-116 | three paths: a person with one customer gives the duplicate-identification error and no change; a person without one has its data refreshed and gets one new customer; no such person gives one new person and one new customer referring to it; the view joins the two |
| CustomerService.GetCustomerById | customer-service/src/main/java/org/example/customerservice/service/CustomerService.java:122-131 | fails with "Customer not found with ID" exactly when the id is missing; empty exactly when its person is missing; otherwise the joined view |
| CustomerService.ListedView | customer-service/src/main/java/org/example/customerservice/service/CustomerService.java:136-139 | a customer is shown with its person's fields when the person exists, otherwise with null person fields |
| CustomerService.GetAllCustomers | customer-service/src/main/java/org/example/customerservice/service/CustomerService.java:133-142 | lists exactly the customers with status true |
| CustomerService.UpdatedCustomer | customer-service/src/main/java/org/example/customerservice/service/CustomerService.java:150-156 | the non-null password and status replace the stored ones; id, person and createdAt are kept; updatedAt becomes now |
| CustomerService.UpdatedPerson | customer-service/src/main/java/org/example/customerservice/service/CustomerService.java:161-176 | the non-null name, gender, identification, address and phone replace the stored ones; id and createdAt are kept |
| CustomerService.ApplyToCustomer | customer-service/src/main/java/org/example/customerservice/service/CustomerService.java:150-156 | setting each non-null customer field in turn gives exactly the updated customer |
| CustomerService.ApplyToPerson | customer-service/src/main/java/org/example/customerservice/service/CustomerService.java:161-176 | setting each non-null person field in turn gives exactly the updated person |
| CustomerService.UpdateCustomer | customer-service/src/main/java/org/example/customerservice/service/CustomerService.java:145-190 | a missing customer fails with "Customer not found with ID" and a missing person with "Person not found for customer", neither saving anything; the update succeeds exactly when both the customer and its person exist, and then exactly the customer and its person change, by the non-null fields only |
| CustomerService.DeleteCustomer | customer-service/src/main/java/org/example/customerservice/service/CustomerService.java:195-201 | a missing id fails and changes nothing; otherwise exactly that customer is removed and its person stays |

## Left out

- HTTP controllers, the error-to-status mapping, and request validation. The validated request fields are non-null datatype fields.
- The customer directory call over HTTP. The model takes the directory's answer or its failure as an input.
  - An empty response body, which would make the statement empty, is not modelled.
- Kafka events: the payload, the send and its timeout. They do not affect any table.
- Concurrency and transactions. Each call is one atomic step, so the race between two concurrent postings against one account is not modelled.
- Spreadsheet styling, column sizing, serialisation to bytes, and the I/O error path of the export.
  - The sheet holds numbers exactly, not as the `double` values the workbook stores.
  - The blank date cell for a row without a date is not modelled, because every statement row has a date.
- Logging; `getAllAccounts`, `getAllMovements`, `getMovementsByAccountId`, `getAllPersons`, `generateAccountStatement` and `getAccountEntityById`. These are plain pass-throughs of the operations above.
- AccountService.CreateAccount: does not model an id sent in the request. The mapper would copy it, turning the insert into an update of that row; the model always inserts under a fresh id. The positive initial balance is enforced only by request validation, so the ledger invariant is promised only for a non-negative one.
- PersonService.CreatePerson: does not model an id sent in the request, for the same reason.
- MovementService.CreateMovement: does not model an id sent in the request.
- MovementService.CreateMovement: does not model the clock being read three times. The source reads it separately for the account's updatedAt, the movement's date and its createdAt, so these can differ by a few nanoseconds; the model stamps all three with the same `now`.
- MovementService.UpdateMovement: balances are not recomputed, so a correction can break the ledger invariant; the model promises nothing about it.
- MovementService.DeleteMovement: balances are not recomputed, so deleting a movement changes its account's net movements but not its balance, and can break the ledger invariant; the model promises nothing about it.
- MovementService.Corrected: the generated mapper's null handling is not visible. A MapStruct update mapping by default most likely sets a target column to null when the request's field is null. The model's choice is instead to keep the stored date and balance when the request leaves them null. It copies account, type and value as given.
- PersonService.CreatePerson: the model does not capture what happens when several persons already share the identification, which updates can bring about. The single-result query would then most likely fail with an incorrect-result-size error, while the model reports `PersonIdentificationExists`. Either way nothing is inserted.
- PersonService.UpdatePerson: the generated mapper's null handling is not visible. The model copies all five person fields from the validated request.
- CustomerService.CreateCustomer: the model does not capture what happens when several persons share the identification. The single-result query would then most likely fail with an incorrect-result-size error; the model instead picks one of those persons nondeterministically.
- ReportService.GenerateMovementReport: the range query sorts newest first, and the statement then re-sorts each account's movements stably, oldest first. So movements with equal dates keep an order the database chooses. The model keeps log order for them.
- ReportService.GenerateMovementReport: the database's order of the customer's accounts is taken as table order.
- Case mapping: `Common.ToUpperCase` and `Common.ToLowerCase` cover only the characters whose case mapping reaches an ASCII letter. That is exact for comparisons against `DEBIT` and `CREDIT`; it does not model Unicode case mapping in general.
