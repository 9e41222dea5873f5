/**
  `CustomerService`: registering a customer for a new or an existing person, looking customers
  up, partial updates of a customer and its person, and deletion, over a `CustomerStore`.
*/
module CustomerService {
  import opened Common
  import opened CustomerModel

  /** A customer creation request (`CustomerRequestDto`), validated. */
  datatype CustomerRequest = CustomerRequest(person: PersonRequest, password: string, status: bool)

  /** A new customer row for `personId`, stamped with `now`. */
  function NewCustomer(id: int, personId: int, request: CustomerRequest, now: DateTime): (c: Customer)
    ensures c.id == id && c.personId == personId
    ensures c.password == request.password && c.status == request.status
    ensures c.createdAt == now && c.updatedAt == now
  {
    Customer(id, personId, request.password, request.status, now, now)
  }

  /**
    An existing person taken over by a new customer: name, gender, address and phone come from
    the request; the id, the identification and the creation time are kept.
  */
  function Adopted(existing: Person, data: PersonRequest, now: DateTime): (p: Person)
    ensures p.id == existing.id && p.identification == existing.identification
    ensures p.createdAt == existing.createdAt && p.updatedAt == now
    ensures p.name == data.name && p.gender == data.gender && p.address == data.address && p.phone == data.phone
  {
    existing.(name := data.name, gender := data.gender, address := data.address, phone := data.phone,
              updatedAt := now)
  }

  /**
    `createCustomer` follows one of three paths, chosen by the person the identification finds:
    that person already has a customer (the duplicate-identification error, nothing changes);
    that person has none (the person's data is refreshed and one customer is created for it);
    or no person has the identification (one person and one customer referring to it are
    inserted). The view returned joins the new customer with its person.
  */
  method CreateCustomer(store: CustomerStore, request: CustomerRequest, now: DateTime)
    returns (r: Result<CustomerDto, CustomerError>)
    requires store.Valid()
    modifies store
    ensures store.Valid()
    // Path 1: the person found already has a customer.
    ensures r.Failure? ==>
              && r.error == DuplicateIdentification(request.person.identification)
              && (exists pid :: pid in old(store.persons)
                    && old(store.persons)[pid].identification == request.person.identification
                    && HasCustomer(old(store.customers), pid))
              && store.persons == old(store.persons) && store.customers == old(store.customers)
              && store.nextPersonId == old(store.nextPersonId) && store.nextCustomerId == old(store.nextCustomerId)
    // Path 2: the person found has no customer yet.
    ensures r.Success? && IdentificationTaken(old(store.persons), request.person.identification) ==>
              exists pid ::
                && pid in old(store.persons)
                && old(store.persons)[pid].identification == request.person.identification
                && !HasCustomer(old(store.customers), pid)
                && var person := Adopted(old(store.persons)[pid], request.person, now);
                && var customer := NewCustomer(old(store.nextCustomerId), pid, request, now);
                && store.persons == old(store.persons)[pid := person]
                && store.customers == old(store.customers)[customer.id := customer]
                && store.nextPersonId == old(store.nextPersonId)
                && store.nextCustomerId == old(store.nextCustomerId) + 1
                && r.value == BuildCustomerDto(customer, person)
    // Path 3: no person has the identification.
    ensures !IdentificationTaken(old(store.persons), request.person.identification) ==>
              && r.Success?
              && var person := Person(old(store.nextPersonId), request.person.name, request.person.gender,
                                      request.person.identification, request.person.address,
                                      request.person.phone, now, now);
              && var customer := NewCustomer(old(store.nextCustomerId), person.id, request, now);
              && store.persons == old(store.persons)[person.id := person]
              && store.customers == old(store.customers)[customer.id := customer]
              && store.nextPersonId == old(store.nextPersonId) + 1
              && store.nextCustomerId == old(store.nextCustomerId) + 1
              && r.value == BuildCustomerDto(customer, person)
    // Which of the first two paths is taken, when the identification is unambiguous.
    ensures (forall pid :: pid in old(store.persons)
               && old(store.persons)[pid].identification == request.person.identification
               ==> HasCustomer(old(store.customers), pid))
            && IdentificationTaken(old(store.persons), request.person.identification)
            ==> r.Failure?
    ensures (forall pid :: pid in old(store.persons)
               && old(store.persons)[pid].identification == request.person.identification
               ==> !HasCustomer(old(store.customers), pid))
            ==> r.Success?
  {
    var identification := request.person.identification;
    if IdentificationTaken(store.persons, identification) {
      var pid :| pid in store.persons && store.persons[pid].identification == identification;
      if HasCustomer(store.customers, pid) {
        return Failure(DuplicateIdentification(identification));
      }
      var person := store.persons[pid];
      person := person.(name := request.person.name, gender := request.person.gender,
                        address := request.person.address, phone := request.person.phone);
      person := person.(updatedAt := now);
      store.persons := store.persons[pid := person];
      var customer := NewCustomer(store.nextCustomerId, pid, request, now);
      store.customers := store.customers[customer.id := customer];
      store.nextCustomerId := store.nextCustomerId + 1;
      return Success(BuildCustomerDto(customer, person));
    }
    var person := Person(store.nextPersonId, request.person.name, request.person.gender,
                         identification, request.person.address, request.person.phone, now, now);
    store.persons := store.persons[person.id := person];
    store.nextPersonId := store.nextPersonId + 1;
    var customer := NewCustomer(store.nextCustomerId, person.id, request, now);
    store.customers := store.customers[customer.id := customer];
    store.nextCustomerId := store.nextCustomerId + 1;
    return Success(BuildCustomerDto(customer, person));
  }

  /**
    `getCustomerById`: an unknown id fails with "Customer not found with ID"; a customer whose
    person is missing yields nothing (an empty result, not an error); otherwise the joined view.
  */
  function GetCustomerById(store: CustomerStore, id: int): (r: Result<Option<CustomerDto>, CustomerError>)
    reads store
    requires store.Valid()
    ensures r.Failure? <==> id !in store.customers
    ensures r.Failure? ==> r.error == CustomerNotFound(id)
    ensures r.Success? && r.value.None? <==> id in store.customers && store.customers[id].personId !in store.persons
    ensures r.Success? && r.value.Some? ==>
              var c := store.customers[id];
              && r.value.value == BuildCustomerDto(c, store.persons[c.personId])
              && r.value.value.id == id
  {
    if id !in store.customers then Failure(CustomerNotFound(id))
    else
      var c := store.customers[id];
      if c.personId in store.persons then Success(Some(BuildCustomerDto(c, store.persons[c.personId])))
      else Success(None)
  }

  /** The view of one customer in the listing: joined with its person, or with null person fields. */
  function ListedView(persons: map<int, Person>, c: Customer): (dto: CustomerDto)
    ensures dto.id == c.id && dto.password == c.password && dto.status == c.status
    ensures dto.name.Some? <==> c.personId in persons
    ensures c.personId in persons ==> dto == BuildCustomerDto(c, persons[c.personId])
    ensures c.personId !in persons ==> dto == BuildCustomerDtoWithoutPerson(c)
  {
    if c.personId in persons then BuildCustomerDto(c, persons[c.personId]) else BuildCustomerDtoWithoutPerson(c)
  }

  /** `getAllCustomers`: exactly the active customers (status true), keyed by id. */
  function GetAllCustomers(store: CustomerStore): (r: map<int, CustomerDto>)
    reads store
    ensures forall id :: id in r <==> id in store.customers && store.customers[id].status
    ensures forall id :: id in r ==> r[id] == ListedView(store.persons, store.customers[id]) && r[id].status
  {
    map id | id in store.customers && store.customers[id].status :: ListedView(store.persons, store.customers[id])
  }

  /** The nullable fields of a customer update (`CustomerUpdateDto`). */
  datatype CustomerUpdate = CustomerUpdate(
    name: Option<string>,
    gender: Option<string>,
    identification: Option<string>,
    address: Option<string>,
    phone: Option<string>,
    password: Option<string>,
    status: Option<bool>)

  /** The customer with the update's non-null password and status written over it. */
  function UpdatedCustomer(existing: Customer, update: CustomerUpdate, now: DateTime): (c: Customer)
    ensures c.password == update.password.GetOr(existing.password)
    ensures c.status == update.status.GetOr(existing.status)
    ensures c.id == existing.id && c.personId == existing.personId
    ensures c.createdAt == existing.createdAt && c.updatedAt == now
  {
    existing.(password := update.password.GetOr(existing.password),
              status := update.status.GetOr(existing.status), updatedAt := now)
  }

  /** The person with the update's non-null name, gender, identification, address and phone written over it. */
  function UpdatedPerson(existing: Person, update: CustomerUpdate, now: DateTime): (p: Person)
    ensures p.name == update.name.GetOr(existing.name) && p.gender == update.gender.GetOr(existing.gender)
    ensures p.identification == update.identification.GetOr(existing.identification)
    ensures p.address == update.address.GetOr(existing.address) && p.phone == update.phone.GetOr(existing.phone)
    ensures p.id == existing.id && p.createdAt == existing.createdAt && p.updatedAt == now
  {
    existing.(name := update.name.GetOr(existing.name), gender := update.gender.GetOr(existing.gender),
              identification := update.identification.GetOr(existing.identification),
              address := update.address.GetOr(existing.address), phone := update.phone.GetOr(existing.phone),
              updatedAt := now)
  }

  /** An update that supplies nothing changes nothing but the two `updatedAt` stamps. */
  lemma EmptyCustomerUpdate(customer: Customer, person: Person, now: DateTime)
    ensures var none := CustomerUpdate(None, None, None, None, None, None, None);
            && UpdatedCustomer(customer, none, now) == customer.(updatedAt := now)
            && UpdatedPerson(person, none, now) == person.(updatedAt := now)
  {
  }

  /**
    `updateCustomer`: an unknown id fails with "Customer not found with ID", a customer whose
    person is missing fails with "Person not found for customer", and in both cases nothing is
    saved; otherwise the customer and its person each take the update's non-null fields, and the
    joined view of the two is returned.
  */
  method UpdateCustomer(store: CustomerStore, id: int, update: CustomerUpdate, now: DateTime)
    returns (r: Result<CustomerDto, CustomerError>)
    requires store.Valid()
    modifies store
    ensures store.Valid()
    ensures store.nextPersonId == old(store.nextPersonId) && store.nextCustomerId == old(store.nextCustomerId)
    ensures id !in old(store.customers) ==> r == Failure(CustomerNotFound(id))
    ensures id in old(store.customers) && old(store.customers)[id].personId !in old(store.persons)
            ==> r == Failure(PersonNotFoundForCustomer)
    ensures r.Success? <==> id in old(store.customers) && old(store.customers)[id].personId in old(store.persons)
    ensures r.Failure? ==> store.persons == old(store.persons) && store.customers == old(store.customers)
    ensures r.Success? ==>
              && id in old(store.customers)
              && var pid := old(store.customers)[id].personId;
              && pid in old(store.persons)
              && var customer := UpdatedCustomer(old(store.customers)[id], update, now);
              && var person := UpdatedPerson(old(store.persons)[pid], update, now);
              && store.customers == old(store.customers)[id := customer]
              && store.persons == old(store.persons)[pid := person]
              && r.value == BuildCustomerDto(customer, person)
  {
    if id !in store.customers {
      return Failure(CustomerNotFound(id));
    }
    var customer := ApplyToCustomer(store.customers[id], update, now);
    if customer.personId !in store.persons {
      return Failure(PersonNotFoundForCustomer);
    }
    var person := ApplyToPerson(store.persons[customer.personId], update, now);
    store.persons := store.persons[person.id := person];
    store.customers := store.customers[id := customer];
    return Success(BuildCustomerDto(customer, person));
  }

  /** The customer setters of `updateCustomer`, one non-null field at a time. */
  method ApplyToCustomer(existing: Customer, update: CustomerUpdate, now: DateTime) returns (customer: Customer)
    ensures customer == UpdatedCustomer(existing, update, now)
  {
    customer := existing;
    if update.password.Some? {
      customer := customer.(password := update.password.value);
    }
    if update.status.Some? {
      customer := customer.(status := update.status.value);
    }
    customer := customer.(updatedAt := now);
  }

  /** The person setters of `updateCustomer`, one non-null field at a time. */
  method ApplyToPerson(existing: Person, update: CustomerUpdate, now: DateTime) returns (person: Person)
    ensures person == UpdatedPerson(existing, update, now)
  {
    person := existing;
    if update.name.Some? {
      person := person.(name := update.name.value);
    }
    if update.gender.Some? {
      person := person.(gender := update.gender.value);
    }
    if update.identification.Some? {
      person := person.(identification := update.identification.value);
    }
    if update.address.Some? {
      person := person.(address := update.address.value);
    }
    if update.phone.Some? {
      person := person.(phone := update.phone.value);
    }
    person := person.(updatedAt := now);
  }

  /**
    `deleteCustomer`: an unknown id fails with "Customer not found with ID" and changes nothing;
    otherwise exactly that customer leaves the table. Its person stays.
  */
  method DeleteCustomer(store: CustomerStore, id: int) returns (r: Result<(), CustomerError>)
    requires store.Valid()
    modifies store
    ensures store.Valid()
    ensures store.persons == old(store.persons)
    ensures store.nextPersonId == old(store.nextPersonId) && store.nextCustomerId == old(store.nextCustomerId)
    ensures r.Failure? <==> id !in old(store.customers)
    ensures r.Failure? ==> r.error == CustomerNotFound(id) && store.customers == old(store.customers)
    ensures r.Success? ==> store.customers == old(store.customers) - {id}
  {
    if id !in store.customers {
      return Failure(CustomerNotFound(id));
    }
    store.customers := store.customers - {id};
    return Success(());
  }
}
