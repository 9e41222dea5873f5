/**
  `PersonService`: registering a person under an unused identification, and looking up,
  rewriting and deleting persons by id, over the `persons` table of a `CustomerStore`.
*/
module PersonService {
  import opened Common
  import opened CustomerModel

  /** A person request (`PersonDto`): the person data plus the fields the service ignores. */
  datatype PersonDto = PersonDto(
    id: Option<int>,
    data: PersonRequest,
    createdAt: Option<DateTime>,
    updatedAt: Option<DateTime>)

  /** A new row for the request's data, stamped with `now`. */
  function NewPerson(id: int, data: PersonRequest, now: DateTime): (p: Person)
    ensures p.id == id && p.createdAt == now && p.updatedAt == now
    ensures p.name == data.name && p.gender == data.gender && p.identification == data.identification
    ensures p.address == data.address && p.phone == data.phone
  {
    Person(id, data.name, data.gender, data.identification, data.address, data.phone, now, now)
  }

  /**
    `createPerson`: an identification already in the table fails and inserts nothing; otherwise
    exactly one person is inserted under a fresh id, with both timestamps `now`.
  */
  method CreatePerson(store: CustomerStore, request: PersonDto, now: DateTime) returns (r: Result<Person, CustomerError>)
    requires store.Valid()
    modifies store
    ensures store.Valid()
    ensures store.customers == old(store.customers) && store.nextCustomerId == old(store.nextCustomerId)
    ensures r.Failure? <==> IdentificationTaken(old(store.persons), request.data.identification)
    ensures r.Failure? ==>
              && r.error == PersonIdentificationExists
              && store.persons == old(store.persons) && store.nextPersonId == old(store.nextPersonId)
    ensures r.Success? ==>
              && old(store.nextPersonId) !in old(store.persons)
              && r.value == NewPerson(old(store.nextPersonId), request.data, now)
              && store.persons == old(store.persons)[r.value.id := r.value]
              && store.nextPersonId == old(store.nextPersonId) + 1
  {
    if IdentificationTaken(store.persons, request.data.identification) {
      return Failure(PersonIdentificationExists);
    }
    var person := NewPerson(store.nextPersonId, request.data, now);
    store.persons := store.persons[person.id := person];
    store.nextPersonId := store.nextPersonId + 1;
    return Success(person);
  }

  /** `getPersonById`: the person, or "Person not found with ID". */
  function GetPersonById(store: CustomerStore, id: int): (r: Result<Person, CustomerError>)
    reads store
    requires store.Valid()
    ensures r.Failure? <==> id !in store.persons
    ensures r.Failure? ==> r.error == PersonNotFound(id)
    ensures r.Success? ==> r.value.id == id && r.value == store.persons[id]
  {
    if id in store.persons then Success(store.persons[id]) else Failure(PersonNotFound(id))
  }

  /** The rewritten row: the id and `createdAt` are never taken from the request. */
  function Rewritten(existing: Person, request: PersonDto, now: DateTime): (p: Person)
    ensures p.id == existing.id && p.createdAt == existing.createdAt && p.updatedAt == now
    ensures p.name == request.data.name && p.gender == request.data.gender
    ensures p.identification == request.data.identification
    ensures p.address == request.data.address && p.phone == request.data.phone
  {
    existing.(name := request.data.name, gender := request.data.gender,
              identification := request.data.identification, address := request.data.address,
              phone := request.data.phone, updatedAt := now)
  }

  /** Whatever id and timestamps a request carries, the rewritten row keeps the stored id and creation time. */
  lemma RewriteIgnoresRequestKeys(existing: Person, request: PersonDto, now: DateTime,
                                  id: Option<int>, createdAt: Option<DateTime>, updatedAt: Option<DateTime>)
    ensures Rewritten(existing, request.(id := id, createdAt := createdAt, updatedAt := updatedAt), now)
            == Rewritten(existing, request, now)
  {
  }

  /**
    `updatePerson`: an unknown id fails with "Person not found with ID" and changes nothing;
    otherwise only that person changes, keeping its id and creation time.
  */
  method UpdatePerson(store: CustomerStore, id: int, request: PersonDto, now: DateTime)
    returns (r: Result<Person, CustomerError>)
    requires store.Valid()
    modifies store
    ensures store.Valid()
    ensures store.customers == old(store.customers)
    ensures store.nextPersonId == old(store.nextPersonId) && store.nextCustomerId == old(store.nextCustomerId)
    ensures r.Failure? <==> id !in old(store.persons)
    ensures r.Failure? ==> r.error == PersonNotFound(id) && store.persons == old(store.persons)
    ensures r.Success? ==>
              && r.value == Rewritten(old(store.persons)[id], request, now)
              && store.persons == old(store.persons)[id := r.value]
  {
    if id !in store.persons {
      return Failure(PersonNotFound(id));
    }
    var existing := store.persons[id];
    existing := existing.(name := request.data.name, gender := request.data.gender,
                          identification := request.data.identification, address := request.data.address,
                          phone := request.data.phone);
    existing := existing.(updatedAt := now);
    store.persons := store.persons[id := existing];
    return Success(existing);
  }

  /**
    `deletePerson`: an unknown id fails with "Person not found with ID" and changes nothing;
    otherwise exactly that person leaves the table. Its customers stay.
  */
  method DeletePerson(store: CustomerStore, id: int) returns (r: Result<(), CustomerError>)
    requires store.Valid()
    modifies store
    ensures store.Valid()
    ensures store.customers == old(store.customers)
    ensures store.nextPersonId == old(store.nextPersonId) && store.nextCustomerId == old(store.nextCustomerId)
    ensures r.Failure? <==> id !in old(store.persons)
    ensures r.Failure? ==> r.error == PersonNotFound(id) && store.persons == old(store.persons)
    ensures r.Success? ==> store.persons == old(store.persons) - {id}
  {
    if id !in store.persons {
      return Failure(PersonNotFound(id));
    }
    store.persons := store.persons - {id};
    return Success(());
  }
}
