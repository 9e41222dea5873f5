/**
  The customer service's data: the `persons` and `customers` tables, the customer view the
  service returns, the requests it accepts and the errors it fails with.
*/
module CustomerModel {
  import opened Common

  /** A row of the `persons` table. */
  datatype Person = Person(
    id: int,
    name: string,
    gender: string,
    identification: string,
    address: string,
    phone: string,
    createdAt: DateTime,
    updatedAt: DateTime)

  /** A row of the `customers` table; a customer is a person with credentials. */
  datatype Customer = Customer(
    id: int,
    personId: int,
    password: string,
    status: bool,
    createdAt: DateTime,
    updatedAt: DateTime)

  /** The customer view (`CustomerDto`); the person fields are null when the person is missing. */
  datatype CustomerDto = CustomerDto(
    id: int,
    name: Option<string>,
    gender: Option<string>,
    identification: Option<string>,
    address: Option<string>,
    phone: Option<string>,
    password: string,
    status: bool,
    createdAt: DateTime,
    updatedAt: DateTime)

  /** The validated person data of a request. */
  datatype PersonRequest = PersonRequest(
    name: string,
    gender: string,
    identification: string,
    address: string,
    phone: string)

  datatype CustomerError =
    | DuplicateIdentification(identification: string)
    | CustomerNotFound(customerId: int)
    | PersonNotFoundForCustomer
    | PersonIdentificationExists
    | PersonNotFound(personId: int)

  /** The message of the exception each error is raised with. */
  function Message(e: CustomerError): string {
    match e
    case DuplicateIdentification(identification) =>
      "Ya existe un cliente registrado con la identificación '" + identification
      + "'. Por favor, utilice una identificación diferente."
    case CustomerNotFound(id) => "Customer not found with ID: " + IntToDecimal(id)
    case PersonNotFoundForCustomer => "Person not found for customer"
    case PersonIdentificationExists => "Person with identification already exists"
    case PersonNotFound(id) => "Person not found with ID: " + IntToDecimal(id)
  }

  /** The check an error reports, ignoring the id or identification it names. */
  function ErrorKind(e: CustomerError): nat {
    match e
    case DuplicateIdentification(_) => 0
    case CustomerNotFound(_) => 1
    case PersonNotFoundForCustomer => 2
    case PersonIdentificationExists => 3
    case PersonNotFound(_) => 4
  }

  /**
    A message names its customer, person or identification exactly: two errors of the same
    kind raised with the same message are the same error.
  */
  lemma MessageIdentifiesError(e1: CustomerError, e2: CustomerError)
    requires ErrorKind(e1) == ErrorKind(e2)
    ensures Message(e1) == Message(e2) ==> e1 == e2
  {
    if Message(e1) == Message(e2) {
      match e1
      case DuplicateIdentification(identification) =>
        AroundInfix("Ya existe un cliente registrado con la identificación '", identification,
                    e2.identification, "'. Por favor, utilice una identificación diferente.");
      case CustomerNotFound(id) =>
        AfterPrefix("Customer not found with ID: ", IntToDecimal(id), IntToDecimal(e2.customerId));
        IntToDecimalInjective(id, e2.customerId);
      case PersonNotFound(id) =>
        AfterPrefix("Person not found with ID: ", IntToDecimal(id), IntToDecimal(e2.personId));
        IntToDecimalInjective(id, e2.personId);
      case PersonNotFoundForCustomer =>
      case PersonIdentificationExists =>
    }
  }

  /** `buildCustomerDto`: the customer's own fields joined with its person's. */
  function BuildCustomerDto(customer: Customer, person: Person): (dto: CustomerDto)
    ensures CustomerOf(dto, customer.personId) == customer
    ensures dto.name == Some(person.name) && dto.gender == Some(person.gender)
    ensures dto.identification == Some(person.identification)
    ensures dto.address == Some(person.address) && dto.phone == Some(person.phone)
  {
    CustomerDto(customer.id, Some(person.name), Some(person.gender), Some(person.identification),
                Some(person.address), Some(person.phone), customer.password, customer.status,
                customer.createdAt, customer.updatedAt)
  }

  /** `buildCustomerDtoWithoutPerson`: the customer's own fields, every person field null. */
  function BuildCustomerDtoWithoutPerson(customer: Customer): (dto: CustomerDto)
    ensures CustomerOf(dto, customer.personId) == customer
    ensures dto.name.None? && dto.gender.None? && dto.identification.None? && dto.address.None? && dto.phone.None?
  {
    CustomerDto(customer.id, None, None, None, None, None, customer.password, customer.status,
                customer.createdAt, customer.updatedAt)
  }

  /** The customer row a view shows, given the person id the view does not carry. */
  function CustomerOf(dto: CustomerDto, personId: int): Customer {
    Customer(dto.id, personId, dto.password, dto.status, dto.createdAt, dto.updatedAt)
  }

  /**
    The view loses nothing of the customer but its person id, and shows the person's name,
    gender, identification, address and phone unchanged; without the person it shows the same
    customer fields and no person field at all.
  */
  lemma CustomerDtoRoundTrip(customer: Customer, person: Person)
    ensures CustomerOf(BuildCustomerDto(customer, person), customer.personId) == customer
    ensures CustomerOf(BuildCustomerDtoWithoutPerson(customer), customer.personId) == customer
    ensures var dto := BuildCustomerDto(customer, person);
            dto.name == Some(person.name) && dto.gender == Some(person.gender)
            && dto.identification == Some(person.identification)
            && dto.address == Some(person.address) && dto.phone == Some(person.phone)
    ensures var dto := BuildCustomerDtoWithoutPerson(customer);
            dto.name.None? && dto.gender.None? && dto.identification.None? && dto.address.None? && dto.phone.None?
    ensures BuildCustomerDtoWithoutPerson(customer)
            == BuildCustomerDto(customer, person).(name := None, gender := None, identification := None,
                                                   address := None, phone := None)
  {
  }

  /** The two tables of the customer service's database and the identity sequences that number new rows. */
  class CustomerStore {
    var persons: map<int, Person>
    var customers: map<int, Customer>
    var nextPersonId: int
    var nextCustomerId: int

    /**
      Keys match ids and lie below the sequences, every customer refers to a person id already
      handed out, and no person has two customers.
    */
    ghost predicate Valid()
      reads this
    {
      && (forall id :: id in persons ==> persons[id].id == id && id < nextPersonId)
      && (forall id :: id in customers ==> customers[id].id == id && id < nextCustomerId)
      && (forall id :: id in customers ==> customers[id].personId < nextPersonId)
      && (forall a, b ::
            a in customers && b in customers && customers[a].personId == customers[b].personId
            ==> a == b)
    }

    /** An empty database. */
    constructor ()
      ensures Valid()
      ensures persons == map[] && customers == map[]
      ensures nextPersonId == 1 && nextCustomerId == 1
    {
      persons := map[];
      customers := map[];
      nextPersonId := 1;
      nextCustomerId := 1;
    }
  }

  /** `findByIdentification` found a person with this identification. */
  predicate IdentificationTaken(persons: map<int, Person>, identification: string) {
    exists id :: id in persons && persons[id].identification == identification
  }

  /** `findByPersonId` found a customer for this person. */
  predicate HasCustomer(customers: map<int, Customer>, personId: int) {
    exists id :: id in customers && customers[id].personId == personId
  }
}
