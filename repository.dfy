/** The customer repository as the core sees it: the `CustomerRepository`
    interface with the behaviour its test double promises. Rows live in
    memory; `outage` makes every call fail, as an unreachable database
    does. Ghost logs record the calls the tests assert on. */
module Repository {
  import opened Base
  import opened ObjectIds

  /** A stored customer document. */
  datatype CustomerEntity = CustomerEntity(id: ObjectId, name: string, city: string)

  /** The first row carrying the given name, if any. */
  function FirstNamed(rows: seq<CustomerEntity>, name: string): (r: Option<CustomerEntity>)
    ensures r.Some? ==> r.value in rows && r.value.name == name
    ensures r.None? <==> forall i :: 0 <= i < |rows| ==> rows[i].name != name
  {
    if rows == [] then None
    else if rows[0].name == name then Some(rows[0])
    else FirstNamed(rows[1..], name)
  }

  /** A row appended under a name no earlier row carries is the one found. */
  lemma FirstNamedAppended(rows: seq<CustomerEntity>, entity: CustomerEntity)
    requires forall i :: 0 <= i < |rows| ==> rows[i].name != entity.name
    ensures FirstNamed(rows + [entity], entity.name) == Some(entity)
  {
    assert (rows + [entity])[|rows|] == entity;
  }

  class CustomerRepository {
    /** The documents of the customer collection, in insertion order. */
    var rows: seq<CustomerEntity>
    /** Some(reason) while the database cannot be reached. */
    var outage: Option<string>
    /** The names passed to FindCustomerByName, in call order. */
    ghost var lookups: seq<string>
    /** The entities passed to InsertCustomer, in call order. */
    ghost var inserts: seq<CustomerEntity>

    constructor (rows: seq<CustomerEntity>, outage: Option<string>)
      ensures this.rows == rows && this.outage == outage
      ensures lookups == [] && inserts == []
    {
      this.rows := rows;
      this.outage := outage;
      lookups := [];
      inserts := [];
    }

    /** What FindCustomerByName answers in the current state. */
    function Find(name: string): (r: Result<Option<CustomerEntity>>)
      reads this
      ensures r.Fail? <==> outage.Some?
      ensures r.Ok? && r.value.Some? ==> r.value.value in rows && r.value.value.name == name
      ensures r.Ok? && r.value.None? ==> forall i :: 0 <= i < |rows| ==> rows[i].name != name
    {
      match outage
      case Some(reason) => Fail(Error(reason))
      case None => Ok(FirstNamed(rows, name))
    }

    /** What FindAllCustomers answers in the current state. */
    function All(): (r: Result<seq<CustomerEntity>>)
      reads this
      ensures r.Fail? <==> outage.Some?
      ensures r.Ok? ==> r.value == rows
    {
      match outage
      case Some(reason) => Fail(Error(reason))
      case None => Ok(rows)
    }

    /** Inserts the entity under the fresh identifier the store assigns;
        `stored` is the entity as the caller's pointer sees it afterwards. */
    method InsertCustomer(entity: CustomerEntity, freshId: ObjectId) returns (err: Option<Error>, stored: CustomerEntity)
      modifies this`rows, this`inserts
      ensures inserts == old(inserts) + [entity]
      ensures err.Some? <==> outage.Some?
      ensures outage.Some? ==> err == Some(Error(outage.value)) && stored == entity && rows == old(rows)
      ensures outage.None? ==> stored == entity.(id := freshId) && rows == old(rows) + [stored]
    {
      inserts := inserts + [entity];
      match outage {
        case Some(reason) =>
          err, stored := Some(Error(reason)), entity;
        case None =>
          stored := entity.(id := freshId);
          rows := rows + [stored];
          err := None;
      }
    }

    method FindCustomerByName(name: string) returns (r: Result<Option<CustomerEntity>>)
      modifies this`lookups
      ensures lookups == old(lookups) + [name]
      ensures r == Find(name)
    {
      lookups := lookups + [name];
      match outage {
        case Some(reason) => r := Fail(Error(reason));
        case None => r := Ok(FirstNamed(rows, name));
      }
    }

    method FindAllCustomers() returns (r: Result<seq<CustomerEntity>>)
      ensures r == All()
    {
      match outage {
        case Some(reason) => r := Fail(Error(reason));
        case None => r := Ok(rows);
      }
    }
  }
}
