/** `src/hooks/useCustomers.ts`: the customer list the screens read, cached in memory and kept in step
    with the store by fetch, add (prepend), update (replace by id) and delete
    (remove by id). A failed store call leaves the list as it was, records the
    error and hands the failure back to the caller. */
module UseCustomers {
  import opened Text
  import opened Records
  import opened ListOps

  /** The rows an update or delete with this id touches. */
  function HasId(id: string): Customer -> bool { (x: Customer) => x.id == id }

  /** The rows a delete with this id keeps. */
  function OtherThan(id: string): Customer -> bool { (x: Customer) => x.id != id }

  class CustomersHook {
    var customers: seq<Customer>
    var loading: bool
    var error: Option<string>

    constructor ()
      ensures customers == [] && loading && error == None
    {
      customers := [];
      loading := true;
      error := None;
    }

    /** Replaces the list with the fetched rows (none reads as `[]`); on failure
        only `error` changes. */
    method FetchCustomers(reply: Reply<Option<seq<Customer>>>)
      modifies this
      ensures !loading
      ensures reply.Ok? ==> customers == (if reply.data.Some? then reply.data.value else []) && error == old(error)
      ensures reply.Err? ==> customers == old(customers) && error == Some(Describe(reply.failure, "An error occurred"))
    {
      loading := true;
      match reply {
        case Ok(data) =>
          customers := if data.Some? then data.value else [];
        case Err(failure) =>
          error := Some(Describe(failure, "An error occurred"));
      }
      loading := false;
    }

    /** Puts the stored row in front of the list. */
    method AddCustomer(reply: Reply<Customer>) returns (outcome: Reply<Customer>)
      modifies this
      ensures outcome == reply && loading == old(loading)
      ensures reply.Ok? ==> customers == [reply.data] + old(customers) && error == old(error)
      ensures reply.Err? ==> customers == old(customers) && error == Some(Describe(reply.failure, "Failed to add customer"))
    {
      match reply {
        case Ok(data) =>
          customers := [data] + customers;
        case Err(failure) =>
          error := Some(Describe(failure, "Failed to add customer"));
      }
      outcome := reply;
    }

    /** Sends `payload` for the row with this id and puts the stored row in
        place of every cached row with that id. The update payload is `updates` with `updated_at` set to `now`. */
    method UpdateCustomer(id: string, updates: Fields, now: string, reply: Reply<Customer>) returns (payload: Fields, outcome: Reply<Customer>)
      modifies this
      ensures payload == updates["updated_at" := StrValue(now)]
      ensures outcome == reply && loading == old(loading)
      ensures reply.Ok? ==> customers == ReplaceWhere(old(customers), HasId(id), reply.data) && error == old(error)
      ensures reply.Err? ==> customers == old(customers) && error == Some(Describe(reply.failure, "Failed to update customer"))
    {
      payload := updates["updated_at" := StrValue(now)];
      match reply {
        case Ok(data) =>
          customers := ReplaceWhere(customers, HasId(id), data);
        case Err(failure) =>
          error := Some(Describe(failure, "Failed to update customer"));
      }
      outcome := reply;
    }

    /** Drops every cached row with this id. */
    method DeleteCustomer(id: string, reply: Reply<()>) returns (outcome: Reply<()>)
      modifies this
      ensures outcome == reply && loading == old(loading)
      ensures reply.Ok? ==> customers == Filter(old(customers), OtherThan(id)) && error == old(error)
      ensures reply.Err? ==> customers == old(customers) && error == Some(Describe(reply.failure, "Failed to delete customer"))
    {
      match reply {
        case Ok(_) =>
          customers := Filter(customers, OtherThan(id));
        case Err(failure) =>
          error := Some(Describe(failure, "Failed to delete customer"));
      }
      outcome := reply;
    }
  }
}
