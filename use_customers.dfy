/** The query hook of client/src/hooks/useCustomers.js: one cached customer
    list under the key "customers", three mutations that each mark it stale
    when they succeed, and a lookup by id over whatever list is cached.
    Refetch timing and the rest of the query library are not modelled. */
module UseCustomers {
  import opened Optional
  import opened CustomerModel
  import opened ClientValues
  import opened CustomerApi

  const CustomersKey := "customers"

  /** The three mutations, with the variables each is called with. */
  datatype Mutation =
    | AddMutation(customer: seq<Entry>)
    | UpdateMutation(id: Id, customer: seq<Entry>)
    | DeleteMutation(target: DeleteTarget)

  /** The requests each mutation's `mutationFn` issues. The update mutation
      hands its `id` and `customer` to `updateCustomer` as they are. */
  function MutationRequests(base: string, m: Mutation): (reqs: seq<Request>)
    ensures m.AddMutation? ==> reqs == [AddRequest(base, m.customer)]
    ensures m.UpdateMutation? ==> reqs == [UpdateRequest(base, m.id, m.customer)]
    ensures m.DeleteMutation? ==> reqs == DeleteRequests(base, m.target)
  {
    match m
    case AddMutation(c) => [AddRequest(base, c)]
    case UpdateMutation(id, c) => [UpdateRequest(base, id, c)]
    case DeleteMutation(t) => DeleteRequests(base, t)
  }

  /** `Array.prototype.find` on `_id`: the first record with that id. */
  function FindFirst(cs: seq<Customer>, id: Id): (r: Option<Customer>)
    ensures r.None? <==> forall i :: 0 <= i < |cs| ==> cs[i].id != id
    ensures r.Some? ==> exists i :: 0 <= i < |cs| && cs[i] == r.value && r.value.id == id &&
                                    forall j :: 0 <= j < i ==> cs[j].id != id
  {
    if cs == [] then None
    else if cs[0].id == id then Some(cs[0])
    else
      var r := FindFirst(cs[1..], id);
      assert forall i :: 1 <= i < |cs| ==> cs[i] == cs[1..][i - 1];
      r
  }

  class CustomersQuery {
    /** The cached list; `None` until the first fetch has resolved. */
    var data: Option<seq<Customer>>
    /** Whether the next read must refetch. */
    var stale: bool

    constructor ()
      ensures data == None && stale
    {
      data := None;
      stale := true;
    }

    /** A fetch resolved with the server's list. */
    method Fetched(customers: seq<Customer>)
      modifies this
      ensures data == Some(customers) && !stale
    {
      data := Some(customers);
      stale := false;
    }

    /** A mutation settled. Only `onSuccess` invalidates: the cached list itself
        is kept until the refetch replaces it. */
    method Settle(m: Mutation, succeeded: bool)
      modifies this
      ensures data == old(data)
      ensures stale == (old(stale) || succeeded)
    {
      if succeeded {
        stale := true;
      }
    }

    /** `getCustomerById`: derived from the cached list, with no fetch. */
    function GetCustomerById(id: Id): (r: Option<Customer>)
      reads this
      ensures data.None? ==> r.None?
      ensures r.Some? ==> data.Some? && r.value in data.value && r.value.id == id
      ensures data.Some? && (exists i :: 0 <= i < |data.value| && data.value[i].id == id) ==> r.Some?
    {
      match data
      case None => None
      case Some(cs) => FindFirst(cs, id)
    }
  }
}
