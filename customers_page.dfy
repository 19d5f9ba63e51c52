/** client/src/pages/Customers.jsx: the page state that ties the table, the
    modal form and the query hook together, and the seed-data loop. Layout,
    skeletons and the theme toggle are not modelled. */
module CustomersPage {
  import opened Optional
  import opened CustomerModel
  import opened ClientValues
  import opened UseCustomers
  import opened CustomerForm
  import CustomerFormWrapper

  /** `data || []`: the table shows nothing until a list is cached. */
  function TableData(data: Option<seq<Customer>>): (rows: seq<Customer>)
    ensures data.Some? ==> rows == data.value
    ensures data.None? ==> rows == []
  {
    data.GetOr([])
  }

  class Page {
    var editing: Option<Customer>
    var isModalOpen: bool
    var insertingSeed: bool

    constructor ()
      ensures editing == None && !isModalOpen && !insertingSeed
    {
      editing, isModalOpen, insertingSeed := None, false, false;
    }

    /** The "Add Customer" button: a blank form in an open modal. */
    method HandleAddClick()
      modifies this
      ensures editing == None && isModalOpen
      ensures insertingSeed == old(insertingSeed)
    {
      editing := None;
      isModalOpen := true;
    }

    method HandleCloseModal()
      modifies this
      ensures editing == None && !isModalOpen
      ensures insertingSeed == old(insertingSeed)
    {
      isModalOpen := false;
      editing := None;
    }

    /** The table's edit action: the chosen record in an open modal. */
    method EditRow(c: Customer)
      modifies this
      ensures editing == Some(c) && isModalOpen
      ensures insertingSeed == old(insertingSeed)
    {
      editing := Some(c);
      isModalOpen := true;
    }

    /** A form mutation settles: the hook's own success handler marks the
        list stale, then the wrapper's handler runs and, on success, resets
        the form and closes the modal. A failure leaves the page, the cache
        and the form's contents and errors as they were. */
    method FormSettled(form: FormState, cache: CustomersQuery, m: Mutation, succeeded: bool)
      requires form.Valid()
      modifies this, form, cache
      ensures form.Valid() && !form.loading
      ensures cache.data == old(cache.data)
      ensures succeeded ==> !isModalOpen && editing == None && cache.stale
      ensures succeeded ==> form.form == Blank && form.errors == map[] && form.imageError == ""
      ensures !succeeded ==> isModalOpen == old(isModalOpen) && editing == old(editing) &&
                             cache.stale == old(cache.stale)
      ensures !succeeded ==> form.form == old(form.form) && form.errors == old(form.errors) &&
                             form.imageError == old(form.imageError)
      ensures insertingSeed == old(insertingSeed)
    {
      cache.Settle(m, succeeded);
      var clearEditing, notify := CustomerFormWrapper.HandleSettled(form, m, succeeded);
      if clearEditing {
        editing := None;
      }
      if notify {
        HandleCloseModal();
      }
    }

    /** `handleInsertSeed`: nothing without an add mutation; otherwise the
        seed records are added one after another, the first failure ends the
        loop, and the busy flag is cleared however it ends. `ok(i)` is
        whether the `i`-th add succeeds; each add settles through the hook,
        so a successful one marks the list stale. `busy[j]` is the busy flag
        at the moment the `j`-th add is issued. */
    method HandleInsertSeed(cache: CustomersQuery, addAvailable: bool, seeds: seq<seq<Entry>>, ok: nat -> bool)
      returns (issued: seq<Mutation>, busy: seq<bool>)
      modifies this, cache
      ensures !addAvailable ==> issued == [] && insertingSeed == old(insertingSeed)
      ensures addAvailable ==> !insertingSeed
      ensures |issued| <= |seeds| && |busy| == |issued|
      ensures forall j :: 0 <= j < |issued| ==> issued[j] == AddMutation(seeds[j])
      ensures forall j :: 0 <= j < |busy| ==> busy[j]
      ensures forall j :: 0 <= j < |issued| - 1 ==> ok(j)
      ensures addAvailable && |issued| < |seeds| ==> |issued| > 0 && !ok(|issued| - 1)
      ensures cache.data == old(cache.data)
      ensures cache.stale == (old(cache.stale) || exists j :: 0 <= j < |issued| && ok(j))
      ensures editing == old(editing) && isModalOpen == old(isModalOpen)
    {
      issued, busy := [], [];
      if !addAvailable {
        return;
      }
      insertingSeed := true;
      var i := 0;
      while i < |seeds|
        invariant 0 <= i <= |seeds| && |issued| == i && |busy| == i
        invariant insertingSeed
        invariant forall j :: 0 <= j < i ==> issued[j] == AddMutation(seeds[j]) && ok(j) && busy[j]
        invariant cache.data == old(cache.data)
        invariant cache.stale == (old(cache.stale) || exists j :: 0 <= j < i && ok(j))
        invariant editing == old(editing) && isModalOpen == old(isModalOpen)
      {
        issued, busy := issued + [AddMutation(seeds[i])], busy + [insertingSeed];
        cache.Settle(AddMutation(seeds[i]), ok(i));
        if !ok(i) {
          break;
        }
        i := i + 1;
      }
      insertingSeed := false;
    }
  }
}
