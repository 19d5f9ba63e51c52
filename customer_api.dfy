/** The client's HTTP layer, client/src/api/customerAPI.js: form encoding, the
    request each call issues, and the single/batch delete aggregation. The
    transport itself (axios) is not modelled: a request is a value, and whether
    it succeeds is an input. */
module CustomerApi {
  import opened Optional
  import opened Http
  import opened CustomerModel
  import opened ClientValues

  const DefaultApiUrl := "http://localhost:3000/api/v1/customers"

  /** `VITE_API_URL || default`: an unset or empty setting falls back. */
  function ApiUrl(configured: Option<string>): (url: string)
    ensures configured.Some? && configured.value != "" ==> url == configured.value
    ensures configured.None? || configured.value == "" ==> url == DefaultApiUrl
  {
    if configured.Some? && configured.value != "" then configured.value else DefaultApiUrl
  }

  datatype Request = Request(verb: HttpMethod, url: string, form: seq<Entry>)

  /** The item URL `${API_URL}/${id}`. */
  function ItemUrl(base: string, id: Id): string {
    base + "/" + id
  }

  /** The base and the id can be read back off an item URL. */
  lemma ItemUrlParts(base: string, id: Id)
    ensures |ItemUrl(base, id)| == |base| + 1 + |id|
    ensures ItemUrl(base, id)[..|base|] == base
    ensures ItemUrl(base, id)[|base|] == '/'
    ensures ItemUrl(base, id)[|base| + 1..] == id
  {
    assert ItemUrl(base, id) == base + ("/" + id);
  }

  /** Item URLs on one base are distinct for distinct ids. */
  lemma ItemUrlInjective(base: string, id1: Id, id2: Id)
    requires ItemUrl(base, id1) == ItemUrl(base, id2)
    ensures id1 == id2
  {
    ItemUrlParts(base, id1);
    ItemUrlParts(base, id2);
  }

  /** The entries `toFormData` appends: those whose value is defined, in
      order. */
  function Kept(entries: seq<Entry>): seq<Entry> {
    if entries == [] then []
    else
      var last := entries[|entries| - 1];
      Kept(entries[..|entries| - 1]) + (if Defined(last.1) then [last] else [])
  }

  /** Keeping distributes over concatenation, so the input's order survives. */
  lemma {:induction false} KeptConcat(a: seq<Entry>, b: seq<Entry>)
    ensures Kept(a + b) == Kept(a) + Kept(b)
    decreases |b|
  {
    if b == [] {
      assert a + b == a;
    } else {
      var init := b[..|b| - 1];
      assert (a + b)[..|a + b| - 1] == a + init;
      KeptConcat(a, init);
    }
  }

  /** An entry survives exactly when it was in the input with a defined
      value: nothing is added, nothing defined is dropped. */
  lemma {:induction false} KeptMembers(entries: seq<Entry>, e: Entry)
    ensures e in Kept(entries) <==> e in entries && Defined(e.1)
    decreases |entries|
  {
    if entries != [] {
      var init := entries[..|entries| - 1];
      KeptMembers(init, e);
      assert entries == init + [entries[|entries| - 1]];
    }
  }

  /** An object with no undefined or null value is encoded entry for entry;
      empty strings in particular are sent. */
  lemma {:induction false} KeptAllDefined(entries: seq<Entry>)
    requires forall i :: 0 <= i < |entries| ==> Defined(entries[i].1)
    ensures Kept(entries) == entries
    decreases |entries|
  {
    if entries != [] {
      var init := entries[..|entries| - 1];
      KeptAllDefined(init);
      assert entries == init + [entries[|entries| - 1]];
    }
  }

  /** `toFormData`: appends every defined entry, in the input's order. */
  method ToFormData(customer: seq<Entry>) returns (formData: seq<Entry>)
    ensures formData == Kept(customer)
  {
    formData := [];
    var i := 0;
    while i < |customer|
      invariant 0 <= i <= |customer|
      invariant formData == Kept(customer[..i])
    {
      var (key, value) := customer[i];
      assert customer[..i + 1][..i] == customer[..i];
      if value != Undefined && value != Null {
        formData := formData + [(key, value)];
      }
      i := i + 1;
    }
    assert customer[..i] == customer;
  }

  /** The request `addCustomer` issues: a POST of the encoded object to the
      collection URL. */
  function AddRequest(base: string, customer: seq<Entry>): Request {
    Request(Post, base, Kept(customer))
  }

  /** The request `updateCustomer` issues: a PUT of the encoded object to the
      item URL. */
  function UpdateRequest(base: string, id: Id, customer: seq<Entry>): Request {
    Request(Put, ItemUrl(base, id), Kept(customer))
  }

  method AddCustomer(base: string, customer: seq<Entry>) returns (req: Request)
    ensures req == AddRequest(base, customer)
    ensures req.verb == Post && req.url == base
  {
    var formData := ToFormData(customer);
    req := Request(Post, base, formData);
  }

  method UpdateCustomer(base: string, id: Id, customer: seq<Entry>) returns (req: Request)
    ensures req == UpdateRequest(base, id, customer)
    ensures req.verb == Put && req.url == base + "/" + id
  {
    var formData := ToFormData(customer);
    req := Request(Put, ItemUrl(base, id), formData);
  }

  /** `deleteCustomer`'s argument: an array of ids, or a single id. */
  datatype DeleteTarget = Many(ids: seq<Id>) | One(id: Id)

  /** A promise's settled state. */
  datatype Outcome<T> = Resolved(value: T) | Rejected

  function DeleteRequest(base: string, id: Id): Request {
    Request(Delete, ItemUrl(base, id), [])
  }

  /** The requests `deleteCustomer` issues: one per id of an array, one for a
      single id. */
  function DeleteRequests(base: string, target: DeleteTarget): (reqs: seq<Request>)
    ensures target.Many? ==> |reqs| == |target.ids|
    ensures target.Many? ==> forall i :: 0 <= i < |reqs| ==> reqs[i] == DeleteRequest(base, target.ids[i])
    ensures target.One? ==> reqs == [DeleteRequest(base, target.id)]
  {
    match target
    case Many(ids) => seq(|ids|, i requires 0 <= i < |ids| => DeleteRequest(base, ids[i]))
    case One(id) => [DeleteRequest(base, id)]
  }

  /** `Promise.all` over the per-id deletes, folded in array order. */
  function AllSucceed(ids: seq<Id>, succeeds: Id -> bool): bool {
    ids == [] || (succeeds(ids[0]) && AllSucceed(ids[1..], succeeds))
  }

  lemma {:induction false} AllSucceedIff(ids: seq<Id>, succeeds: Id -> bool)
    ensures AllSucceed(ids, succeeds) <==> forall i :: 0 <= i < |ids| ==> succeeds(ids[i])
    decreases |ids|
  {
    if ids != [] {
      AllSucceedIff(ids[1..], succeeds);
      assert forall i :: 1 <= i < |ids| ==> ids[i] == ids[1..][i - 1];
    }
  }

  /** What `deleteCustomer` resolves to: its argument, when every delete it
      issued succeeded; a rejection otherwise. */
  function DeleteCustomer(target: DeleteTarget, succeeds: Id -> bool): (r: Outcome<DeleteTarget>)
    ensures r.Resolved? ==> r.value == target
    ensures target.Many? ==> (r.Resolved? <==> forall i :: 0 <= i < |target.ids| ==> succeeds(target.ids[i]))
    ensures target.One? ==> (r.Resolved? <==> succeeds(target.id))
  {
    match target
    case Many(ids) =>
      AllSucceedIff(ids, succeeds);
      if AllSucceed(ids, succeeds) then Resolved(target) else Rejected
    case One(id) =>
      if succeeds(id) then Resolved(target) else Rejected
  }

  /** Deleting an empty array issues nothing and resolves to `[]`. */
  lemma DeleteNothing(base: string, succeeds: Id -> bool)
    ensures DeleteRequests(base, Many([])) == []
    ensures DeleteCustomer(Many([]), succeeds) == Resolved(Many([]))
  {
  }
}
