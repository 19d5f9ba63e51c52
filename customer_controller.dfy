/** The five request handlers of server/src/controllers/customer.controller.js,
    as methods of a class that owns the customer collection.

    The collection is an id-to-document map. What the source gets from the
    database driver or the environment is passed in explicitly:
    - `outage` is true when the store call throws (the handler's `catch`, 500);
    - `newId` is the id the store generates for a new document;
    - `now` is the clock reading Mongoose stamps into the timestamps. */
module CustomerController {
  import opened Optional
  import opened CustomerModel

  /** What the upload middleware leaves in `req.file`: the stored path and the
      generated file name. */
  datatype UploadedFile = UploadedFile(path: string, filename: string)

  /** The text fields of `req.body`; a field the request did not send is `None`. */
  datatype Body = Body(
    name: Option<string>,
    email: Option<string>,
    phone: Option<string>,
    address: Option<string>,
    company: Option<string>,
    notes: Option<string>)

  /** The JSON a handler sends. */
  datatype Payload =
    | Record(customer: Customer)
    | Records(customers: seq<Customer>)
    | Message(message: string)
    | Failure(error: string)

  datatype Response = Response(status: nat, payload: Payload)

  const NotFoundError := "Customer not found"
  const MissingFieldsError := "Name and email are required"

  /** The `image` value built from an optional upload: absent without a file,
      otherwise the file's path as `url` and its file name as `public_id`. */
  function ImageData(file: Option<UploadedFile>): (r: Option<Image>)
    ensures r.None? <==> file.None?
    ensures file.Some? ==> r.value.url == file.value.path && r.value.publicId == file.value.filename
  {
    match file
    case None => None
    case Some(f) => Some(Image(f.path, f.filename))
  }

  /** The document `createCustomer` saves: the six text fields as sent, the
      image from the upload, a fresh id and both timestamps set to `now`. */
  function NewRecord(id: Id, body: Body, file: Option<UploadedFile>, now: Timestamp): (c: Customer)
    ensures c.id == id && c.createdAt == now && c.updatedAt == now
    ensures c.image == ImageData(file)
    ensures Filled(body.name) && Filled(body.email) ==> WellFormed(c) && c.name == body.name.value && c.email == body.email.value
    ensures c.phone == body.phone && c.address == body.address && c.company == body.company && c.notes == body.notes
  {
    Customer(id, body.name.GetOr(""), body.email.GetOr(""),
             body.phone, body.address, body.company, body.notes,
             ImageData(file), now, now)
  }

  /** The update validators reject a request that sets a required path to the
      empty string. */
  predicate Rejected(body: Body) {
    body.name == Some("") || body.email == Some("")
  }

  /** A sent optional field overwrites the stored one; an unsent one keeps it. */
  function Override(sent: Option<string>, stored: Option<string>): Option<string> {
    if sent.Some? then sent else stored
  }

  /** The document `findByIdAndUpdate` returns with `new: true`. */
  function Patched(c: Customer, body: Body, file: Option<UploadedFile>, now: Timestamp): (r: Customer)
    ensures r.id == c.id && r.createdAt == c.createdAt && r.updatedAt == now
    ensures file.None? ==> r.image == c.image
    ensures file.Some? ==> r.image == Some(Image(file.value.path, file.value.filename))
    ensures r.name == (if body.name.Some? then body.name.value else c.name)
    ensures r.email == (if body.email.Some? then body.email.value else c.email)
    ensures body.phone.None? ==> r.phone == c.phone
    ensures body.phone.Some? ==> r.phone == body.phone
    ensures body.address.None? ==> r.address == c.address
    ensures body.address.Some? ==> r.address == body.address
    ensures body.company.None? ==> r.company == c.company
    ensures body.company.Some? ==> r.company == body.company
    ensures body.notes.None? ==> r.notes == c.notes
    ensures body.notes.Some? ==> r.notes == body.notes
    ensures WellFormed(c) && !Rejected(body) ==> WellFormed(r)
  {
    c.(name := if body.name.Some? then body.name.value else c.name,
       email := if body.email.Some? then body.email.value else c.email,
       phone := Override(body.phone, c.phone),
       address := Override(body.address, c.address),
       company := Override(body.company, c.company),
       notes := Override(body.notes, c.notes),
       image := if file.Some? then ImageData(file) else c.image,
       updatedAt := now)
  }

  /** `cs` is a listing of the store: every element is the stored document
      under its own id, every stored id occurs, and no id occurs twice. The
      order is the store's own and is not specified. */
  predicate IsListing(cs: seq<Customer>, m: map<Id, Customer>) {
    && (forall i :: 0 <= i < |cs| ==> cs[i].id in m && m[cs[i].id] == cs[i])
    && (forall id :: id in m ==> exists i :: 0 <= i < |cs| && cs[i].id == id)
    && (forall i, j :: 0 <= i < j < |cs| ==> cs[i].id != cs[j].id)
  }

  /** Putting a stored document in front of a listing of the rest of the
      store gives a listing of the whole store. */
  lemma ListingCons(k: Id, m: map<Id, Customer>, cs: seq<Customer>)
    requires k in m && m[k].id == k
    requires IsListing(cs, m - {k})
    ensures IsListing([m[k]] + cs, m)
  {
    var all := [m[k]] + cs;
    forall i | 0 <= i < |all|
      ensures all[i].id in m && m[all[i].id] == all[i]
    {
      if i > 0 {
        assert all[i] == cs[i - 1];
      }
    }
    forall id | id in m
      ensures exists i :: 0 <= i < |all| && all[i].id == id
    {
      if id == k {
        assert all[0].id == id;
      } else {
        assert id in m - {k};
        var i: nat :| i < |cs| && cs[i].id == id;
        assert all[i + 1].id == id;
      }
    }
    forall i, j | 0 <= i < j < |all|
      ensures all[i].id != all[j].id
    {
      assert all[j] == cs[j - 1];
      if i > 0 {
        assert all[i] == cs[i - 1];
      } else {
        assert cs[j - 1].id in m - {k};
      }
    }
  }

  /** Every store whose documents carry their own ids can be listed. */
  lemma {:induction false} ListingExists(m: map<Id, Customer>)
    requires forall id :: id in m ==> m[id].id == id
    ensures exists cs :: IsListing(cs, m)
    decreases |m|
  {
    if m == map[] {
      assert IsListing([], m);
    } else {
      var k :| k in m;
      var rest := m - {k};
      assert rest.Keys == m.Keys - {k};
      ListingExists(rest);
      var cs: seq<Customer> :| IsListing(cs, rest);
      ListingCons(k, m, cs);
    }
  }

  /** A listing has exactly one element per stored document. */
  lemma {:induction false} ListingSize(cs: seq<Customer>, m: map<Id, Customer>)
    requires IsListing(cs, m)
    ensures |cs| == |m|
    decreases |cs|
  {
    if cs == [] {
      assert m.Keys == {};
    } else {
      var k := cs[0].id;
      var rest := m - {k};
      assert rest.Keys == m.Keys - {k};
      var tail := cs[1..];
      forall i | 0 <= i < |tail|
        ensures tail[i].id in rest && rest[tail[i].id] == tail[i]
      {
        assert tail[i] == cs[i + 1];
      }
      forall id | id in rest
        ensures exists i :: 0 <= i < |tail| && tail[i].id == id
      {
        var i: nat :| i < |cs| && cs[i].id == id;
        assert i != 0;
        assert tail[i - 1].id == id;
      }
      assert IsListing(tail, rest);
      ListingSize(tail, rest);
    }
  }

  class CustomerCollection {
    var customers: map<Id, Customer>

    /** Every document is stored under its own id and satisfies the schema. */
    ghost predicate Valid()
      reads this
    {
      forall id :: id in customers ==> customers[id].id == id && WellFormed(customers[id])
    }

    constructor ()
      ensures Valid() && customers == map[]
    {
      customers := map[];
    }

    /** GET /: every document, with 200. */
    method GetCustomers(outage: bool) returns (res: Response)
      requires Valid()
      ensures outage ==> res == Response(500, Failure("Failed to fetch customers"))
      ensures !outage ==> res.status == 200 && res.payload.Records? && IsListing(res.payload.customers, customers)
    {
      if outage {
        return Response(500, Failure("Failed to fetch customers"));
      }
      ListingExists(customers);
      // The driver returns the documents in an order the handler does not
      // fix, so the listing is any sequence meeting IsListing. This choice
      // over sequences states the result; it is not meant to be compiled.
      var cs: seq<Customer> :| IsListing(cs, customers);
      res := Response(200, Records(cs));
    }

    /** GET /:id: the document with 200, or 404 when no document has that id. */
    method GetCustomerById(id: Id, outage: bool) returns (res: Response)
      ensures outage ==> res == Response(500, Failure("Failed to fetch customer"))
      ensures !outage && id in customers ==> res == Response(200, Record(customers[id]))
      ensures !outage && id !in customers ==> res == Response(404, Failure(NotFoundError))
    {
      if outage {
        return Response(500, Failure("Failed to fetch customer"));
      }
      if id !in customers {
        return Response(404, Failure(NotFoundError));
      }
      res := Response(200, Record(customers[id]));
    }

    /** POST /: 400 unless name and email are both non-empty; otherwise the new
        document is saved and returned with 201. A failed save (the store is
        down, or the generated id is taken) is a 500 and stores nothing. */
    method CreateCustomer(body: Body, file: Option<UploadedFile>, newId: Id, now: Timestamp, outage: bool)
      returns (res: Response)
      requires Valid()
      modifies this
      ensures Valid()
      ensures !Filled(body.name) || !Filled(body.email) ==>
                res == Response(400, Failure(MissingFieldsError)) && customers == old(customers)
      ensures Filled(body.name) && Filled(body.email) && (outage || newId in old(customers)) ==>
                res == Response(500, Failure("Failed to create customer")) && customers == old(customers)
      ensures Filled(body.name) && Filled(body.email) && !outage && newId !in old(customers) ==>
                res == Response(201, Record(NewRecord(newId, body, file, now))) &&
                customers == old(customers)[newId := NewRecord(newId, body, file, now)]
      ensures res.status == 201 ==> newId !in old(customers) && |customers| == |old(customers)| + 1
    {
      if !Filled(body.name) || !Filled(body.email) {
        return Response(400, Failure(MissingFieldsError));
      }
      if outage || newId in customers {
        return Response(500, Failure("Failed to create customer"));
      }
      var customer := NewRecord(newId, body, file, now);
      customers := customers[newId := customer];
      res := Response(201, Record(customer));
    }

    /** PUT /:id: sent fields overwrite the stored ones, the image is replaced
        only when a file is uploaded, and the updated document is returned with
        200; 404 when no document has that id. */
    method UpdateCustomer(id: Id, body: Body, file: Option<UploadedFile>, now: Timestamp, outage: bool)
      returns (res: Response)
      requires Valid()
      modifies this
      ensures Valid()
      ensures outage || Rejected(body) ==>
                res == Response(500, Failure("Failed to update customer")) && customers == old(customers)
      ensures !outage && !Rejected(body) && id !in old(customers) ==>
                res == Response(404, Failure(NotFoundError)) && customers == old(customers)
      ensures !outage && !Rejected(body) && id in old(customers) ==>
                res == Response(200, Record(Patched(old(customers)[id], body, file, now))) &&
                customers == old(customers)[id := Patched(old(customers)[id], body, file, now)]
    {
      if outage || Rejected(body) {
        return Response(500, Failure("Failed to update customer"));
      }
      if id !in customers {
        return Response(404, Failure(NotFoundError));
      }
      var updated := Patched(customers[id], body, file, now);
      customers := customers[id := updated];
      res := Response(200, Record(updated));
    }

    /** DELETE /:id: the document is removed and 200 confirms it; 404 when no
        document has that id. */
    method DeleteCustomer(id: Id, outage: bool) returns (res: Response)
      requires Valid()
      modifies this
      ensures Valid()
      ensures outage ==> res == Response(500, Failure("Failed to delete customer")) && customers == old(customers)
      ensures !outage && id !in old(customers) ==>
                res == Response(404, Failure(NotFoundError)) && customers == old(customers)
      ensures !outage && id in old(customers) ==>
                res == Response(200, Message("Customer deleted successfully")) && customers == old(customers) - {id}
    {
      if outage {
        return Response(500, Failure("Failed to delete customer"));
      }
      if id !in customers {
        return Response(404, Failure(NotFoundError));
      }
      customers := customers - {id};
      res := Response(200, Message("Customer deleted successfully"));
    }
  }

  /** Listing an empty store succeeds with an empty array. */
  method ListEmptyStore() returns (res: Response)
    ensures res == Response(200, Records([]))
  {
    var store := new CustomerCollection();
    res := store.GetCustomers(false);
    ListingSize(res.payload.customers, store.customers);
  }

  /** A created document reads back unchanged by id. */
  method CreateThenGet(store: CustomerCollection, body: Body, file: Option<UploadedFile>, newId: Id, now: Timestamp)
    returns (created: Response, fetched: Response)
    requires store.Valid()
    modifies store
    ensures store.Valid()
    ensures created.status == 201 ==> fetched == Response(200, created.payload)
  {
    created := store.CreateCustomer(body, file, newId, now, false);
    fetched := store.GetCustomerById(newId, false);
  }

  /** After a successful delete the id reads back as 404; deleting a missing
      id is a 404 that leaves the store as it was. */
  method DeleteThenGet(store: CustomerCollection, id: Id) returns (deleted: Response, fetched: Response)
    requires store.Valid()
    modifies store
    ensures store.Valid()
    ensures deleted.status == 200 ==> fetched == Response(404, Failure(NotFoundError))
    ensures id !in old(store.customers) ==> deleted.status == 404 && store.customers == old(store.customers)
  {
    deleted := store.DeleteCustomer(id, false);
    fetched := store.GetCustomerById(id, false);
  }

  /** Create, read, update, delete and read again on one document. */
  method Lifecycle() returns (statuses: seq<nat>, updated: Customer)
    ensures statuses == [201, 200, 200, 200, 404]
    ensures updated.name == "Ana" && updated.email == "ana@x.com" && updated.company == Some("Acme")
  {
    var store := new CustomerCollection();
    var created := store.CreateCustomer(Body(Some("Ana"), Some("ana@x.com"), None, None, None, None), None, "I", 0, false);
    var fetched := store.GetCustomerById("I", false);
    var changed := store.UpdateCustomer("I", Body(None, None, None, None, Some("Acme"), None), None, 1, false);
    var deleted := store.DeleteCustomer("I", false);
    var gone := store.GetCustomerById("I", false);
    statuses := [created.status, fetched.status, changed.status, deleted.status, gone.status];
    updated := changed.payload.customer;
  }
}
