/** The persisted customer document (server/src/models/customer.model.js).

    The schema declares `name` and `email` as required strings, four optional
    strings, an `image` sub-document with exactly `url` and `public_id`, and
    Mongoose's automatic `createdAt` / `updatedAt` timestamps. The same shape is
    what the client receives as JSON, so the client modules reuse it. */
module CustomerModel {
  import opened Optional

  /** The document id (`_id`), as the client sees it: an opaque string. */
  type Id = string

  /** A reading of the server's clock. */
  type Timestamp = nat

  /** The `image` sub-document: `url` and `public_id`, nothing else. */
  datatype Image = Image(url: string, publicId: string)

  datatype Customer = Customer(
    id: Id,
    name: string,
    email: string,
    phone: Option<string>,
    address: Option<string>,
    company: Option<string>,
    notes: Option<string>,
    image: Option<Image>,
    createdAt: Timestamp,
    updatedAt: Timestamp)

  /** Mongoose's `required` check on a String path: present and not empty. */
  predicate Filled(s: Option<string>) {
    s.Some? && s.value != ""
  }

  /** What the schema guarantees of every stored document: both required
      paths hold a non-empty string. */
  predicate WellFormed(c: Customer) {
    c.name != "" && c.email != ""
  }
}
