/** The customer router of server/src/routes/customer.routes.js: a fixed table
    from request method and path to a handler, where the two writing routes
    run the single-file `image` upload parser before their handler. */
module CustomerRoutes {
  import opened Optional
  import opened Http
  import opened CustomerModel

  datatype Handler =
    | GetCustomers
    | GetCustomerById(id: Id)
    | CreateCustomer
    | UpdateCustomer(id: Id)
    | DeleteCustomer(id: Id)

  /** The handler a request reaches, and whether `upload.single("image")`
      runs in front of it. */
  datatype Route = Route(handler: Handler, parsesUpload: bool)

  /** The route table. `path` holds the non-empty segments after the router's
      mount point: `/` is `[]` and `/:id` is `[id]`. */
  function Match(m: HttpMethod, path: seq<string>): Option<Route> {
    if path == [] then
      match m
      case Get => Some(Route(GetCustomers, false))
      case Post => Some(Route(CreateCustomer, true))
      case _ => None
    else if |path| == 1 && path[0] != "" then
      match m
      case Get => Some(Route(GetCustomerById(path[0]), false))
      case Put => Some(Route(UpdateCustomer(path[0]), true))
      case Delete => Some(Route(DeleteCustomer(path[0]), false))
      case _ => None
    else
      None
  }

  /** The method and path each handler is registered under. */
  function RequestLine(h: Handler): (HttpMethod, seq<string>) {
    match h
    case GetCustomers => (Get, [])
    case GetCustomerById(id) => (Get, [id])
    case CreateCustomer => (Post, [])
    case UpdateCustomer(id) => (Put, [id])
    case DeleteCustomer(id) => (Delete, [id])
  }

  /** The handlers registered behind the upload parser. */
  predicate TakesUpload(h: Handler) {
    h.CreateCustomer? || h.UpdateCustomer?
  }

  /** A handler whose `:id` would be an empty segment cannot be reached. */
  predicate Reachable(h: Handler) {
    match h
    case GetCustomerById(id) => id != ""
    case UpdateCustomer(id) => id != ""
    case DeleteCustomer(id) => id != ""
    case _ => true
  }

  /** Every reachable handler is reached by its registered request line, with
      the upload parser exactly in front of the writing handlers. */
  lemma RegisteredLineReachesHandler(h: Handler)
    requires Reachable(h)
    ensures Match(RequestLine(h).0, RequestLine(h).1) == Some(Route(h, TakesUpload(h)))
  {
  }

  /** Conversely, a request that matches is the registered line of the
      handler it reaches; no two request lines share a handler. */
  lemma MatchedRequestIsRegisteredLine(m: HttpMethod, path: seq<string>)
    requires Match(m, path).Some?
    ensures Reachable(Match(m, path).value.handler)
    ensures RequestLine(Match(m, path).value.handler) == (m, path)
    ensures Match(m, path).value.parsesUpload == TakesUpload(Match(m, path).value.handler)
  {
    if |path| == 1 {
      assert path == [path[0]];
    }
  }

  /** Only POST and PUT requests ever carry a parsed upload. */
  lemma UploadsOnlyOnWrites(m: HttpMethod, path: seq<string>)
    ensures Match(m, path).Some? && Match(m, path).value.parsesUpload ==> m == Post || m == Put
    ensures m == Get || m == Delete ==> Match(m, path).None? || !Match(m, path).value.parsesUpload
  {
  }
}
