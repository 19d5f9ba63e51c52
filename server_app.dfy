/** The request pipeline of server/index.js: the two liveness endpoints, the
    customer router mounted under `/api/v1/customers`, and the catch-all 404. */
module ServerApp {
  import opened Optional
  import opened Http
  import opened CustomerModel
  import opened CustomerRoutes
  import opened CustomerController

  const MountPath: seq<string> := ["api", "v1", "customers"]

  datatype Endpoint =
    | Root
    | Health
    | Customers(route: Route)
    | Unmatched

  /** Which middleware answers a request, in the order they are registered.
      `path` holds the request path's non-empty segments. */
  function Resolve(m: HttpMethod, path: seq<string>): Endpoint {
    if m == Get && path == [] then Root
    else if m == Get && path == ["api", "health"] then Health
    else if |path| >= |MountPath| && path[..|MountPath|] == MountPath then
      match Match(m, path[|MountPath|..])
      case Some(route) => Customers(route)
      case None => Unmatched
    else Unmatched
  }

  /** A customer route is reached exactly through the mount point. */
  lemma CustomerRoutesLiveUnderMount(m: HttpMethod, rest: seq<string>)
    ensures Resolve(m, MountPath + rest) == (match Match(m, rest) case Some(r) => Customers(r) case None => Unmatched)
    ensures forall path :: Resolve(m, path).Customers? ==> |path| >= 3 && path[..3] == MountPath
  {
    assert (MountPath + rest)[..|MountPath|] == MountPath;
    assert (MountPath + rest)[|MountPath|..] == rest;
  }

  /** Hands one request to whatever `Resolve` picks. The upload is passed on
      only where the route parses one. */
  method Serve(store: CustomerCollection, m: HttpMethod, path: seq<string>, body: Body,
               file: Option<UploadedFile>, newId: Id, now: Timestamp, outage: bool)
    returns (res: Response)
    requires store.Valid()
    modifies store
    ensures store.Valid()
    ensures Resolve(m, path).Unmatched? ==> res == Response(404, Failure("Not Found"))
    ensures Resolve(m, path).Root? ==> res == Response(200, Message("Server is running"))
    ensures m != Post && m != Put && m != Delete ==> store.customers == old(store.customers)
    ensures store.customers != old(store.customers) ==> Resolve(m, path).Customers? && !outage
    ensures res.status == 201 ==> m == Post && path == MountPath
    ensures m == Get && path == MountPath && !outage ==>
              res.status == 200 && res.payload.Records? && IsListing(res.payload.customers, store.customers)
    ensures m == Delete && |path| == 4 && path[..3] == MountPath && path[3] != "" && !outage ==>
              if path[3] in old(store.customers)
              then res.status == 200 && store.customers == old(store.customers) - {path[3]}
              else res.status == 404 && store.customers == old(store.customers)
  {
    match Resolve(m, path)
    case Root =>
      res := Response(200, Message("Server is running"));
    case Health =>
      res := Response(200, Message("ok"));
    case Unmatched =>
      res := Response(404, Failure("Not Found"));
    case Customers(route) =>
      var upload := if route.parsesUpload then file else None;
      match route.handler
      case GetCustomers =>
        res := store.GetCustomers(outage);
      case GetCustomerById(id) =>
        res := store.GetCustomerById(id, outage);
      case CreateCustomer =>
        res := store.CreateCustomer(body, upload, newId, now, outage);
      case UpdateCustomer(id) =>
        res := store.UpdateCustomer(id, body, upload, now, outage);
      case DeleteCustomer(id) =>
        res := store.DeleteCustomer(id, outage);
  }
}
