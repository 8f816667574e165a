/** The item routes of item-service/index.js: each runs its gates (`auth`, or
    `[auth, admin]`) and then its handler against the item store. */
module Routes {
  import opened Wrappers
  import Http
  import opened Gate
  import opened Items

  /** The JSON a route answers with. */
  datatype Body =
    | Message(msg: string)                // { msg }
    | ItemList(items: seq<Item>)         // an array of items
    | Saved(item: Item)                  // the saved item
    | Updated(msg: string, item: Item)   // { msg, item }

  datatype Response = Response(status: int, body: Body)

  const NotFoundMsg: string := "Item not found"
  const ApprovedMsg: string := "Item approved successfully"
  const ClaimedMsg: string := "Item marked as Claimed"

  /** The response a gate sends when it stops a request. */
  function GateResponse(reply: Reply): Response
  {
    Response(reply.status, Message(reply.msg))
  }

  /** POST /api/items/report (`auth`, then the upload, then the handler):
      201 with the saved item, or the gate's 401 with the store untouched. */
  method ReportItem(store: ItemStore, req: Request, verify: string -> VerifyResult,
                    form: ReportForm, file: Option<string>, now: int) returns (res: Response)
    requires store.Valid()
    modifies store, req
    ensures store.Valid()
    ensures match Authenticate(req.token, verify)
            case Reject(reply) =>
              res == GateResponse(reply) && unchanged(store)
            case Continue(user) =>
              var saved := NewItem(old(store.nextId), form, user, file, now);
              && res == Response(Http.Created, Saved(saved))
              && store.Documents() == old(store.Documents()) + [saved]
  {
    var next := req.Auth(verify);
    if !next {
      return GateResponse(req.sent.value);
    }
    var saved := store.Report(form, req.user.value, file, now);
    res := Response(Http.Created, Saved(saved));
  }

  /** GET /api/items/all (`auth`): every Approved item, newest first. */
  method AllItems(store: ItemStore, req: Request, verify: string -> VerifyResult) returns (res: Response)
    requires store.Valid()
    modifies req
    ensures match Authenticate(req.token, verify)
            case Reject(reply) => res == GateResponse(reply)
            case Continue(_) => res == Response(Http.OK, ItemList(ListApproved(store.Documents())))
  {
    var next := req.Auth(verify);
    if !next {
      return GateResponse(req.sent.value);
    }
    res := Response(Http.OK, ItemList(ListApproved(store.Documents())));
  }

  /** GET /api/items/my-reports (`auth`): the caller's own items, newest first. */
  method MyReports(store: ItemStore, req: Request, verify: string -> VerifyResult) returns (res: Response)
    requires store.Valid()
    modifies req
    ensures match Authenticate(req.token, verify)
            case Reject(reply) => res == GateResponse(reply)
            case Continue(user) => res == Response(Http.OK, ItemList(ListOwn(store.Documents(), user.id)))
  {
    var next := req.Auth(verify);
    if !next {
      return GateResponse(req.sent.value);
    }
    res := Response(Http.OK, ItemList(ListOwn(store.Documents(), req.user.value.id)));
  }

  /** GET /api/admin/pending-items (`[auth, admin]`): every Pending item,
      newest first. */
  method PendingItems(store: ItemStore, req: Request, verify: string -> VerifyResult) returns (res: Response)
    requires store.Valid()
    modifies req
    ensures match AuthThenAdmin(req.token, verify)
            case Reject(reply) => res == GateResponse(reply)
            case Continue(_) => res == Response(Http.OK, ItemList(ListPending(store.Documents())))
  {
    var next := req.Auth(verify);
    if next {
      next := req.Admin();
    }
    if !next {
      return GateResponse(req.sent.value);
    }
    res := Response(Http.OK, ItemList(ListPending(store.Documents())));
  }

  /** PUT /api/admin/approve-item/:id (`[auth, admin]`): 404 for an unknown id,
      otherwise the item becomes Approved whatever its status; a request the
      gates stop leaves the store untouched. */
  method ApproveItem(store: ItemStore, req: Request, verify: string -> VerifyResult, id: ItemId)
    returns (res: Response)
    requires store.Valid()
    modifies store, req
    ensures store.Valid()
    ensures match AuthThenAdmin(req.token, verify)
            case Reject(reply) =>
              res == GateResponse(reply) && unchanged(store)
            case Continue(_) =>
              && store.items == WithStatus(old(store.items), id, Approved)
              && store.nextId == old(store.nextId)
              && res == if id in old(store.items)
                        then Response(Http.OK, Updated(ApprovedMsg, old(store.items)[id].(status := Approved)))
                        else Response(Http.NotFound, Message(NotFoundMsg))
  {
    var next := req.Auth(verify);
    if next {
      next := req.Admin();
    }
    if !next {
      return GateResponse(req.sent.value);
    }
    var found := store.Approve(id);
    if found.None? {
      return Response(Http.NotFound, Message(NotFoundMsg));
    }
    res := Response(Http.OK, Updated(ApprovedMsg, found.value));
  }

  /** PUT /api/admin/claim-item/:id (`[auth, admin]`): 404 for an unknown id,
      otherwise the item becomes Claimed whatever its status; a request the
      gates stop leaves the store untouched. */
  method ClaimItem(store: ItemStore, req: Request, verify: string -> VerifyResult, id: ItemId)
    returns (res: Response)
    requires store.Valid()
    modifies store, req
    ensures store.Valid()
    ensures match AuthThenAdmin(req.token, verify)
            case Reject(reply) =>
              res == GateResponse(reply) && unchanged(store)
            case Continue(_) =>
              && store.items == WithStatus(old(store.items), id, Claimed)
              && store.nextId == old(store.nextId)
              && res == if id in old(store.items)
                        then Response(Http.OK, Updated(ClaimedMsg, old(store.items)[id].(status := Claimed)))
                        else Response(Http.NotFound, Message(NotFoundMsg))
  {
    var next := req.Auth(verify);
    if next {
      next := req.Admin();
    }
    if !next {
      return GateResponse(req.sent.value);
    }
    var found := store.Claim(id);
    if found.None? {
      return Response(Http.NotFound, Message(NotFoundMsg));
    }
    res := Response(Http.OK, Updated(ClaimedMsg, found.value));
  }
}
