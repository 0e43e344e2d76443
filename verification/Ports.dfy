/** The boundary between the lifecycle coordinator and the reverse proxy
    (internal/application/ports/ports.go): the route value, the errors a proxy
    call can end in, and what each outcome means for the owned route table.
    The Caddy client is proved to meet these outcomes; the lifecycle coordinator
    assumes nothing else about its proxy.
 */
module Ports {

  datatype Option<+T> = None | Some(value: T)

  type LinkID = string

  datatype Route = Route(linkID: LinkID, hostname: string, upstream: string)

  /** Every error a proxy call can return. A rollback error wraps its cause. */
  datatype ProxyError =
    | Validation
    | DuplicateDesired
    | Timeout
    | Unavailable
    | MalformedResponse
    | AdminConflict
    | Rejected
    | RollbackIncomplete(cause: ProxyError)
    | RollbackIndeterminate(cause: ProxyError)

  /** The two errors that report an unrestored route array. */
  predicate Unrestored(e: ProxyError) {
    e.RollbackIncomplete? || e.RollbackIndeterminate?
  }

  /** The errors one Admin request can end in. */
  predicate Transport(e: ProxyError) {
    e.Timeout? || e.Unavailable? || e.MalformedResponse? || e.AdminConflict? || e.Rejected?
  }

  /** The owned routes as the rest of the program sees them. */
  type RouteTable = map<LinkID, Route>

  ghost predicate AddOutcome(before: RouteTable, r: Route, err: Option<ProxyError>, after: RouteTable) {
    && (after == before || after == before[r.linkID := r])
    && (err.None? ==> after == before[r.linkID := r])
  }

  ghost predicate RemoveOutcome(before: RouteTable, id: LinkID, err: Option<ProxyError>, after: RouteTable) {
    && (after == before || after == before - {id})
    && (err.None? ==> after == before - {id})
  }

  /** No two routes of the list name the same link. */
  ghost predicate DistinctLinks(desired: seq<Route>) {
    forall i, j :: 0 <= i < j < |desired| ==> desired[i].linkID != desired[j].linkID
  }

  ghost function LinksOf(desired: seq<Route>): (ids: set<LinkID>) {
    set r | r in desired :: r.linkID
  }

  /** `t` holds exactly the routes of `desired`. */
  ghost predicate Tabulates(t: RouteTable, desired: seq<Route>) {
    && t.Keys == LinksOf(desired)
    && forall r | r in desired :: r.linkID in t && t[r.linkID] == r
  }

  ghost predicate ReconcileOutcome(
    before: RouteTable, desired: seq<Route>, err: Option<ProxyError>, after: RouteTable)
  {
    match err
    case None => Tabulates(after, desired)
    case Some(e) =>
      if Unrestored(e) then after.Keys <= before.Keys + LinksOf(desired) else after == before
  }
}
