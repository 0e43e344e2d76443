/** The Admin endpoint as its client sees it (internal/adapters/outbound/caddy/caddy.go:427-510):
    a shared route array reached one request at a time. Every request may fail,
    and a failed write may or may not have reached the array. A ghost log keeps
    the requests and their answers.
 */
module CaddyAdmin {
  import opened Ports
  import opened CaddyRoutes
  import opened CaddyUndo

  datatype Result<+T> = Ok(value: T) | Err(error: ProxyError)

  /** Who issued a request: the operation itself or its rollback. */
  datatype Phase = Forward | Compensation

  datatype Request = Read | Change(write: Write)

  datatype Event = Event(phase: Phase, request: Request, err: Option<ProxyError>)

  type Log = seq<Event>

  /** No request of `phase` logged since position `from` failed. */
  ghost predicate NoFailure(log: Log, from: nat, phase: Phase) {
    forall i :: from <= i < |log| && log[i].phase == phase ==> log[i].err.None?
  }

  lemma {:induction false} NoFailureEarlier(earlier: Log, log: Log, from: nat, phase: Phase)
    requires earlier <= log && NoFailure(log, from, phase)
    ensures NoFailure(earlier, from, phase)
  {
    forall i | from <= i < |earlier| && earlier[i].phase == phase ensures earlier[i].err.None? {
      assert earlier[i] == log[i];
    }
  }

  /** Only requests of `phase` were logged since position `from`. */
  ghost predicate Only(log: Log, from: nat, phase: Phase) {
    forall i :: from <= i < |log| ==> log[i].phase == phase
  }

  ghost predicate NoWrites(log: Log, from: nat) {
    forall i :: from <= i < |log| ==> log[i].request.Read?
  }

  /** The error of the latest forward request since `from`, if it failed. */
  ghost function LatestFailure(log: Log, from: nat): Option<ProxyError>
    decreases |log|
  {
    if |log| <= from then None
    else if log[|log| - 1].phase.Forward? then log[|log| - 1].err
    else LatestFailure(log[..|log| - 1], from)
  }

  /** The Admin endpoint: the route array, reached over an unreliable transport. */
  class Admin {
    var routes: seq<Raw>
    ghost var log: Log

    constructor (initial: seq<Raw>)
      ensures routes == initial && log == []
    {
      routes, log := initial, [];
    }

    /** GET of the array. A caller that parses every element fails on one that does not parse. */
    method Get(parse: bool, ghost phase: Phase) returns (r: Result<seq<Raw>>)
      modifies this`log
      ensures log == old(log) + [Event(phase, Read, if r.Err? then Some(r.error) else None)]
      ensures log[|old(log)|].phase == phase && log[|old(log)|].err.None? == r.Ok?
      ensures r.Ok? ==> r.value == routes && (parse ==> AllParsed(routes))
      ensures r.Err? ==> Transport(r.error)
    {
      var lost: bool := *;
      if lost {
        var e := SomeFailure();
        r := Err(e);
      } else if parse && !AllParsed(routes) {
        r := Err(MalformedResponse);
      } else {
        r := Ok(routes);
      }
      log := log + [Event(phase, Read, if r.Err? then Some(r.error) else None)];
    }

    /** One write, attempted once: accepted, refused, or accepted with the answer lost. */
    method Send(w: Write, ghost phase: Phase) returns (err: Option<ProxyError>, ghost applied: bool)
      modifies this
      ensures log == old(log) + [Event(phase, Change(w), err)]
      ensures log[|old(log)|].phase == phase && log[|old(log)|].err == err
      ensures applied ==> InRange(old(routes), w)
      ensures routes == if applied then Apply(old(routes), w) else old(routes)
      ensures err.None? ==> applied
      ensures err.Some? ==> Transport(err.value)
    {
      var reached: bool, answered: bool := *, *;
      var failure := SomeFailure();
      err := Some(failure);
      applied := reached && InRange(routes, w);
      if reached && InRange(routes, w) {
        routes := Apply(routes, w);
        if answered {
          err := None;
        }
      }
      log := log + [Event(phase, Change(w), err)];
    }
  }

  method SomeFailure() returns (e: ProxyError)
    ensures Transport(e)
  {
    var k: int := *;
    e := match k
      case 0 => Timeout
      case 1 => Unavailable
      case 2 => MalformedResponse
      case 3 => AdminConflict
      case _ => Rejected;
  }

  /** The caller's context: once cancelled or past its deadline it stays done. */
  class Context {
    var done: bool

    constructor (done: bool)
      ensures this.done == done
    {
      this.done := done;
    }

    method Err() returns (cancelled: bool)
      modifies this
      ensures cancelled == done && (old(done) ==> done)
    {
      var now: bool := *;
      done := done || now;
      cancelled := done;
    }
  }

  /** The verdict of the network library on "is this a loopback host:port?";
      only its verdict on the empty string is relied on. */
  type LoopbackCheck = f: string -> bool | !f("") witness _ => false

  predicate IsSpace(c: char) {
    c in "\t\n\U{0B}\U{0C}\r \U{85}\U{A0}\U{1680}\U{2028}\U{2029}\U{202F}\U{205F}\U{3000}" || '\U{2000}' <= c <= '\U{200A}'
  }

  /** strings.TrimSpace(s) == "" */
  predicate Blank(s: string) {
    forall i :: 0 <= i < |s| ==> IsSpace(s[i])
  }

  predicate ValidRoute(r: Route, loopback: LoopbackCheck) {
    r.linkID != "" && !Blank(r.hostname) && loopback(r.upstream)
  }

  /** The desired lists Reconcile accepts. */
  ghost predicate Admissible(desired: seq<Route>, loopback: LoopbackCheck) {
    DistinctLinks(desired) && forall r | r in desired :: ValidRoute(r, loopback)
  }

  /** The desired list as a table; later entries would win. */
  ghost function TableOf(desired: seq<Route>): RouteTable {
    if desired == [] then map[]
    else
      var n := |desired| - 1;
      TableOf(desired[..n])[desired[n].linkID := desired[n]]
  }

  lemma {:induction false} TableTabulates(desired: seq<Route>)
    requires DistinctLinks(desired)
    ensures Tabulates(TableOf(desired), desired)
  {
    if desired != [] {
      var n := |desired| - 1;
      TableTabulates(desired[..n]);
      assert desired == desired[..n] + [desired[n]];
      forall r | r in desired ensures r.linkID in TableOf(desired) && TableOf(desired)[r.linkID] == r {
        if r in desired[..n] {
          var i :| 0 <= i < n && desired[i] == r;
        }
      }
      assert LinksOf(desired) == LinksOf(desired[..n]) + {desired[n].linkID};
    }
  }

  /** Every entry of `s` is a snapshot entry, byte for byte, or an encoded wanted route. */
  ghost predicate Sourced(s: seq<Raw>, snapshot: seq<Raw>, w: RouteTable) {
    forall x | x in s :: x in snapshot || exists id :: id in w && x == Canon(w[id])
  }

  ghost predicate UndosFrom(undos: seq<Undo>, snapshot: seq<Raw>) {
    forall u | u in undos :: match u
      case PutBack(_, before) => before in snapshot && IsOwned(before)
      case TakeOut(id) => id != ""
      case Reinsert(_, before) => before in snapshot
  }

  function Parsed(s: seq<Raw>): (r: seq<CaddyRoute>)
    requires AllParsed(s)
    ensures |r| == |s| && forall i :: 0 <= i < |s| ==> r[i] == s[i].route
  {
    seq(|s|, i requires 0 <= i < |s| => s[i].route)
  }

  /** The unrestored-array report on top of a cause, and the cause beneath it. */
  function Root(e: ProxyError): ProxyError {
    if Unrestored(e) then e.cause else e
  }

  /** What forward writes logged on top of `before` amount to: all of them
      succeeded and the context was live after the last, or the phase stopped at
      the first failure, whose error is `err` unless the context is done. */
  ghost predicate Ledger(before: Log, log: Log, done: bool, err: Option<ProxyError>) {
    && before <= log && Only(log, |before|, Forward)
    && match err
       case None => NoFailure(log, |before|, Forward) && (|log| > |before| ==> !done)
       case Some(e) =>
         Transport(e) && if done then e == Timeout else |log| > |before| && log[|log| - 1].err == err
  }

  lemma {:induction false} LedgerExtends(
    before: Log, mid: Log, log: Log, done0: bool, done: bool, err: Option<ProxyError>)
    requires Ledger(before, mid, done0, None) && (done0 ==> done) && Ledger(mid, log, done, err)
    requires |log| == |mid| && err.None? ==> done == done0
    ensures Ledger(before, log, done, err)
  {
  }

  ghost predicate SameIDs(s: seq<Raw>, t: seq<Raw>) {
    |s| == |t| && forall i :: 0 <= i < |s| ==> IDOf(s[i]) == IDOf(t[i])
  }

  lemma {:induction false} SourcedAfter(s: seq<Raw>, w: Write, snapshot: seq<Raw>, table: RouteTable)
    requires InRange(s, w) && Sourced(s, snapshot, table)
    requires match w
      case Put(_, x) => x in snapshot || exists id :: id in table && x == Canon(table[id])
      case Post(_, x) => x in snapshot || exists id :: id in table && x == Canon(table[id])
      case Del(_) => true
    ensures Sourced(Apply(s, w), snapshot, table)
  {
    forall x | x in Apply(s, w) ensures x in snapshot || exists id :: id in table && x == Canon(table[id]) {
      if !(x in s) {
        assert w.body == x;
      }
    }
  }

  lemma {:induction false} SourcedUndo(u: Undo, s: seq<Raw>, snapshot: seq<Raw>, table: RouteTable)
    requires Sourced(s, snapshot, table) && UndosFrom([u], snapshot)
    ensures Sourced(UndoEffect(u, s), snapshot, table)
  {
    assert u in [u];
    match UndoWrite(u, s) {
      case Some(w) => if InRange(s, w) { SourcedAfter(s, w, snapshot, table); }
      case None =>
    }
  }

  /** No rollback, however unreliable, brings in anything new. */
  lemma {:induction false} SourcedRollback(
    undos: seq<Undo>, i: nat, effective: seq<bool>, s: seq<Raw>, snapshot: seq<Raw>, table: RouteTable)
    requires i <= |undos| && |effective| == |undos| - i
    requires Sourced(s, snapshot, table) && UndosFrom(undos, snapshot)
    ensures Sourced(UndoSome(undos, i, effective, s), snapshot, table)
    decreases |undos| - i
  {
    if i < |undos| {
      SourcedRollback(undos, i + 1, effective[1..], s, snapshot, table);
      assert undos[i] in undos;
      SourcedUndo(undos[i], UndoSome(undos, i + 1, effective[1..], s), snapshot, table);
    }
  }

  lemma {:induction false} LatestFailureStays(log: Log, more: Log, from: nat)
    requires log <= more && Only(more, |log|, Compensation) && from <= |log|
    ensures LatestFailure(more, from) == LatestFailure(log, from)
    decreases |more|
  {
    if |log| < |more| {
      var n := |more| - 1;
      assert more[n].phase == Compensation;
      LatestFailureStays(log, more[..n], from);
    } else {
      assert more == log;
    }
  }

  lemma {:induction false} LatestFailureEarlier(log: Log, lower: nat, from: nat)
    requires lower <= from && LatestFailure(log, from).Some?
    ensures LatestFailure(log, lower) == LatestFailure(log, from)
    decreases |log|
  {
    if !log[|log| - 1].phase.Forward? {
      LatestFailureEarlier(log[..|log| - 1], lower, from);
    }
  }
}
