/** The order in which the coordinator may act, as a monitor over the trace of
    its calls: nothing is started before its port is on record and given back,
    nothing is published before its identity is on record, it has passed a probe,
    and that is on record too, and nothing is stopped before its route was withdrawn.
 */
module HealthGate {
  import opened Ports
  import opened Rows

  /** One call; `ok` is false when it returned an error. `Probed` carries the
      address that was probed. */
  datatype Event =
    | SaveTried(record: Link, ok: bool)
    | PortReserved(port: nat)
    | PortReleased(port: nat, ok: bool)
    | Started(link: LinkID, port: nat, process: string)
    | Probed(link: LinkID, url: string, ok: bool)
    | AliveSeen(process: string, alive: bool)
    | AddTried(route: Route, ok: bool)
    | RemoveTried(link: LinkID, ok: bool)
    | StopTried(link: LinkID, process: string, ok: bool)
    | ReconcileTried(desired: seq<Route>, ok: bool, fragile: bool)

  /** The calls made so far, the latest outermost. */
  datatype Trace = Quiet | Then(earlier: Trace, last: Event)

  function Events(t: Trace): seq<Event> {
    match t
    case Quiet => []
    case Then(earlier, e) => Events(earlier) + [e]
  }

  /** `t` is `from` with further calls appended. */
  predicate Extends(from: Trace, t: Trace) {
    t == from || (t.Then? && Extends(from, t.earlier))
  }

  /** The call `e` was made after `from`. */
  predicate Since(from: Trace, t: Trace, e: Event) {
    t != from && t.Then? && (t.last == e || Since(from, t.earlier, e))
  }

  /** The removal of the link's route was attempted after `from`. */
  predicate Tried(from: Trace, t: Trace, link: LinkID) {
    Since(from, t, RemoveTried(link, true)) || Since(from, t, RemoveTried(link, false))
  }

  /** The latest call is an acknowledged save. */
  predicate SavedLast(t: Trace) {
    t.Then? && t.last.SaveTried? && t.last.ok
  }

  /** A Reconcile of a fragile route array failed. */
  predicate Shaken(t: Trace) {
    t.Then? && ((t.last.ReconcileTried? && !t.last.ok && t.last.fragile) || Shaken(t.earlier))
  }

  lemma {:induction false} ExtendsTransitive(a: Trace, b: Trace, c: Trace)
    requires Extends(a, b) && Extends(b, c)
    ensures Extends(a, c)
  {
    if b != c {
      ExtendsTransitive(a, b, c.earlier);
    }
  }

  lemma {:induction false} SinceExtends(from: Trace, t: Trace, later: Trace, e: Event)
    requires Since(from, t, e) && Extends(from, t) && Extends(t, later)
    ensures Since(from, later, e)
  {
    if later != t {
      SinceExtends(from, t, later.earlier, e);
      Antisymmetric(from, t, later);
    }
  }

  function Length(t: Trace): nat {
    match t case Quiet => 0 case Then(earlier, _) => 1 + Length(earlier)
  }

  lemma {:induction false} ExtendsLonger(a: Trace, b: Trace)
    requires Extends(a, b)
    ensures Length(a) <= Length(b) && (a != b ==> Length(a) < Length(b))
  {
    if a != b {
      ExtendsLonger(a, b.earlier);
    }
  }

  /** A trace extended by some calls is not the one it began as. */
  lemma {:induction false} Antisymmetric(a: Trace, b: Trace, c: Trace)
    requires Extends(a, b) && Extends(b, c) && b != c
    ensures a != c
  {
    ExtendsLonger(a, b);
    ExtendsLonger(b, c);
  }

  lemma {:induction false} SinceEarlier(from: Trace, mid: Trace, t: Trace, e: Event)
    requires Since(mid, t, e) && Extends(from, mid) && Extends(mid, t)
    ensures Since(from, t, e)
  {
    Antisymmetric(from, mid, t);
    if t.last != e {
      SinceEarlier(from, mid, t.earlier, e);
    }
  }

  lemma {:induction false} TriedLater(from: Trace, t: Trace, later: Trace, link: LinkID)
    requires Tried(from, t, link) && Extends(from, t) && Extends(t, later)
    ensures Tried(from, later, link)
  {
    if Since(from, t, RemoveTried(link, true)) {
      SinceExtends(from, t, later, RemoveTried(link, true));
    } else {
      SinceExtends(from, t, later, RemoveTried(link, false));
    }
  }

  lemma {:induction false} TriedSince(from: Trace, mid: Trace, t: Trace, link: LinkID)
    requires Tried(mid, t, link) && Extends(from, mid) && Extends(mid, t)
    ensures Tried(from, t, link)
  {
    if Since(mid, t, RemoveTried(link, true)) {
      SinceEarlier(from, mid, t, RemoveTried(link, true));
    } else {
      SinceEarlier(from, mid, t, RemoveTried(link, false));
    }
  }

  /** What the monitor remembers of one link: the port on record for the next
      start, the health check of that record and whether the port was given back;
      the port, the recorded health check and the identity of the latest start,
      whether that identity is on record, whether it passed its probe and whether
      that is on record; and whether the route was withdrawn. */
  datatype Gate = Gate(prepared: Option<nat>, plan: HealthURL, released: bool,
                       port: Option<nat>, check: HealthURL, process: string, named: bool, healthy: bool, confirmed: bool,
                       withdrawn: bool)

  const CLOSED := Gate(None, [], false, None, [], "", false, false, false, false)

  function Observe(g: Gate, e: Event, link: LinkID): Gate {
    match e
    case SaveTried(v, ok) =>
      if v.id == link && ok then
        g.(prepared := if v.status == Starting && v.process == "" then Some(v.port) else None,
           plan := v.health, released := false,
           named := g.port.Some? && v.process == g.process,
           confirmed := g.port.Some? && g.healthy && v.process == g.process && v.status == Healthy)
      else g
    case PortReleased(p, ok) => if ok && g.prepared == Some(p) then g.(released := true) else g
    case Started(l, p, id) =>
      if l == link
      then g.(port := Some(p), check := g.plan, process := id, named := false, healthy := false, confirmed := false)
      else g
    case Probed(l, url, ok) =>
      if l == link && ok && g.named && g.port.Some? && url == ProbeURL(g.check, g.port.value)
      then g.(healthy := true) else g
    case AddTried(route, _) => if route.linkID == link then g.(withdrawn := false) else g
    case RemoveTried(l, _) => if l == link then g.(withdrawn := true) else g
    case StopTried(l, _, _) =>
      if l == link then g.(port := None, named := false, healthy := false, confirmed := false) else g
    case _ => g
  }

  function GateOf(t: Trace, link: LinkID): Gate {
    match t
    case Quiet => CLOSED
    case Then(earlier, e) => Observe(GateOf(earlier, link), e, link)
  }

  /** The record's port and health check are saved for a start. */
  predicate OnRecord(t: Trace, l: Link) {
    var g := GateOf(t, l.id);
    g.prepared == Some(l.port) && g.plan == l.health
  }

  /** And the port was given back. */
  predicate MayStart(t: Trace, l: Link) {
    OnRecord(t, l) && GateOf(t, l.id).released
  }

  /** The latest start of the link is the one the record describes, and `check` was recorded for it. */
  predicate Runs(t: Trace, l: Link, check: HealthURL) {
    var g := GateOf(t, l.id);
    g.port == Some(l.port) && g.process == l.process && g.check == check
  }

  predicate Known(t: Trace, l: Link, check: HealthURL) {
    Runs(t, l, check) && GateOf(t, l.id).named
  }

  predicate Proven(t: Trace, l: Link, check: HealthURL) {
    Known(t, l, check) && GateOf(t, l.id).healthy
  }

  predicate MayPublish(t: Trace, l: Link, check: HealthURL) {
    Proven(t, l, check) && GateOf(t, l.id).confirmed
  }

  /** The latest start of the link is the one the record describes, `check` was
      recorded for it, and it passed its probe. */
  predicate Shown(t: Trace, l: Link, check: HealthURL) {
    Runs(t, l, check) && GateOf(t, l.id).healthy
  }

  /** A successful probe of a link whose identity is on record. */
  lemma {:induction false} Proves(t: Trace, l: Link, check: HealthURL)
    requires Known(t, l, check)
    ensures Proven(Then(t, Probed(l.id, ProbeURL(check, l.port), true)), l, check)
  {
  }

  predicate Permitted(t: Trace, e: Event) {
    match e
    case Started(l, p, _) => GateOf(t, l).prepared == Some(p) && GateOf(t, l).released
    case AddTried(route, _) =>
      var g := GateOf(t, route.linkID);
      g.port.Some? && route.upstream == LocalUpstream(g.port.value) && g.named && g.healthy && g.confirmed
    case StopTried(l, _, _) => GateOf(t, l).withdrawn
    case _ => true
  }

  /** Every call was permitted by what preceded it. */
  predicate GateOK(t: Trace) {
    match t
    case Quiet => true
    case Then(earlier, e) => GateOK(earlier) && Permitted(earlier, e)
  }

  // ------------------------------------------- what the monitor's memory means

  predicate Restarts(e: Event, link: LinkID) {
    (e.Started? && e.link == link) || (e.StopTried? && e.link == link)
  }

  predicate SavedOK(e: Event, link: LinkID) {
    e.SaveTried? && e.ok && e.record.id == link
  }

  /** Position `k` is the latest start of the link, on port `p`, of process `id`. */
  ghost predicate LatestStart(es: seq<Event>, k: int, link: LinkID, p: nat, id: string) {
    && 0 <= k < |es| && es[k] == Started(link, p, id)
    && forall m :: k < m < |es| ==> !Restarts(es[m], link)
  }

  /** Position `a` is an acknowledged save of the link that names process `id`. */
  ghost predicate NamingSave(es: seq<Event>, a: int, link: LinkID, id: string) {
    0 <= a < |es| && SavedOK(es[a], link) && es[a].record.process == id
  }

  /** Position `c` is an acknowledged save of the link as Healthy that names process `id`. */
  ghost predicate HealthySave(es: seq<Event>, c: int, link: LinkID, id: string) {
    NamingSave(es, c, link, id) && es[c].record.status == Healthy
  }

  /** Position `j` is a successful probe for the link of `check` filled in with port `p`. */
  ghost predicate HealthyProbe(es: seq<Event>, j: int, link: LinkID, check: HealthURL, p: nat) {
    0 <= j < |es| && es[j] == Probed(link, ProbeURL(check, p), true)
  }

  ghost predicate Withdrawal(es: seq<Event>, r: int, link: LinkID) {
    && 0 <= r < |es| && es[r].RemoveTried? && es[r].link == link
    && forall m :: r < m < |es| ==> !(es[m].AddTried? && es[m].route.linkID == link)
  }

  /** Position `a` is the latest acknowledged save of the link, and it records port
      `p` and health check `check` for a start. */
  ghost predicate PortOnRecord(es: seq<Event>, a: int, link: LinkID, p: nat, check: HealthURL) {
    && 0 <= a < |es| && SavedOK(es[a], link) && es[a].record.health == check
    && es[a].record.status == Starting && es[a].record.process == "" && es[a].record.port == p
    && forall m :: a < m < |es| ==> !SavedOK(es[m], link)
  }

  /** Where to find what the monitor remembers. */
  datatype Places = Places(
    prepared: int, released: int, recorded: int, start: int, named: int, probe: int, confirmed: int, removed: int)

  ghost predicate StartedAs(g: Gate, es: seq<Event>, w: Places, link: LinkID) {
    && (g.port.Some? ==>
        && LatestStart(es, w.start, link, g.port.value, g.process)
        && PortOnRecord(es[..w.start], w.recorded, link, g.port.value, g.check))
    && (g.named ==> g.port.Some? && w.start < w.named && NamingSave(es, w.named, link, g.process))
    && (g.healthy ==> g.port.Some? && w.start < w.probe && HealthyProbe(es, w.probe, link, g.check, g.port.value))
    && (g.confirmed ==> g.healthy && w.probe < w.confirmed && HealthySave(es, w.confirmed, link, g.process))
  }

  /** The probe itself came after an acknowledged save that names the process. */
  ghost predicate NamedBeforeProbe(g: Gate, es: seq<Event>, w: Places, a: int, link: LinkID) {
    g.healthy ==> g.port.Some? && w.start < a < w.probe && NamingSave(es, a, link, g.process)
  }

  ghost predicate PreparedAs(g: Gate, es: seq<Event>, w: Places, link: LinkID) {
    && (g.prepared.Some? ==> PortOnRecord(es, w.prepared, link, g.prepared.value, g.plan))
    && (g.released ==>
        g.prepared.Some? && w.prepared < w.released < |es| && es[w.released] == PortReleased(g.prepared.value, true))
    && (g.withdrawn ==> Withdrawal(es, w.removed, link))
  }

  lemma {:induction false} PreparedMeaning(t: Trace, link: LinkID) returns (w: Places)
    ensures PreparedAs(GateOf(t, link), Events(t), w, link)
  {
    w := Places(0, 0, 0, 0, 0, 0, 0, 0);
    match t
    case Quiet =>
    case Then(earlier, e) =>
      var n := |Events(earlier)|;
      w := PreparedMeaning(earlier, link);
      if SavedOK(e, link) {
        w := w.(prepared := n);
      }
      if e.PortReleased? && e.ok && GateOf(earlier, link).prepared == Some(e.port) {
        w := w.(released := n);
      }
      if e.RemoveTried? && e.link == link {
        w := w.(removed := n);
      }
  }

  /** What stands at a place still does after one more call, unless the link is started or stopped. */
  lemma {:induction false} PlacesStay(g: Gate, es: seq<Event>, w: Places, a: int, e: Event, link: LinkID)
    requires StartedAs(g, es, w, link) && NamedBeforeProbe(g, es, w, a, link) && !Restarts(e, link)
    ensures StartedAs(g, es + [e], w, link) && NamedBeforeProbe(g, es + [e], w, a, link)
  {
    if g.port.Some? {
      assert (es + [e])[..w.start] == es[..w.start];
    }
  }

  lemma {:induction false} StartPlace(es: seq<Event>, p: Places, e: Event, link: LinkID, g: Gate) returns (w: Places)
    requires e.Started? && e.link == link && g.prepared == Some(e.port) && PreparedAs(g, es, p, link)
    ensures StartedAs(Observe(g, e, link), es + [e], w, link)
    ensures w.start == |es|
  {
    w := p.(start := |es|, recorded := p.prepared);
    assert (es + [e])[..|es|] == es;
  }

  /** A save, a probe or any other call that neither starts nor stops the link. */
  lemma {:induction false} OtherPlaces(g: Gate, es: seq<Event>, w: Places, a: int, e: Event, link: LinkID)
    returns (w': Places, a': int)
    requires StartedAs(g, es, w, link) && NamedBeforeProbe(g, es, w, a, link) && !Restarts(e, link)
    ensures StartedAs(Observe(g, e, link), es + [e], w', link)
    ensures NamedBeforeProbe(Observe(g, e, link), es + [e], w', a', link)
  {
    PlacesStay(g, es, w, a, e, link);
    w', a' := w, a;
    if SavedOK(e, link) {
      w' := w.(named := |es|, confirmed := |es|);
    } else if Observe(g, e, link).healthy && !g.healthy {
      w', a' := w.(probe := |es|), w.named;
    }
  }

  lemma {:induction false} StartedMeaning(t: Trace, link: LinkID) returns (w: Places, a: int)
    requires GateOK(t)
    ensures StartedAs(GateOf(t, link), Events(t), w, link)
    ensures NamedBeforeProbe(GateOf(t, link), Events(t), w, a, link)
  {
    w, a := Places(0, 0, 0, 0, 0, 0, 0, 0), 0;
    match t
    case Quiet =>
    case Then(earlier, e) =>
      if e.Started? && e.link == link {
        var p := PreparedMeaning(earlier, link);
        w := StartPlace(Events(earlier), p, e, link, GateOf(earlier, link));
      } else if !Restarts(e, link) {
        w, a := StartedMeaning(earlier, link);
        w, a := OtherPlaces(GateOf(earlier, link), Events(earlier), w, a, e, link);
      }
  }

  /** The trace up to its `i`-th call. */
  lemma {:induction false} PermittedAt(t: Trace, i: nat) returns (before: Trace)
    requires GateOK(t) && i < |Events(t)|
    ensures GateOK(before)
    ensures Events(before) == Events(t)[..i] && Permitted(before, Events(t)[i])
  {
    var Then(earlier, e) := t;
    if i == |Events(earlier)| {
      before := earlier;
    } else {
      before := PermittedAt(earlier, i);
    }
  }

  // ------------------------------------------------------------- main results

  /** Each Add is preceded, in this order, by the save that recorded a port and a
      health check, the link's latest Start on that port, an acknowledged save of its
      identity, a successful CheckUntil of that health check filled in with that
      port, and an acknowledged save as Healthy, with no Start or Stop of the link
      after that Start; and the route that is added leads to that port. */
  lemma {:induction false} NothingUnhealthyIsPublished(t: Trace, i: nat)
    returns (r: int, k: int, a: int, j: int, c: int)
    requires GateOK(t) && i < |Events(t)| && Events(t)[i].AddTried?
    ensures var es := Events(t);
      var link := es[i].route.linkID;
      && 0 <= r < k < a < j < c < i && es[k].Started? && SavedOK(es[r], link)
      && es[i].route.upstream == LocalUpstream(es[k].port)
      && PortOnRecord(es[..k], r, link, es[k].port, es[r].record.health)
      && LatestStart(es[..i], k, link, es[k].port, es[k].process)
      && NamingSave(es, a, link, es[k].process)
      && HealthyProbe(es, j, link, es[r].record.health, es[k].port)
      && HealthySave(es, c, link, es[k].process)
  {
    var before := PermittedAt(t, i);
    var w: Places;
    w, a := StartedMeaning(before, Events(t)[i].route.linkID);
    r, k, j, c := w.recorded, w.start, w.probe, w.confirmed;
    assert Events(before)[..k] == Events(t)[..k];
  }

  /** That probe tells the port the route leads to from every other port if and only
      if the record of the Start still held the placeholder. Otherwise the port that
      is published may never have been probed. */
  lemma {:induction false} PublishedPortWasProbedIff(t: Trace, i: nat) returns (r: int, k: int, j: int)
    requires GateOK(t) && i < |Events(t)| && Events(t)[i].AddTried?
    ensures var es := Events(t);
      var link, upstream := es[i].route.linkID, es[i].route.upstream;
      && 0 <= r < k < j < i && SavedOK(es[r], link) && es[k].Started?
      && PortOnRecord(es[..k], r, link, es[k].port, es[r].record.health)
      && LatestStart(es[..i], k, link, es[k].port, es[k].process)
      && HealthyProbe(es, j, link, es[r].record.health, es[k].port)
      && ((forall q: nat :: LocalUpstream(q) != upstream ==> ProbeURL(es[r].record.health, q) != es[j].url)
          <==> HasSlot(es[r].record.health))
  {
    var a, c: int;
    r, k, a, j, c := NothingUnhealthyIsPublished(t, i);
    var es := Events(t);
    ProbeIsOfOnePort(es[r].record.health, es[k].port);
    forall q: nat ensures LocalUpstream(q) == es[i].route.upstream <==> q == es[k].port {
      UpstreamNamesPort(q, es[k].port);
    }
  }

  /** Each Start is preceded by an acknowledged save of its port, the latest of
      that link, and then by giving the port back. */
  lemma {:induction false} NothingStartsUnrecorded(t: Trace, i: nat) returns (a: int, b: int)
    requires GateOK(t) && i < |Events(t)| && Events(t)[i].Started?
    ensures var es := Events(t);
      && 0 <= a < b < i && SavedOK(es[a], es[i].link)
      && PortOnRecord(es[..i], a, es[i].link, es[i].port, es[a].record.health)
      && es[b] == PortReleased(es[i].port, true)
  {
    var before := PermittedAt(t, i);
    var w := PreparedMeaning(before, Events(t)[i].link);
    a, b := w.prepared, w.released;
  }

  /** Each Stop is preceded by an attempt to remove the link's route, with no Add
      of the link in between. */
  lemma {:induction false} WithdrawnBeforeStopped(t: Trace, i: nat) returns (r: int)
    requires GateOK(t) && i < |Events(t)| && Events(t)[i].StopTried?
    ensures Withdrawal(Events(t)[..i], r, Events(t)[i].link)
  {
    var before := PermittedAt(t, i);
    var w := PreparedMeaning(before, Events(t)[i].link);
    r := w.removed;
  }
}
