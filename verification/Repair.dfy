/** What the periodic repair (internal/application/reconcile.go:18-69) establishes:
    the owned routes are exactly those of the links that were seen to be alive and
    healthy, and every other candidate is archived with its cleanup completed.
 */
module Repair {
  import opened Ports
  import opened Rows
  import opened Repository
  import opened HealthGate
  import opened CaddyAdmin
  import opened Environment
  import opened Agreement

  function Host(base: string, name: string, alias: string): string {
    if "-" <= base then name + "-" + alias + base else name + "-" + alias + "." + base
  }

  function RouteOf(base: string, sp: Space, l: Link): Route {
    Route(l.id, Host(base, l.name, sp.alias), LocalUpstream(l.port))
  }

  /** The network library accepts every loopback address the coordinator builds. */
  ghost predicate AcceptsLocal(loopback: LoopbackCheck) {
    forall p: nat :: 1 <= p <= MAX_PORT ==> loopback(LocalUpstream(p))
  }

  /** A record that may be published. */
  predicate Publishable(l: Link, at: int) {
    l.status == Active && !ExpiredAt(at, l.expiresAt) && l.process != "" && l.port != 0
  }

  /** The link's process was seen alive and passed its probe. */
  predicate Vouched(from: Trace, t: Trace, l: Link) {
    Since(from, t, AliveSeen(l.process, true)) && Since(from, t, Probed(l.id, ProbeURL(l.health, l.port), true))
  }

  /** `r` is the route of a stored link found fit. */
  ghost predicate Fit(base: string, w: Worlds, r: Route, at: int, t: Trace) {
    && Live(w.links, r.linkID) && w.links[r.linkID].link.space in w.spaces
    && var l := w.links[r.linkID].link;
       Publishable(l, at) && Vouched(w.o.trace, t, l) && r == RouteOf(base, w.spaces[l.space].space, l)
  }

  /** The links of `done` were looked at: those of `desired` are untouched and fit,
      the others archived with nothing of them left. */
  ghost predicate Vetted(base: string, w0: Worlds, done: set<LinkID>, desired: seq<Route>, at: int, w: Worlds) {
    && Swept(w0.links, w.links, done - LinksOf(desired), w.o)
    && DistinctLinks(desired) && LinksOf(desired) <= done
    && forall r | r in desired :: Fit(base, w0, r, at, w.o.trace)
  }

  lemma {:induction false} FitLater(base: string, w0: Worlds, desired: seq<Route>, at: int, t: Trace, later: Trace)
    requires forall r | r in desired :: Fit(base, w0, r, at, t)
    requires Extends(w0.o.trace, t) && Extends(t, later)
    ensures forall r | r in desired :: Fit(base, w0, r, at, later)
  {
    forall r | r in desired ensures Fit(base, w0, r, at, later) {
      var l := w0.links[r.linkID].link;
      SinceExtends(w0.o.trace, t, later, AliveSeen(l.process, true));
      SinceExtends(w0.o.trace, t, later, Probed(l.id, ProbeURL(l.health, l.port), true));
    }
  }

  /** One more link was found fit. */
  lemma {:induction false} VettedKeep(
    base: string, w0: Worlds, done: set<LinkID>, desired: seq<Route>, at: int, a: Worlds, b: Worlds, r: Route)
    requires Vetted(base, w0, done, desired, at, a) && r.linkID !in done
    requires Extends(w0.o.trace, a.o.trace) && Extends(a.o.trace, b.o.trace)
    requires b.links == a.links && b.o == a.o.(trace := b.o.trace)
    requires Fit(base, w0, r, at, b.o.trace)
    ensures Vetted(base, w0, done + {r.linkID}, desired + [r], at, b)
  {
    FitLater(base, w0, desired, at, a.o.trace, b.o.trace);
    assert LinksOf(desired + [r]) == LinksOf(desired) + {r.linkID};
    assert done + {r.linkID} - LinksOf(desired + [r]) == done - LinksOf(desired);
    assert forall i :: 0 <= i < |desired| ==> desired[i].linkID in LinksOf(desired);
  }

  /** One more link was archived. */
  lemma {:induction false} VettedDrop(
    base: string, w0: Worlds, done: set<LinkID>, desired: seq<Route>, at: int, a: Worlds, b: Worlds, id: LinkID)
    requires Vetted(base, w0, done, desired, at, a) && id !in done && id in w0.links
    requires forall x :: x in w0.links ==> w0.links[x].link.id == x
    requires Extends(w0.o.trace, a.o.trace)
    requires StepOf(id, a, b) && b.o.processes.Keys <= a.o.processes.Keys && b.o.reserved <= a.o.reserved
    requires b.links[id] == Tombstone(w0.links[id].link) && Retired(w0.links[id].link, b.o)
    ensures Vetted(base, w0, done + {id}, desired, at, b)
  {
    FitLater(base, w0, desired, at, a.o.trace, b.o.trace);
    SweptMore(w0.links, a, b, done - LinksOf(desired), id);
    assert done + {id} - LinksOf(desired) == done - LinksOf(desired) + {id};
  }

  /** What a repair that reports success has established at instant `at`. */
  ghost predicate Repaired(base: string, w0: Worlds, at: int, w: Worlds) {
    && (!w.o.degraded ==> RoutesRepaired(base, w0.o.trace, at, w))
    && forall id :: Live(w0.links, id) ==> id in w.links && Settled(w0.links[id], at, w.links[id], w.o)
  }

  /** The owned routes are exactly those of the live links that are Active,
      unexpired, have an identity and a port, and were just seen alive and healthy. */
  ghost predicate RoutesRepaired(base: string, from: Trace, at: int, w: Worlds) {
    && (forall id :: id in w.o.routes <==> Live(w.links, id) && Publishable(w.links[id].link, at))
    && forall id :: id in w.o.routes ==>
        var l := w.links[id].link;
        && l.space in w.spaces && w.o.routes[id] == RouteOf(base, w.spaces[l.space].space, l)
        && Vouched(from, w.o.trace, l)
  }

  /** A record either stays as it was, and then it is fit or was no candidate, or
      is archived with its cleanup completed. */
  ghost predicate Settled(before: LinkRow, at: int, row: LinkRow, o: Outside) {
    || (row == before && (Candidate(row.link, at) ==> Publishable(row.link, at)))
    || (row == Tombstone(before.link) && Retired(before.link, o))
  }

  predicate Candidate(l: Link, at: int) {
    !ExpiredAt(at, l.expiresAt) && l.status != Deleted && l.status != Expired
  }

  /** The last step: the proxy took the list of fit routes. */
  lemma {:induction false} RoutesPublished(
    base: string, w0: Worlds, w1: Worlds, desired: seq<Route>, at: int, w2: Worlds, w: Worlds)
    requires Extends(w0.o.trace, w1.o.trace) && Extends(w1.o.trace, w2.o.trace) && Extends(w2.o.trace, w.o.trace)
    requires Vetted(base, w1, CandidatesIn(w1.links, at), desired, at, w2) && w2.spaces == w1.spaces
    requires w.links == w2.links && w.spaces == w2.spaces && Tabulates(w.o.routes, desired)
    ensures RoutesRepaired(base, w0.o.trace, at, w)
  {
    FitLater(base, w1, desired, at, w2.o.trace, w.o.trace);
    ExtendsTransitive(w1.o.trace, w2.o.trace, w.o.trace);
    forall id | id in w.o.routes
      ensures Live(w.links, id) && Publishable(w.links[id].link, at)
      ensures w.links[id].link.space in w.spaces
      ensures w.o.routes[id] == RouteOf(base, w.spaces[w.links[id].link.space].space, w.links[id].link)
      ensures Vouched(w0.o.trace, w.o.trace, w.links[id].link)
    {
      var r :| r in desired && r.linkID == id;
      assert Fit(base, w1, r, at, w.o.trace);
      var l := w1.links[id].link;
      SinceEarlier(w0.o.trace, w1.o.trace, w.o.trace, AliveSeen(l.process, true));
      SinceEarlier(w0.o.trace, w1.o.trace, w.o.trace, Probed(l.id, ProbeURL(l.health, l.port), true));
    }
    forall id | Live(w.links, id) && Publishable(w.links[id].link, at) ensures id in w.o.routes {
      assert id in LinksOf(desired) <==> id in CandidatesIn(w1.links, at);
    }
  }

  /** Every record is settled by the cleanup, the vetting or neither. */
  lemma {:induction false} RowsSettled(
    base: string, w0: Worlds, expired: set<LinkID>, w1: Worlds, desired: seq<Route>, at: int, w2: Worlds, w: Worlds)
    requires forall x :: x in w0.links ==> w0.links[x].link.id == x
    requires Swept(w0.links, w1.links, expired, w1.o)
    requires Vetted(base, w1, CandidatesIn(w1.links, at), desired, at, w2)
    requires w2.o.processes.Keys <= w1.o.processes.Keys && w2.o.reserved <= w1.o.reserved
    requires w.links == w2.links && w.o.processes == w2.o.processes && w.o.reserved == w2.o.reserved
    requires !w.o.degraded ==> Tabulates(w.o.routes, desired)
    ensures forall id :: Live(w0.links, id) ==> id in w.links && Settled(w0.links[id], at, w.links[id], w.o)
  {
    forall r | r in desired ensures r.linkID in w1.links && Live(w1.links, r.linkID) && Publishable(w1.links[r.linkID].link, at) {
      assert Fit(base, w1, r, at, w2.o.trace);
    }
    forall id | Live(w0.links, id) ensures id in w.links && Settled(w0.links[id], at, w.links[id], w.o) {
      if id in expired {
        assert id !in CandidatesIn(w1.links, at);
        assert !w.o.degraded ==> id !in LinksOf(desired);
      } else if id in LinksOf(desired) {
        assert w.links[id] == w0.links[id];
      }
    }
  }

  lemma {:induction false} HostIsNotBlank(base: string, name: string, alias: string)
    ensures !Blank(Host(base, name, alias))
  {
    var h := Host(base, name, alias);
    assert h[|name|] == '-';
    assert !IsSpace(h[|name|]);
  }

  /** The proxy never refuses the list as invalid or duplicate. */
  lemma {:induction false} FitIsAdmissible(
    base: string, w: Worlds, desired: seq<Route>, at: int, t: Trace, loopback: LoopbackCheck)
    requires RowsOK(w.spaces, w.links) && Sound(w.links, w.o) && AcceptsLocal(loopback)
    requires DistinctLinks(desired) && forall r | r in desired :: Fit(base, w, r, at, t)
    ensures Admissible(desired, loopback)
  {
    forall r | r in desired ensures ValidRoute(r, loopback) {
      assert Fit(base, w, r, at, t);
      var l := w.links[r.linkID].link;
      assert RowSound(l, w.o);
      HostIsNotBlank(base, l.name, w.spaces[l.space].space.alias);
    }
  }

  /** Fit now is fit for the whole vetting. */
  lemma {:induction false} FitSince(base: string, w0: Worlds, w: Worlds, r: Route, at: int, t: Trace)
    requires Fit(base, w, r, at, t) && Extends(w0.o.trace, w.o.trace) && Extends(w.o.trace, t)
    requires r.linkID in w0.links && w.links[r.linkID] == w0.links[r.linkID] && w.spaces == w0.spaces
    ensures Fit(base, w0, r, at, t)
  {
    var l := w.links[r.linkID].link;
    SinceEarlier(w0.o.trace, w.o.trace, t, AliveSeen(l.process, true));
    SinceEarlier(w0.o.trace, w.o.trace, t, Probed(l.id, ProbeURL(l.health, l.port), true));
  }

  /** The next candidate is untouched so far. */
  lemma {:induction false} NextCandidate(
    base: string, w0: Worlds, batch: seq<Link>, i: nat, ids: set<LinkID>, desired: seq<Route>, at: int, w: Worlds)
    requires i < |batch| && Enumerates(batch, ids, w0.links) && AllLive(ids, w0.links)
    requires Vetted(base, w0, LinkIDs(batch[..i]), desired, at, w)
    ensures batch[i].id !in LinkIDs(batch[..i]) && batch[i].id in ids
    ensures LinkIDs(batch[..i + 1]) == LinkIDs(batch[..i]) + {batch[i].id}
    ensures Live(w.links, batch[i].id) && w.links[batch[i].id] == w0.links[batch[i].id]
    ensures w.links[batch[i].id].link == batch[i]
  {
    NextID(batch, i, ids, w0.links);
  }

  lemma {:induction false} VettedLive(
    base: string, w0: Worlds, done: set<LinkID>, desired: seq<Route>, at: int, w: Worlds)
    requires Vetted(base, w0, done, desired, at, w)
    ensures forall r | r in desired :: Live(w.links, r.linkID)
  {
    forall r | r in desired ensures Live(w.links, r.linkID) {
      assert Fit(base, w0, r, at, w.o.trace);
      assert r.linkID in LinksOf(desired);
    }
  }
}
