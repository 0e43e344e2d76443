/** What the coordinator keeps in agreement: the persisted links, the owned
    routes and the running processes, as values; how one step may change them;
    and what a completed or a failed compensation leaves behind.
 */
module Agreement {
  import opened Ports
  import opened Rows
  import opened Repository
  import opened HealthGate
  import opened Environment

  /** The database and everything behind the ports. */
  datatype Worlds = Worlds(spaces: SpaceRows, links: LinkRows, faults: nat, lostSaves: nat, clock: int, o: Outside)

  // ------------------------------------------------------------ invariants

  /** A record's port is a port and its identity was issued for it. */
  ghost predicate RowSound(l: Link, o: Outside) {
    l.port <= MAX_PORT && (l.process == "" || (l.process in o.issued && o.issued[l.process] == l.id))
  }

  /** Holds at every boundary, whatever failed. */
  ghost predicate Sound(links: LinkRows, o: Outside) {
    && GateOK(o.trace)
    && (forall id :: id in links ==> RowSound(links[id].link, o))
    && (forall p :: p in o.processes ==> o.processes[p] in links)
  }

  /** Every owned route belongs to a live record. */
  ghost predicate RoutesOwned(links: LinkRows, routes: RouteTable) {
    forall id :: id in routes ==> Live(links, id)
  }

  predicate Named(links: LinkRows, processes: map<string, LinkID>, p: string)
    requires p in processes
  {
    Live(links, processes[p]) && links[processes[p]].link.process == p
  }

  /** The three worlds agree, as far as the proxy and the database kept their
      word: every owned route belongs to a live record, and every running process
      is named by one. */
  ghost predicate Agree(links: LinkRows, lostSaves: nat, o: Outside) {
    && (!o.degraded ==> RoutesOwned(links, o.routes))
    && (lostSaves == 0 ==> forall p :: p in o.processes ==> Named(links, o.processes, p))
  }

  /** The same while the record of `id` is being replaced by one that names `process`. */
  ghost predicate AgreeBut(id: LinkID, process: string, links: LinkRows, lostSaves: nat, o: Outside) {
    && (!o.degraded ==> RoutesOwned(links, o.routes))
    && (lostSaves == 0 ==> forall p :: p in o.processes ==>
          if o.processes[p] == id then p == process else Named(links, o.processes, p))
  }

  ghost predicate NoProcessOf(processes: map<string, LinkID>, id: LinkID) {
    forall p :: p in processes ==> processes[p] != id
  }

  /** No process of the link is running, as far as the database kept its word. */
  ghost predicate Idle(id: LinkID, lostSaves: nat, o: Outside) {
    lostSaves == 0 ==> NoProcessOf(o.processes, id)
  }

  /** The link has an owned route, in an array that is not broken. */
  predicate Published(id: LinkID, o: Outside) {
    !o.degraded && id in o.routes
  }

  /** Nothing of the link is left outside the database. */
  ghost predicate Clean(id: LinkID, lostSaves: nat, o: Outside) {
    !Published(id, o) && Idle(id, lostSaves, o)
  }

  /** The route, process and port of a retired record are gone. */
  ghost predicate Retired(l: Link, o: Outside) {
    (!o.degraded ==> l.id !in o.routes) && l.process !in o.processes && l.port !in o.reserved
  }

  /** Exactly one link's route, one process and one reservation were taken away. */
  ghost predicate TakenAway(id: LinkID, process: string, port: nat, a: Outside, b: Outside) {
    && (!b.degraded ==> b.routes == a.routes - {id})
    && b.processes == a.processes - {process} && b.reserved == a.reserved - {port}
  }

  // ----------------------------------------------------------------- steps

  /** Nothing is forgotten: rows only evolve, faults and time only grow, and the
      trace is only extended. */
  ghost predicate Onward(a: Worlds, b: Worlds) {
    && LinksEvolve(a.links, b.links) && SpacesEvolve(a.spaces, b.spaces)
    && a.faults <= b.faults && a.lostSaves <= b.lostSaves && a.clock <= b.clock
    && Extends(a.o.trace, b.o.trace)
  }

  /** Routes and processes of all other links are untouched. */
  ghost predicate OthersKept(id: LinkID, a: Outside, b: Outside) {
    && b.degraded == a.degraded
    && (!a.degraded ==> b.routes - {id} == a.routes - {id})
    && (forall p :: p in a.processes && a.processes[p] != id ==> p in b.processes && b.processes[p] == a.processes[p])
    && (forall p :: p in b.processes && b.processes[p] != id ==> p in a.processes && b.processes[p] == a.processes[p])
    && (forall p :: p in a.issued ==> p in b.issued && b.issued[p] == a.issued[p])
  }

  /** Running processes of the link that its record does not name, other than
      `process`, run on without being named. */
  ghost predicate StraysStay(id: LinkID, process: string, a: Worlds, b: Worlds) {
    forall p :: Stray(id, p, a) && p != process ==> Stray(id, p, b)
  }

  ghost predicate Stray(id: LinkID, p: string, w: Worlds) {
    p in w.o.processes && w.o.processes[p] == id && id in w.links && w.links[id].link.process != p
  }

  /** At most `process` was stopped, and the record names nothing new but `process`. */
  lemma {:induction false} StraysKept(id: LinkID, process: string, a: Worlds, b: Worlds)
    requires id in a.links && id in b.links && "" !in a.o.processes
    requires b.links[id].link.process in {"", process, a.links[id].link.process}
    requires b.o.processes == a.o.processes || b.o.processes == a.o.processes - {process}
    ensures StraysStay(id, process, a, b)
  {
  }

  lemma {:induction false} StrayDisagrees(id: LinkID, p: string, w: Worlds)
    requires Stray(id, p, w) && w.lostSaves == 0
    ensures !Agree(w.links, w.lostSaves, w.o)
  {
    assert !Named(w.links, w.o.processes, p);
  }

  /** A link that agrees and whose recorded identity is dropped, some process running on. */
  lemma {:induction false} Forgotten(id: LinkID, a: Worlds, w: Worlds, b: Worlds)
    requires Agree(a.links, a.lostSaves, a.o) && !Idle(id, a.lostSaves, a.o) && a.lostSaves <= w.lostSaves <= b.lostSaves
    requires w.o.processes == a.o.processes && "" !in a.o.processes && id in w.links
    requires w.lostSaves == 0 ==> w.links[id].link.process == ""
    requires StraysStay(id, "", w, b)
    ensures b.lostSaves == 0 ==> !Agree(b.links, b.lostSaves, b.o)
  {
    if b.lostSaves == 0 {
      var p :| p in a.o.processes && a.o.processes[p] == id;
      assert Stray(id, p, w);
      StrayDisagrees(id, p, b);
    }
  }

  /** A step on behalf of one link. */
  ghost predicate StepOf(id: LinkID, a: Worlds, b: Worlds) {
    Onward(a, b) && b.spaces == a.spaces && OnlyRow(a.links, b.links, id) && OthersKept(id, a.o, b.o)
  }

  lemma {:induction false} OnwardTransitive(a: Worlds, b: Worlds, c: Worlds)
    requires Onward(a, b) && Onward(b, c)
    ensures Onward(a, c)
  {
    ExtendsTransitive(a.o.trace, b.o.trace, c.o.trace);
    EvolveTransitive(a.links, b.links, c.links);
  }

  lemma {:induction false} StepTransitive(id: LinkID, a: Worlds, b: Worlds, c: Worlds)
    requires StepOf(id, a, b) && StepOf(id, b, c)
    ensures StepOf(id, a, c)
  {
    OnwardTransitive(a, b, c);
    if !a.o.degraded {
      calc {
        c.o.routes - {id};
        b.o.routes - {id};
        a.o.routes - {id};
      }
    }
  }

  /** A step that touches neither rows nor any other link's outside state. */
  lemma {:induction false} OutsideStep(id: LinkID, a: Worlds, b: Worlds)
    requires b.spaces == a.spaces && b.links == a.links
    requires a.faults <= b.faults && a.lostSaves <= b.lostSaves && a.clock <= b.clock
    requires OthersKept(id, a.o, b.o) && Extends(a.o.trace, b.o.trace)
    ensures StepOf(id, a, b)
  {
  }

  /** A step that archives spaces only. */
  lemma {:induction false} SpacesStep(a: Worlds, b: Worlds)
    requires SpacesEvolve(a.spaces, b.spaces) && b.links == a.links
    requires a.faults <= b.faults && a.lostSaves <= b.lostSaves && a.clock <= b.clock && b.o == a.o
    ensures Onward(a, b)
  {
  }

  // ------------------------------------------------------- effects on Sound

  lemma {:induction false} SoundSaved(links: LinkRows, l: Link, o: Outside)
    requires Sound(links, o) && Live(links, l.id) && RowSound(l, o)
    ensures Sound(Saved(links, l), o)
  {
  }

  /** An attempt to save a record, acknowledged or not, applied or not. */
  lemma {:induction false} SoundRecorded(links: LinkRows, l: Link, ok: bool, after: LinkRows, a: Outside, b: Outside)
    requires Sound(links, a) && Live(links, l.id) && RowSound(l, a)
    requires after == links || after == Saved(links, l)
    requires b == a.(trace := Then(a.trace, SaveTried(l, ok)))
    ensures Sound(after, b)
  {
    SoundSaved(links, l, a);
    SoundOutside(after, a, b);
  }

  lemma {:induction false} SoundArchived(links: LinkRows, id: LinkID, o: Outside)
    requires Sound(links, o) && id in links
    ensures Sound(Archived(links, id), o)
  {
  }

  lemma {:induction false} SoundOutside(links: LinkRows, a: Outside, b: Outside)
    requires Sound(links, a) && GateOK(b.trace)
    requires forall p :: p in a.issued ==> p in b.issued && b.issued[p] == a.issued[p]
    requires forall p :: p in b.processes ==> b.processes[p] in links
    ensures Sound(links, b)
  {
    forall id | id in links ensures RowSound(links[id].link, b) {
      assert RowSound(links[id].link, a);
    }
  }

  // ------------------------------------------------------- effects on Agree

  lemma {:induction false} AgreeOwn(l: Link, links: LinkRows, lost: nat, o: Outside)
    requires Agree(links, lost, o) && Live(links, l.id) && links[l.id].link.process == l.process
    ensures AgreeBut(l.id, l.process, links, lost, o)
  {
  }

  /** A link none of whose processes is running may be given any record. */
  lemma {:induction false} AgreeIdle(id: LinkID, process: string, links: LinkRows, lost: nat, o: Outside)
    ensures Agree(links, lost, o) && Idle(id, lost, o) ==> AgreeBut(id, process, links, lost, o)
  {
  }

  lemma {:induction false} AgreeButClean(id: LinkID, p: string, q: string, links: LinkRows, lost: nat, o: Outside)
    requires AgreeBut(id, p, links, lost, o) && Clean(id, lost, o)
    ensures AgreeBut(id, q, links, lost, o)
  {
  }

  /** Starting the process of a link that had none. */
  lemma {:induction false} StartedAgrees(id: LinkID, p: string, links: LinkRows, lost: nat, a: Outside, b: Outside)
    requires AgreeBut(id, "", links, lost, a) && "" !in a.processes
    requires b.routes == a.routes && b.degraded == a.degraded && b.processes == a.processes[p := id]
    requires p !in a.processes
    ensures AgreeBut(id, p, links, lost, b)
  {
  }

  /** Saving the record settles the replacement, whether or not the save was
      acknowledged: an unacknowledged one is a lost save. */
  lemma {:induction false} SavedAgrees(
    l: Link, links: LinkRows, lost: nat, after: LinkRows, lost': nat, a: Outside, b: Outside)
    requires AgreeBut(l.id, l.process, links, lost, a) && Live(links, l.id) && lost <= lost'
    requires after == Saved(links, l) || (after == links && lost' > 0)
    requires b.routes == a.routes && b.processes == a.processes && b.degraded == a.degraded
    ensures Agree(after, lost', b)
    ensures AgreeBut(l.id, l.process, after, lost', b)
  {
  }

  /** Saving a record that may take the place of its own, as a step. */
  lemma {:induction false} RecordStep(l: Link, ok: bool, a: Worlds, b: Worlds)
    requires RowsOK(a.spaces, a.links) && Sound(a.links, a.o) && RowSound(l, a.o)
    requires Live(a.links, l.id) && SameName(a.links[l.id], LinkRow(l, false)) && l.expiresAt == a.links[l.id].link.expiresAt
    requires b.spaces == a.spaces && b.clock == a.clock && a.faults <= b.faults && a.lostSaves <= b.lostSaves
    requires b.links == Saved(a.links, l) || (b.links == a.links && !ok && b.lostSaves > 0)
    requires b.o == a.o.(trace := Then(a.o.trace, SaveTried(l, ok)))
    ensures RowsOK(b.spaces, b.links) && Sound(b.links, b.o) && StepOf(l.id, a, b) && Live(b.links, l.id)
    ensures b.links[l.id] == LinkRow(l, false) || (!ok && b.links[l.id] == a.links[l.id])
  {
    SoundRecorded(a.links, l, ok, b.links, a.o, b.o);
    SavedKeeps(a.spaces, a.links, l);
  }

  lemma {:induction false} RecordAgrees(l: Link, ok: bool, a: Worlds, b: Worlds)
    requires Live(a.links, l.id) && a.lostSaves <= b.lostSaves
    requires b.links == Saved(a.links, l) || (b.links == a.links && !ok && b.lostSaves > 0)
    requires b.o == a.o.(trace := Then(a.o.trace, SaveTried(l, ok)))
    ensures AgreeBut(l.id, l.process, a.links, a.lostSaves, a.o) ==>
      Agree(b.links, b.lostSaves, b.o) && AgreeBut(l.id, l.process, b.links, b.lostSaves, b.o)
  {
    if AgreeBut(l.id, l.process, a.links, a.lostSaves, a.o) {
      SavedAgrees(l, a.links, a.lostSaves, b.links, b.lostSaves, a.o, b.o);
    }
  }

  /** A call on behalf of a link that leaves rows, routes and processes alone. */
  lemma {:induction false} QuietStep(id: LinkID, process: string, a: Worlds, b: Worlds)
    requires Sound(a.links, a.o) && GateOK(b.o.trace) && Extends(a.o.trace, b.o.trace)
    requires b == a.(clock := b.clock, o := b.o) && b.o == a.o.(trace := b.o.trace) && a.clock <= b.clock
    ensures Sound(b.links, b.o) && StepOf(id, a, b)
    ensures AgreeBut(id, process, a.links, a.lostSaves, a.o) ==> AgreeBut(id, process, b.links, b.lostSaves, b.o)
  {
    SoundOutside(a.links, a.o, b.o);
  }

  /** Archiving the record of a link without a process keeps the agreement if and
      only if the link has no route. */
  lemma {:induction false} ArchivedAgrees(id: LinkID, links: LinkRows, lost: nat, o: Outside)
    requires Agree(links, lost, o) && Live(links, id) && Idle(id, lost, o)
    ensures Agree(Archived(links, id), lost, o) <==> !Published(id, o)
  {
    assert !Live(Archived(links, id), id);
  }

  /** The smallest case where it does not: a link crashed, its route still published.
      Its restart drops the recorded identity, which keeps the agreement; a start that
      then finds the link expired archives the record and leaves the route
      (internal/application/service.go:341-343, 767-775). */
  lemma {:induction false} ExpiredStartLeavesARoute(l: Link, r: Route, o: Outside)
    requires !o.degraded && o.routes == map[l.id := r] && o.processes == map[]
    ensures var links := map[l.id := LinkRow(l, false)];
      var renewed := Saved(links, l.(status := Creating, process := "", port := 0));
      Agree(links, 0, o) && Agree(renewed, 0, o) && !Agree(Archived(renewed, l.id), 0, o)
  {
    var renewed := Saved(map[l.id := LinkRow(l, false)], l.(status := Creating, process := "", port := 0));
    ArchivedAgrees(l.id, renewed, 0, o);
  }

  /** Inserting a record, as a step. */
  lemma {:induction false} InsertStep(l: Link, a: Worlds, b: Worlds)
    requires Sound(a.links, a.o) && RowSound(l, a.o)
    requires b == a.(links := b.links, faults := b.faults, clock := b.clock) && LinksEvolve(a.links, b.links)
    requires a.faults <= b.faults && a.clock <= b.clock
    requires b.links == a.links || (l.id !in a.links && b.links == a.links[l.id := LinkRow(l, false)])
    ensures Sound(b.links, b.o) && Onward(a, b)
    ensures Agree(a.links, a.lostSaves, a.o) ==> Agree(b.links, b.lostSaves, b.o)
    ensures Agree(a.links, a.lostSaves, a.o) && l.id !in a.links ==> Clean(l.id, b.lostSaves, b.o)
  {
    if Agree(a.links, a.lostSaves, a.o) && l.id !in a.links {
      InsertedAgrees(l, a.links, a.lostSaves, a.o);
    }
  }

  lemma {:induction false} InsertedAgrees(l: Link, links: LinkRows, lost: nat, o: Outside)
    requires Agree(links, lost, o) && l.id !in links && Sound(links, o)
    ensures Agree(links[l.id := LinkRow(l, false)], lost, o)
    ensures Clean(l.id, lost, o)
  {
  }

  /** Dropping the recorded identity of a link, as an automatic restart does
      (internal/application/service.go:767-770), keeps every process named if and
      only if that process is no longer running. */
  lemma {:induction false} ForgettingNeedsAnExitedProcess(l: Link, links: LinkRows, o: Outside)
    requires Agree(links, 0, o) && Live(links, l.id) && links[l.id].link == l
    requires "" !in o.processes && forall p :: p in o.processes && p == l.process ==> o.processes[p] == l.id
    ensures Agree(Saved(links, l.(process := "", port := 0)), 0, o) <==> l.process !in o.processes
  {
    var after := Saved(links, l.(process := "", port := 0));
    if l.process !in o.processes {
      assert forall p :: p in o.processes && o.processes[p] == l.id ==> Named(links, o.processes, p);
    } else {
      assert !Named(after, o.processes, l.process);
    }
  }

  /** Replacing the record of a link by a copy without identity, as planning a
      further restart from a stale copy does (internal/application/service.go:777-806),
      keeps every process named if and only if no process of the link is running. */
  lemma {:induction false} StaleCopyDropsIdentity(stale: Link, links: LinkRows, o: Outside)
    requires Agree(links, 0, o) && Live(links, stale.id) && stale.process == "" && "" !in o.processes
    ensures Agree(Saved(links, stale), 0, o) <==> NoProcessOf(o.processes, stale.id)
  {
    var after := Saved(links, stale);
    if p :| p in o.processes && o.processes[p] == stale.id {
      assert !Named(after, o.processes, p);
    } else {
      forall p | p in o.processes ensures Named(after, o.processes, p) {
        assert Named(links, o.processes, p);
      }
    }
  }

  /** The smallest such case: a start whose Stop failed, its record still naming
      the process, overwritten by the copy made before that start. */
  lemma {:induction false} StaleCopyLosesAProcess(l: Link, o: Outside)
    requires l.process != "" && o.routes == map[] && o.processes == map[l.process := l.id]
    ensures Agree(map[l.id := LinkRow(l, false)], 0, o)
    ensures !Agree(Saved(map[l.id := LinkRow(l, false)], l.(process := "", port := 0)), 0, o)
  {
    assert !NoProcessOf(o.processes, l.id) by {
      assert l.process in o.processes;
    }
    StaleCopyDropsIdentity(l.(process := "", port := 0), map[l.id := LinkRow(l, false)], o);
  }

  /** A list of routes of live links was sent to the proxy. */
  lemma {:induction false} PublicizedAgrees(
    links: LinkRows, lost: nat, a: Outside, desired: seq<Route>, err: Option<ProxyError>, b: Outside)
    requires Agree(links, lost, a) && forall r | r in desired :: Live(links, r.linkID)
    requires b.processes == a.processes
    requires !a.degraded ==> ReconcileOutcome(a.routes, desired, err, b.routes)
    requires err.None? && !b.degraded ==> Tabulates(b.routes, desired)
    requires err.Some? && a.degraded ==> b.degraded
    ensures Agree(links, lost, b)
    ensures !a.degraded ==> RoutesOwned(links, b.routes)
  {
    forall id | id in LinksOf(desired) ensures Live(links, id) {
    }
  }

  /** A running process that no record names. */
  lemma {:induction false} Unnamed(links: LinkRows, lost: nat, o: Outside, id: LinkID)
    requires lost == 0 && "" !in o.processes && !NoProcessOf(o.processes, id)
    requires id in links && links[id].link.process == ""
    ensures !Agree(links, lost, o)
  {
    var p :| p in o.processes && o.processes[p] == id;
    assert !Named(links, o.processes, p);
  }

  /** Writing a record without identity breaks the agreement if and only if the save
      was not lost, changed the record, and a process of the link is running. */
  lemma {:induction false} Overwritten(id: LinkID, a: Worlds, b: Worlds)
    requires Agree(a.links, a.lostSaves, a.o) && StepOf(id, a, b) && id in a.links && "" !in a.o.processes
    requires b.o == a.o.(trace := b.o.trace)
    requires b.links[id] == a.links[id] ||
             (!a.links[id].deleted && !b.links[id].deleted && b.links[id].link.process == "")
    ensures Agree(b.links, b.lostSaves, b.o) <==>
            !(b.lostSaves == 0 && b.links[id] != a.links[id] && !NoProcessOf(b.o.processes, id))
  {
    if b.links[id] == a.links[id] {
      assert b.links == a.links;
    } else if b.lostSaves == 0 && !NoProcessOf(b.o.processes, id) {
      Unnamed(b.links, b.lostSaves, b.o, id);
    }
  }

  // ------------------------------------------------- how a restart may fail it

  /** What a restart that goes off may do to the agreement: keep it; go off while a
      process of the link is running; archive the expired link and leave its route;
      or save a stale copy over the identity of a process that is running. */
  datatype Lapse = Kept | Running(id: LinkID) | Orphaned(id: LinkID) | Dropped(id: LinkID)

  /** The record was archived while its route was published. */
  ghost predicate OrphanedBy(id: LinkID, a: Worlds, b: Worlds) {
    Published(id, a.o) && id in b.links && b.links[id].deleted
  }

  /** Since `mid` the database failed to answer, a process of the link is running,
      and its record was nevertheless replaced. */
  ghost predicate DroppedFrom(id: LinkID, mid: Worlds, b: Worlds) {
    && b.faults > mid.faults && !NoProcessOf(b.o.processes, id) && b.lostSaves == 0
    && id in mid.links && id in b.links && b.links[id] != mid.links[id]
  }

  /** The lapse of a restart of `id` that went off in `a`, whose start had returned in
      `mid`, and that ended in `b`. */
  ghost function LapseOf(id: LinkID, a: Worlds, mid: Worlds, b: Worlds): Lapse {
    if !Idle(id, a.lostSaves, a.o) then Running(id)
    else if OrphanedBy(id, a, b) then Orphaned(id)
    else if DroppedFrom(id, mid, b) then Dropped(id)
    else Kept
  }

  /** One restart that lapsed. */
  datatype Fired = Fired(before: Worlds, mid: Worlds, after: Worlds, lapse: Lapse)

  ghost predicate Lapsed(f: Fired) {
    && !f.lapse.Kept? && f.lapse == LapseOf(f.lapse.id, f.before, f.mid, f.after)
    && Live(f.before.links, f.lapse.id) && f.before.links[f.lapse.id].link.nextRestartAt <= f.after.clock
    && (f.lapse.Orphaned? ==> ExpiredAt(f.after.clock, f.before.links[f.lapse.id].link.expiresAt))
    && Onward(f.before, f.mid) && Onward(f.mid, f.after)
  }

  ghost predicate Agrees(w: Worlds) {
    Agree(w.links, w.lostSaves, w.o)
  }

  /** A restart of `id` went off. */
  lemma {:induction false} Fires(id: LinkID, a: Worlds, mid: Worlds, b: Worlds) returns (lapse: Lapse)
    requires Live(a.links, id) && a.links[id].link.nextRestartAt <= b.clock && Onward(a, mid) && Onward(mid, b)
    requires id in b.links && (b.links[id].deleted ==> ExpiredAt(b.clock, a.links[id].link.expiresAt))
    requires Agrees(a) ==>
      if Idle(id, a.lostSaves, a.o) then Agrees(b) <==> LapseOf(id, a, mid, b) == Kept else b.lostSaves == 0 ==> !Agrees(b)
    ensures lapse.Kept? || (lapse.id == id && Lapsed(Fired(a, mid, b, lapse)))
    ensures Agrees(a) && lapse.Kept? ==> Agrees(b)
    ensures Agrees(a) && !lapse.Kept? ==> !Agrees(b) || Unseen(lapse, b)
  {
    lapse := LapseOf(id, a, mid, b);
  }

  /** As seen from before the clock was read. */
  lemma {:induction false} LapsedEarlier(a: Worlds, w: Worlds, mid: Worlds, b: Worlds, lapse: Lapse)
    requires Onward(a, w) && w == a.(clock := w.clock) && Onward(w, mid)
    ensures Onward(a, mid)
    ensures !lapse.Kept? && Lapsed(Fired(w, mid, b, lapse)) ==> Lapsed(Fired(a, mid, b, lapse))
  {
    OnwardTransitive(a, w, mid);
  }

  /** Recording the link anew, before it is started, is part of its restart. */
  lemma {:induction false} RetriedFrom(id: LinkID, a: Worlds, w: Worlds, mid: Worlds, b: Worlds)
    requires StepOf(id, a, w) && StepOf(id, w, b) && Onward(w, mid) && w.o == a.o.(trace := w.o.trace)
    ensures StepOf(id, a, b) && Onward(a, mid)
    ensures OrphanedBy(id, a, b) == OrphanedBy(id, w, b)
  {
    StepTransitive(id, a, w, b);
    OnwardTransitive(a, w, mid);
  }

  /** When the process that a record names has exited, none of its link is running. */
  lemma {:induction false} CrashedIsIdle(l: Link, links: LinkRows, lost: nat, a: Outside, b: Outside)
    requires Agree(links, lost, a) && Live(links, l.id) && links[l.id].link == l
    requires b.processes == a.processes - {l.process}
    ensures Idle(l.id, lost, b)
  {
  }

  /** A process was forgotten, but once a save was lost nothing is claimed of processes. */
  predicate Unseen(lapse: Lapse, w: Worlds) {
    lapse.Running? && w.lostSaves > 0
  }

  /** It found the worlds in agreement and left them without. */
  ghost predicate Breaks(f: Fired) {
    Agrees(f.before) && (!Agrees(f.after) || Unseen(f.lapse, f.after))
  }

  /** The lapses lie within a run from `a` to `b`. */
  ghost predicate Within(lapses: seq<Fired>, a: Worlds, b: Worlds) {
    forall f :: f in lapses ==> Lapsed(f) && Onward(a, f.before) && Onward(f.after, b)
  }

  lemma {:induction false} WithinMore(lapses: seq<Fired>, a: Worlds, f: Fired)
    requires Within(lapses, a, f.before) && Onward(a, f.before) && Onward(f.before, f.after) && Lapsed(f)
    ensures Within(lapses + [f], a, f.after)
  {
    WithinLonger(lapses, a, f.before, f.after);
  }

  lemma {:induction false} WithinLonger(lapses: seq<Fired>, a: Worlds, b: Worlds, c: Worlds)
    requires Within(lapses, a, b) && Onward(b, c)
    ensures Within(lapses, a, c)
  {
    forall f | f in lapses ensures Lapsed(f) && Onward(a, f.before) && Onward(f.after, c) {
      OnwardTransitive(f.after, b, c);
    }
  }

  // --------------------------------------------------------- compensation

  /** The trace after compensation step `k`: route, then process, then port. */
  function StepCall(t: Trace, l: Link, port: nat, k: nat, ok: bool): Trace {
    if k == 0 then Then(t, RemoveTried(l.id, ok))
    else if k == 1 then (if l.process == "" then t else Then(t, StopTried(l.id, l.process, ok)))
    else (if port == 0 then t else Then(t, PortReleased(port, ok)))
  }

  /** What compensator `k` does, having answered `ok`. */
  ghost predicate StepDone(l: Link, port: nat, k: nat, ok: bool, a: Outside, b: Outside) {
    && b.degraded == a.degraded && b.issued == a.issued
    && b.trace == StepCall(a.trace, l, port, k, ok)
    && (if k == 0
        then !a.degraded ==> b.routes == a.routes - {l.id} || (!ok && b.routes == a.routes)
        else b.routes == a.routes)
    && (if k == 1 && l.process != ""
        then b.processes == a.processes - {l.process} || (!ok && b.processes == a.processes)
        else b.processes == a.processes)
    && (if k == 2 && port != 0
        then b.reserved == a.reserved - {port} || (!ok && b.reserved == a.reserved)
        else b.reserved == a.reserved)
  }

  /** The trace after the first |ok| compensators, each present one called exactly once, in order. */
  function Calls(t: Trace, l: Link, port: nat, ok: seq<bool>): (r: Trace)
    ensures Extends(t, r)
  {
    var t1 := if |ok| < 1 then t else StepCall(t, l, port, 0, ok[0]);
    var t2 := if |ok| < 2 then t1 else StepCall(t1, l, port, 1, ok[1]);
    assert Extends(t, t1) && Extends(t, t2);
    if |ok| < 3 then t2 else StepCall(t2, l, port, 2, ok[2])
  }

  /** What the first |ok| compensators have done. */
  ghost predicate Undone(l: Link, port: nat, ok: seq<bool>, a: Outside, b: Outside) {
    && b.degraded == a.degraded && b.issued == a.issued
    && b.trace == Calls(a.trace, l, port, ok)
    && (if |ok| < 1 then b.routes == a.routes
        else !a.degraded ==> b.routes == a.routes - {l.id} || (!ok[0] && b.routes == a.routes))
    && (if |ok| < 2 then b.processes == a.processes
        else b.processes == a.processes - {l.process} || (!ok[1] && b.processes == a.processes))
    && (if |ok| < 3 then b.reserved == a.reserved
        else b.reserved == a.reserved - {port} || (!ok[2] && b.reserved == a.reserved))
  }

  predicate AllTrue(ok: seq<bool>) {
    forall i :: 0 <= i < |ok| ==> ok[i]
  }

  lemma {:induction false} UndoneMore(l: Link, port: nat, ok: seq<bool>, more: bool, a: Outside, b: Outside, c: Outside)
    requires |ok| < 3 && "" !in a.processes && 0 !in a.reserved
    requires Undone(l, port, ok, a, b) && StepDone(l, port, |ok|, more, b, c)
    ensures Undone(l, port, ok + [more], a, c)
  {
    if l.process == "" {
      assert a.processes - {l.process} == a.processes;
    }
    if port == 0 {
      assert a.reserved - {port} == a.reserved;
    }
  }

  lemma {:induction false} CallsTry(t: Trace, l: Link, port: nat, ok: seq<bool>)
    requires |ok| == 3
    ensures Tried(t, Calls(t, l, port, ok), l.id)
  {
    var t1 := StepCall(t, l, port, 0, ok[0]);
    var t2 := StepCall(t1, l, port, 1, ok[1]);
    assert Length(t1) == 1 + Length(t);
    TriedLater(t, t1, t2, l.id);
    TriedLater(t, t2, Calls(t, l, port, ok), l.id);
  }

  /** Only the trace has moved on. */
  lemma {:induction false} TakenAwayStill(id: LinkID, process: string, port: nat, a: Outside, m: Outside, b: Outside)
    requires TakenAway(id, process, port, a, m) && b == m.(trace := b.trace)
    ensures TakenAway(id, process, port, a, b)
  {
  }

  lemma {:induction false} CompensatedKeepsOthers(l: Link, port: nat, ok: seq<bool>, a: Outside, b: Outside)
    requires |ok| == 3 && Undone(l, port, ok, a, b)
    requires l.process in a.processes ==> a.processes[l.process] == l.id
    ensures OthersKept(l.id, a, b)
    ensures b.processes.Keys <= a.processes.Keys && b.reserved <= a.reserved
    ensures forall p :: p in b.processes ==> b.processes[p] == a.processes[p]
    ensures !a.degraded ==> b.routes.Keys <= a.routes.Keys
  {
  }

  /** Compensating never disturbs the agreement; when complete it leaves nothing of the link behind. */
  lemma {:induction false} CompensatedAgrees(
    l: Link, port: nat, ok: seq<bool>, links: LinkRows, lost: nat, a: Outside, b: Outside)
    requires |ok| == 3 && Undone(l, port, ok, a, b)
    requires l.process in a.processes ==> a.processes[l.process] == l.id
    ensures Agree(links, lost, a) ==> Agree(links, lost, b)
    ensures AgreeBut(l.id, l.process, links, lost, a) ==> AgreeBut(l.id, l.process, links, lost, b)
    ensures AllTrue(ok) && AgreeBut(l.id, l.process, links, lost, a) ==> Clean(l.id, lost, b)
  {
    CompensatedKeepsOthers(l, port, ok, a, b);
  }

  // ------------------------------------------------------------- sweeping

  /** The record of a link whose cleanup completed, before it is archived. */
  function Finished(l: Link, terminal: Status): Link {
    l.(status := terminal, process := "", port := 0)
  }

  /** The archived record of a link whose cleanup completed. */
  function Tombstone(l: Link): LinkRow {
    LinkRow(Finished(l, Deleted), true)
  }

  ghost predicate AllLive(ids: set<LinkID>, links: LinkRows) {
    forall id :: id in ids ==> Live(links, id)
  }

  /** Only rows of `done` may have changed. */
  ghost predicate Untouched(before: LinkRows, links: LinkRows, done: set<LinkID>) {
    links.Keys == before.Keys && forall id :: id in before && id !in done ==> links[id] == before[id]
  }

  /** Exactly the links of `done` were archived, with nothing of them left. */
  ghost predicate Swept(before: LinkRows, links: LinkRows, done: set<LinkID>, o: Outside) {
    && Untouched(before, links, done)
    && (forall id :: id in before && id in done ==> links[id] == Tombstone(before[id].link) && Retired(before[id].link, o))
  }

  lemma {:induction false} SweptMore(before: LinkRows, a: Worlds, b: Worlds, done: set<LinkID>, id: LinkID)
    requires Swept(before, a.links, done, a.o) && id !in done && id in before
    requires forall x :: x in before ==> before[x].link.id == x
    requires StepOf(id, a, b) && b.o.processes.Keys <= a.o.processes.Keys && b.o.reserved <= a.o.reserved
    requires b.links[id] == Tombstone(before[id].link) && Retired(before[id].link, b.o)
    ensures Swept(before, b.links, done + {id}, b.o)
  {
    forall x | x in before && x in done
      ensures b.links[x] == Tombstone(before[x].link) && Retired(before[x].link, b.o)
    {
      assert x in b.o.routes ==> x in b.o.routes - {id};
    }
  }

  /** Only records and what they stand for outside were taken away. */
  ghost predicate Reduced(a: Worlds, b: Worlds) {
    Onward(a, b) && b.spaces == a.spaces && b.o.processes.Keys <= a.o.processes.Keys && b.o.reserved <= a.o.reserved
  }

  lemma {:induction false} ReducedMore(id: LinkID, a: Worlds, m: Worlds, b: Worlds)
    requires Reduced(a, m) && StepOf(id, m, b)
    requires b.o.processes.Keys <= m.o.processes.Keys && b.o.reserved <= m.o.reserved
    ensures Reduced(a, b)
  {
    OnwardTransitive(a, m, b);
  }

  lemma {:induction false} SweptWithoutRoutes(
    before: LinkRows, links: LinkRows, done: set<LinkID>, a: Outside, b: Outside)
    requires Swept(before, links, done, a)
    requires b.processes == a.processes && b.reserved == a.reserved && (!b.degraded ==> b.routes == map[])
    ensures Swept(before, links, done, b)
  {
  }

  lemma {:induction false} NextID(batch: seq<Link>, i: nat, ids: set<LinkID>, links: LinkRows)
    requires i < |batch| && Enumerates(batch, ids, links)
    ensures batch[i] in batch && batch[i].id in ids && batch[i].id !in LinkIDs(batch[..i])
    ensures LinkIDs(batch[..i + 1]) == LinkIDs(batch[..i]) + {batch[i].id}
  {
    assert batch[..i + 1] == batch[..i] + [batch[i]];
  }

  /** The next link of a batch is untouched so far. */
  lemma {:induction false} NextOfBatch(
    batch: seq<Link>, i: nat, ids: set<LinkID>, before: LinkRows, links: LinkRows)
    requires i < |batch| && Enumerates(batch, ids, before) && AllLive(ids, before)
    requires Untouched(before, links, LinkIDs(batch[..i]))
    ensures batch[i].id !in LinkIDs(batch[..i]) && batch[i].id in ids
    ensures LinkIDs(batch[..i + 1]) == LinkIDs(batch[..i]) + {batch[i].id}
    ensures Live(links, batch[i].id) && links[batch[i].id].link == batch[i]
  {
    NextID(batch, i, ids, before);
  }

  ghost predicate NoLinkExpired(links: LinkRows, now: int) {
    forall id :: Live(links, id) ==> !ExpiredAt(now, links[id].link.expiresAt)
  }

  ghost predicate NoSpaceExpired(spaces: SpaceRows, now: int) {
    forall id :: LiveSpace(spaces, id) ==> !ExpiredAt(now, spaces[id].space.expiresAt)
  }

  lemma {:induction false} BatchIDs(batch: seq<Link>)
    requires batch != []
    ensures batch[0].id in LinkIDs(batch)
  {
    assert batch[0] in batch;
  }

  lemma {:induction false} EmptyBatch(batch: seq<Link>)
    requires LinkIDs(batch) == {}
    ensures batch == []
  {
    if batch != [] {
      BatchIDs(batch);
    }
  }

  /** Once no live link has expired, an expired space houses none, and archiving
      it archives no link. */
  lemma {:induction false} ExpiredSpaceIsEmpty(spaces: SpaceRows, links: LinkRows, space: SpaceID, now: int)
    requires RowsOK(spaces, links) && NoLinkExpired(links, now)
    requires space in spaces && ExpiredAt(now, spaces[space].space.expiresAt)
    ensures LinksIn(links, space) == {}
  {
    forall id | id in LinksIn(links, space) ensures false {
      ExpiryDominance(spaces, links, id, now);
    }
  }

  lemma {:induction false} EmptySpaceArchives(links: LinkRows, space: SpaceID)
    requires LinksIn(links, space) == {}
    ensures SpaceLinksArchived(links, space) == links
  {
    assert forall id :: id in links && !links[id].deleted && links[id].link.space == space ==> id in LinksIn(links, space);
  }

  /** The first `i` spaces of the list are live no more. */
  ghost predicate Closed(spaces: SpaceRows, batch: seq<Space>, i: int) {
    forall k :: 0 <= k < i && k < |batch| ==> !LiveSpace(spaces, batch[k].id)
  }

  lemma {:induction false} ClosedMore(a: SpaceRows, b: SpaceRows, batch: seq<Space>, i: int)
    requires Closed(a, batch, i) && SpacesEvolve(a, b) && b.Keys == a.Keys && 0 <= i < |batch|
    requires !LiveSpace(b, batch[i].id)
    ensures Closed(b, batch, i + 1)
  {
  }

  /** Every expired space of the list has been archived. */
  lemma {:induction false} SpacesSwept(before: SpaceRows, spaces: SpaceRows, batch: seq<Space>, now: int)
    requires EnumeratesSpaces(batch, ExpiredSpacesIn(before, now), before)
    requires SpacesEvolve(before, spaces) && spaces.Keys == before.Keys
    requires Closed(spaces, batch, |batch|)
    ensures NoSpaceExpired(spaces, now)
  {
    assert forall s :: s in batch ==> !LiveSpace(spaces, s.id);
    assert forall id :: id in SpaceIDs(batch) ==> !LiveSpace(spaces, id);
    assert forall id :: LiveSpace(spaces, id) ==> id !in ExpiredSpacesIn(before, now);
  }

  lemma {:induction false} SweptSpaceIsEmpty(before: LinkRows, links: LinkRows, space: SpaceID, o: Outside)
    requires Swept(before, links, LinksIn(before, space), o)
    ensures LinksIn(links, space) == {}
  {
    assert forall id :: id in links && id !in LinksIn(before, space) ==> links[id] == before[id];
    assert forall id :: id in links && id in LinksIn(before, space) ==> links[id].deleted;
  }

  lemma {:induction false} CancelledMore(timers: map<LinkID, int>, ids: set<LinkID>, id: LinkID)
    ensures timers - ids - {id} == timers - (ids + {id})
  {
  }

  /** The removal of every route of the batch so far was attempted. */
  ghost predicate AllTried(from: Trace, t: Trace, ids: set<LinkID>) {
    forall id :: id in ids ==> Tried(from, t, id)
  }

  lemma {:induction false} AllTriedMore(from: Trace, mid: Trace, t: Trace, ids: set<LinkID>, id: LinkID)
    requires Extends(from, mid) && Extends(mid, t) && AllTried(from, mid, ids) && Tried(mid, t, id)
    ensures AllTried(from, t, ids + {id})
  {
    forall x | x in ids ensures Tried(from, t, x) {
      TriedLater(from, mid, t, x);
    }
    TriedSince(from, mid, t, id);
  }
}
