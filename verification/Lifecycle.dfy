/** The lifecycle coordinator (internal/application/service.go,
    internal/application/reconcile.go, internal/application/compensation/compensation.go).
    Operations run one at a time; every port call may fail at any point.
 */
module Lifecycle {
  import opened Ports
  import opened Rows
  import opened Repository
  import opened HealthGate
  import opened CaddyAdmin
  import opened Environment
  import opened Agreement
  import opened Repair
  import opened RestartBackoff
  import opened CaddyRoutes
  import opened CaddyFragility
  import opened CaddyRecovery
  import CaddyRuns

  const DEFAULT_TTL: int := 6 * HOUR
  const MIN_TTL: int := MINUTE
  const MAX_TTL: int := 12 * HOUR
  const DEFAULT_GRACE: int := 15 * SECOND
  const MIN_GRACE: int := SECOND
  const MAX_GRACE: int := 15 * MINUTE

  /** How destroying a link may end: archived with nothing of it left; or with its
      cleanup incomplete and its record Failed; or cleaned up without being archived. */
  ghost predicate TakenDown(l: Link, terminal: Status, err: Option<Err>, before: LinkRow, row: LinkRow, o: Outside) {
    match err
    case None => row == Tombstone(l) && Retired(l, o)
    case Some(e) =>
      if e == Internal then row == before || row == LinkRow(l.(status := Failed), false)
      else e == Fault && Retired(l, o)
           && (row == before || row == LinkRow(Finished(l, terminal), false) || row == Tombstone(l))
  }

  lemma {:induction false} TakenDownPlan(
    l: Link, terminal: Status, err: Option<Err>, before: LinkRow, row: LinkRow, o: Outside)
    requires TakenDown(l, terminal, err, before, row, o)
    ensures row == before || SamePlan(l, row.link)
  {
  }

  /** What a start that failed cleanly leaves: a record without identity and
      port, and outside it nothing of the attempt. */
  ghost predicate FailedCleanly(l: Link, a: Worlds, b: Worlds) {
    && l.id in b.links && b.links[l.id] == LinkRow(l.(status := Failed, process := "", port := 0), false)
    && TakenAway(l.id, l.process, l.port, a.o, b.o)
  }

  lemma {:induction false} FailsCleanly(l: Link, a: Worlds, m: Worlds, b: Worlds)
    requires TakenAway(l.id, l.process, l.port, a.o, m.o) && b.o == m.o.(trace := b.o.trace)
    requires l.id in b.links && b.links[l.id] == LinkRow(l.(status := Failed, process := "", port := 0), false)
    ensures FailedCleanly(l, a, b)
  {
    TakenAwayStill(l.id, l.process, l.port, a.o, m.o, b.o);
  }

  /** What a start that succeeded leaves, `check` being the health check recorded for it. */
  ghost predicate Serving(base: string, sp: Space, l: Link, check: HealthURL, a: Worlds, b: Worlds) {
    && l.id in b.links && b.links[l.id] == LinkRow(l.(status := Active), false)
    && b.o.processes == a.o.processes && b.o.reserved == a.o.reserved
    && Shown(b.o.trace, l, check)
    && (!b.o.degraded ==> l.id in b.o.routes && b.o.routes[l.id] == RouteOf(base, sp, l))
  }

  /** How bringing up the running process of `l` may end. */
  ghost predicate Ended(
    base: string, sp: Space, l: Link, check: HealthURL, err: Option<Err>, out: Link, a: Worlds, b: Worlds)
  {
    && Live(b.links, l.id) && SamePlan(l, b.links[l.id].link) && StraysStay(l.id, l.process, a, b)
    && (err.None? ==> out == l.(status := Active) && Serving(base, sp, l, check, a, b))
    && (err.Some? ==> err == Some(Internal) || (err.value.StartupFailed? && FailedCleanly(l, a, b)))
  }

  lemma {:induction false} EndedEarlier(
    base: string, sp: Space, l: Link, later: Link, check: HealthURL, err: Option<Err>, out: Link,
    a: Worlds, m: Worlds, b: Worlds)
    requires later == l || later == l.(status := later.status)
    requires Ended(base, sp, later, check, err, out, m, b) && StepOf(l.id, a, m) && StepOf(l.id, m, b)
    requires m.o.processes == a.o.processes && m.o.reserved == a.o.reserved && StraysStay(l.id, l.process, a, m)
    ensures Ended(base, sp, l, check, err, out, a, b)
  {
  }

  /** The record of a published link became Active. */
  lemma {:induction false} EndsActive(base: string, sp: Space, l: Link, check: HealthURL, a: Worlds, b: Worlds)
    requires var out := l.(status := Active);
      l.id in b.links && b.links[l.id] == LinkRow(out, false) && b.o == a.o.(trace := Then(a.o.trace, SaveTried(out, true)))
    requires Shown(a.o.trace, l, check)
    requires !a.o.degraded ==> l.id in a.o.routes && a.o.routes[l.id] == RouteOf(base, sp, l)
    ensures Ended(base, sp, l, check, None, l.(status := Active), a, b)
  {
  }

  /** How a start may end, `reserved` being the reservations before it: with the
      link serving from a fresh process, or with nothing changed outside the
      database and a record without identity and port. */
  ghost predicate Concluded(
    base: string, sp: Space, l: Link, reserved: set<nat>, err: Option<Err>, out: Link, a: Worlds, b: Worlds)
  {
    && Live(b.links, l.id) && SamePlan(l, b.links[l.id].link) && StraysStay(l.id, "", a, b)
    && (err.None? ==>
      && out == l.(status := Active, process := out.process, port := out.port, health := ReplacePort(l.health, out.port))
      && out.process != "" && out.process !in a.o.issued && 1 <= out.port <= MAX_PORT
      && b.links[l.id] == LinkRow(out, false)
      && b.o.processes == a.o.processes[out.process := l.id]
      && Shown(b.o.trace, out, l.health)
      && (!b.o.degraded ==> l.id in b.o.routes && b.o.routes[l.id] == RouteOf(base, sp, out)))
    && (err.Some? ==> err == Some(Internal) || err.value.StartupFailed?)
    && (err.Some? && err.value.StartupFailed? ==>
      && b.links[l.id] ==
           LinkRow(l.(status := Failed, process := "", port := 0, health := b.links[l.id].link.health), false)
      && b.o.processes == a.o.processes
      && (!b.o.degraded ==> l.id !in b.o.routes))
    && (err != Some(Internal) ==> b.o.reserved == reserved)
  }

  /** As seen from before the process was started. */
  lemma {:induction false} Concludes(
    base: string, sp: Space, l: Link, id: string, err: Option<Err>, out: Link, a: Worlds, m: Worlds, b: Worlds)
    requires l.process == "" && 1 <= l.port <= MAX_PORT && id != "" && id !in a.o.issued && id !in a.o.processes
    requires StepOf(l.id, a, m) && StepOf(l.id, m, b)
    requires m.o.processes == a.o.processes[id := l.id] && m.o.reserved == a.o.reserved && l.port !in a.o.reserved
    requires m.links == a.links
    requires Raised(base, sp, l.(process := id), err, out, m, b)
    ensures Concluded(base, sp, l, a.o.reserved, err, out, a, b)
  {
    if err.Some? && err.value.StartupFailed? {
      ConcludesFailed(l, id, a, m, b);
    }
  }

  lemma {:induction false} ConcludesFailed(l: Link, id: string, a: Worlds, m: Worlds, b: Worlds)
    requires l.process == "" && id !in a.o.processes && StepOf(l.id, m, b)
    requires m.o.processes == a.o.processes[id := l.id] && m.o.reserved == a.o.reserved && l.port !in a.o.reserved
    requires var started := l.(process := id);
      FailedCleanly(started, m, b) || FailedCleanly(started.(health := ReplacePort(l.health, l.port)), m, b)
    ensures b.o.processes == a.o.processes && b.o.reserved == a.o.reserved && (!b.o.degraded ==> l.id !in b.o.routes)
  {
    assert a.o.processes[id := l.id] - {id} == a.o.processes;
    assert a.o.reserved - {l.port} == a.o.reserved;
  }

  /** The same when no process was started. */
  lemma {:induction false} ConcludesEarly(
    base: string, sp: Space, l: Link, err: Option<Err>, out: Link, a: Worlds, b: Worlds)
    requires l.process == "" && "" !in a.o.processes
    requires Live(b.links, l.id) && SamePlan(l, b.links[l.id].link) && StraysStay(l.id, "", a, b)
    requires err == Some(Internal) || (err.Some? && err.value.StartupFailed? && FailedCleanly(l, a, b))
    ensures Concluded(base, sp, l, a.o.reserved - {l.port}, err, out, a, b)
  {
    assert a.o.processes - {""} == a.o.processes;
  }

  /** As seen from before a port was reserved and the first record written. */
  lemma {:induction false} ConcludedEarlier(
    base: string, sp: Space, l: Link, later: Link, reserved: set<nat>, err: Option<Err>, out: Link,
    a: Worlds, m: Worlds, b: Worlds)
    requires later == l.(port := later.port, status := later.status)
    requires m.o.processes == a.o.processes && m.o.issued == a.o.issued && StraysStay(l.id, "", a, m)
    requires Concluded(base, sp, later, reserved, err, out, m, b)
    ensures Concluded(base, sp, l, reserved, err, out, a, b)
  {
  }

  /** As seen from before the record without identity was written. */
  lemma {:induction false} ConcludedSince(
    base: string, sp: Space, l: Link, reserved: set<nat>, err: Option<Err>, out: Link, a: Worlds, m: Worlds, b: Worlds)
    requires m.o == a.o.(trace := m.o.trace) && "" !in a.o.processes && l.id in a.links && l.id in m.links
    requires m.links[l.id].link.process in {"", a.links[l.id].link.process}
    ensures Concluded(base, sp, l, reserved, err, out, m, b) ==> Concluded(base, sp, l, reserved, err, out, a, b)
  {
    StraysKept(l.id, "", a, m);
    if Concluded(base, sp, l, reserved, err, out, m, b) {
      ConcludedEarlier(base, sp, l, l, reserved, err, out, a, m, b);
    }
  }

  /** How bringing up a process may end when its first record is still to be written. */
  ghost predicate Raised(base: string, sp: Space, l: Link, err: Option<Err>, out: Link, a: Worlds, b: Worlds) {
    var probed := l.(health := ReplacePort(l.health, l.port));
    && Live(b.links, l.id) && SamePlan(l, b.links[l.id].link) && StraysStay(l.id, l.process, a, b)
    && (err.None? ==> out == probed.(status := Active) && Serving(base, sp, probed, l.health, a, b))
    && (err.Some? ==> err == Some(Internal)
                      || (err.value.StartupFailed? && (FailedCleanly(l, a, b) || FailedCleanly(probed, a, b))))
  }

  /** A label as given, with the verdict of its parser. */
  datatype Label = Label(text: string, ok: bool)

  /** Whoever asks, with the verdict on the credential presented. */
  datatype Caller = Caller(alias: Label, admin: bool, verified: bool)

  predicate Called(row: LinkRow, space: SpaceID, name: string) {
    row.link.space == space && row.link.name == name
  }

  /** A restart of `l` that went off after its process had exited, if it lapsed. */
  lemma {:induction false} AfterACrash(l: Link, a: Worlds, w: Worlds, mid: Worlds, b: Worlds, lapse: Lapse)
    requires Live(a.links, l.id) && a.links[l.id].link == l && NamesUnique(a.links) && a.faults == w.faults
    requires w == a.(o := a.o.(processes := a.o.processes - {l.process}))
    requires lapse.Kept? || (Lapsed(Fired(w, mid, b, lapse)) && Called(w.links[lapse.id], l.space, l.name))
    ensures Agree(a.links, a.lostSaves, a.o) ==> !lapse.Running?
    ensures lapse.Orphaned? ==>
      Published(l.id, a.o) && l.id in b.links && b.links[l.id].deleted && ExpiredAt(b.clock, l.expiresAt)
    ensures lapse.Dropped? ==> b.faults > a.faults
  {
    if !lapse.Kept? {
      assert SameName(w.links[lapse.id], w.links[l.id]);
      if Agree(a.links, a.lostSaves, a.o) {
        CrashedIsIdle(l, a.links, a.lostSaves, a.o, w.o);
      }
    }
  }

  /** The caller's space is live and, unless it is an administrator who asks, unexpired. */
  ghost predicate Welcome(c: Caller, name: Label, spaces: SpaceRows, now: int) {
    && c.alias.ok && name.ok && c.verified
    && exists id :: LiveSpace(spaces, id) && spaces[id].space.alias == c.alias.text
                    && (c.admin || !ExpiredAt(now, spaces[id].space.expiresAt))
  }

  /** A caller asks for an archived link by its name. */
  ghost predicate Repeated(c: Caller, name: Label, row: LinkRow, spaces: SpaceRows, now: int) {
    && c.alias.ok && name.ok && c.verified && name.text == row.link.name
    && LiveSpace(spaces, row.link.space) && spaces[row.link.space].space.alias == c.alias.text
    && (c.admin || !ExpiredAt(now, spaces[row.link.space].space.expiresAt))
  }

  /** How a restart may end: as a start of the same link after its old process,
      route and reservation were taken away. */
  ghost predicate Renewed(base: string, sp: Space, l: Link, err: Option<Err>, out: Link, a: Worlds, b: Worlds) {
    && l.id in b.links && SamePlan(l, b.links[l.id].link)
    && (err.None? ==>
      && out == l.(status := Active, process := out.process, port := out.port, health := ReplacePort(l.health, out.port))
      && out.process != "" && out.process !in a.o.issued && 1 <= out.port <= MAX_PORT
      && b.links[l.id] == LinkRow(out, false)
      && b.o.processes == (a.o.processes - {l.process})[out.process := l.id]
      && b.o.reserved == a.o.reserved - {l.port}
      && Shown(b.o.trace, out, l.health)
      && (!b.o.degraded ==> l.id in b.o.routes && b.o.routes[l.id] == RouteOf(base, sp, out)))
    && (err.Some? && err.value.StartupFailed? ==>
      && b.links[l.id].link.status == Failed && b.links[l.id].link.process == "" && b.links[l.id].link.port == 0
      && TakenAway(l.id, l.process, l.port, a.o, b.o))
  }

  lemma {:induction false} RenewedFrom(
    base: string, sp: Space, l: Link, err: Option<Err>, out: Link, a: Worlds, m: Worlds, b: Worlds)
    requires StepOf(l.id, a, m) && StepOf(l.id, m, b) && TakenAway(l.id, l.process, l.port, a.o, m.o)
    requires Concluded(base, sp, l.(status := Creating, process := "", port := 0), m.o.reserved, err, out, m, b)
    ensures Renewed(base, sp, l, err, out, a, b)
  {
    if err.Some? && err.value.StartupFailed? && !b.o.degraded {
      assert a.o.routes - {l.id} == m.o.routes - {l.id} == b.o.routes - {l.id} == b.o.routes;
    }
  }

  lemma {:induction false} RenewedEarlier(
    base: string, sp: Space, l: Link, err: Option<Err>, out: Link, a: Worlds, m: Worlds, b: Worlds)
    requires Renewed(base, sp, l, err, out, m, b) && m.o == a.o
    ensures Renewed(base, sp, l, err, out, a, b)
  {
  }

  datatype CreateLinkInput = CreateLinkInput(
    alias: Label, verified: bool, name: Label, command: string, folder: string,
    health: HealthURL, healthOK: bool, grace: int, ttl: int, restarts: bool)

  /** A duration left at zero takes its default. */
  function OrDefault(d: int, default: int): int {
    if d == 0 then default else d
  }

  predicate WellFormedInput(i: CreateLinkInput) {
    && i.alias.ok && i.name.ok && !Blank(i.command) && !Blank(i.folder) && i.healthOK
    && MIN_TTL <= OrDefault(i.ttl, DEFAULT_TTL) <= MAX_TTL
    && MIN_GRACE <= OrDefault(i.grace, DEFAULT_GRACE) <= MAX_GRACE
  }

  /** The record of a link created at `now`: it never outlives its space. */
  function NewLink(i: CreateLinkInput, id: LinkID, sp: Space, now: int): (l: Link)
    requires WellFormedInput(i)
    ensures l.expiresAt <= sp.expiresAt && l.expiresAt - now <= MAX_TTL
  {
    var due := now + OrDefault(i.ttl, DEFAULT_TTL);
    Link(id, sp.id, i.name.text, Creating, i.command, i.folder, i.health, OrDefault(i.grace, DEFAULT_GRACE),
         if sp.expiresAt < due then sp.expiresAt else due, 0, "", i.restarts, 0, 0)
  }

  /** The name is taken in the live, unexpired space the request is for. */
  ghost predicate Refused(i: CreateLinkInput, space: SpaceID, spaces: SpaceRows, links: LinkRows, now: int) {
    && LiveSpace(spaces, space) && spaces[space].space.alias == i.alias.text
    && !ExpiredAt(now, spaces[space].space.expiresAt)
    && Taken(links, space, i.name.text)
  }

  /** The latest start is on the second port, and the probe it passed was of the
      address filled in with the first port. */
  ghost predicate VouchedByFirst(
    es: seq<HealthGate.Event>, health: HealthURL, first: Link, second: Link, start: int, probe: int)
  {
    && LatestStart(es, start, second.id, second.port, second.process)
    && start < probe < |es| && es[probe] == Probed(second.id, ProbeURL(health, first.port), true)
    && (HasSlot(health) && first.port != second.port ==> es[probe].url != ProbeURL(health, second.port))
  }

  lemma {:induction false} VouchedByFirstPort(t: Trace, health: HealthURL, first: Link, second: Link)
    returns (start: int, probe: int)
    requires GateOK(t) && first.health == ReplacePort(health, first.port) && Shown(t, second, first.health)
    ensures VouchedByFirst(Events(t), health, first, second, start, probe)
  {
    var w, a := StartedMeaning(t, second.id);
    start, probe := w.start, w.probe;
    RestartProbesFirstPort(health, first.port, second.port);
  }

  /** A link just created, then restarted. */
  lemma {:induction false} Revouched(
    base: string, i: CreateLinkInput, id: LinkID, sp: Space, at: int, sp': Space, l: Link, reserved: set<nat>,
    first: Link, second: Link, a: Worlds, m: Worlds, b: Worlds) returns (start: int, probe: int)
    requires WellFormedInput(i) && Concluded(base, sp, NewLink(i, id, sp, at), reserved, None, first, a, m)
    requires Live(m.links, l.id) && m.links[l.id].link == l && Renewed(base, sp', l, None, second, m, b)
    requires l.id == id && second.id == id && GateOK(b.o.trace)
    ensures VouchedByFirst(Events(b.o.trace), i.health, first, second, start, probe)
    ensures second.status == Active && Live(b.links, id) && b.links[id].link == second
  {
    start, probe := VouchedByFirstPort(b.o.trace, i.health, first, second);
  }

  class Service {
    const repo: Store
    const env: World
    const baseHost: string
    /** The instant each link's pending automatic restart is due. */
    var scheduled: map<LinkID, int>

    constructor (repo: Store, env: World, baseHost: string)
      ensures this.repo == repo && this.env == env && this.baseHost == baseHost
    {
      this.repo, this.env, this.baseHost := repo, env, baseHost;
      scheduled := map[];
    }

    ghost function Snap(): (w: Worlds)
      reads repo, env
    {
      Worlds(repo.spaces, repo.links, repo.faults, repo.lostSaves, env.clock, env.Snap())
    }

    /** Holds at every boundary, whatever failed. */
    ghost predicate Core()
      reads repo, env
    {
      repo.OK() && env.OK() && AcceptsLocal(env.loopback) && Sound(repo.links, env.Snap())
    }

    /** Every owned route belongs to a live record and every running process is named by one. */
    ghost predicate Conserved()
      reads repo, env
    {
      Agree(repo.links, repo.lostSaves, env.Snap())
    }

    /** The same once `id` has a record that names `process`. */
    ghost predicate ConservedBut(id: LinkID, process: string)
      reads repo, env
    {
      AgreeBut(id, process, repo.links, repo.lostSaves, env.Snap())
    }

    ghost predicate NothingLeft(id: LinkID)
      reads repo, env
    {
      Clean(id, repo.lostSaves, env.Snap())
    }

    /** No process of the link is running. */
    ghost predicate Exited(id: LinkID)
      reads repo, env
    {
      Idle(id, repo.lostSaves, env.Snap())
    }

    /** `l` may take the place of its own live record. */
    ghost predicate Replaces(l: Link)
      reads repo, env
    {
      && Live(repo.links, l.id) && SameName(repo.links[l.id], LinkRow(l, false))
      && l.expiresAt == repo.links[l.id].link.expiresAt
      && RowSound(l, env.Snap())
    }

    // --------------------------------------------------------- record keeping

    /** s.Repo.SaveLink */
    method Record(l: Link) returns (err: Option<Err>)
      requires Core() && Replaces(l)
      modifies repo, env`trace
      ensures Core() && StepOf(l.id, old(Snap()), Snap())
      ensures env.Snap() == old(env.Snap()).(trace := Then(old(env.trace), SaveTried(l, err.None?)))
      ensures Live(repo.links, l.id)
      ensures repo.links[l.id] == LinkRow(l, false) || repo.links[l.id] == old(repo.links[l.id])
      ensures err.None? ==> repo.links[l.id] == LinkRow(l, false)
      ensures err.None? || err == Some(Fault)
      ensures repo.faults - old(repo.faults) == repo.lostSaves - old(repo.lostSaves)
      ensures err.Some? ==> repo.lostSaves > 0
      ensures old(ConservedBut(l.id, l.process)) ==> Conserved() && ConservedBut(l.id, l.process)
    {
      ghost var w := Snap();
      err := repo.SaveLink(l);
      env.Note(SaveTried(l, err.None?));
      RecordStep(l, err.None?, w, Snap());
      RecordAgrees(l, err.None?, w, Snap());
    }

    /** s.Repo.DeleteLink */
    method Archive(id: LinkID) returns (err: Option<Err>)
      requires Core() && Live(repo.links, id)
      modifies repo
      ensures Core() && StepOf(id, old(Snap()), Snap())
      ensures repo.links[id] == ArchivedRow(old(repo.links[id])) || repo.links[id] == old(repo.links[id])
      ensures err.None? ==> repo.links[id] == ArchivedRow(old(repo.links[id]))
      ensures err.None? || err == Some(Fault)
      ensures repo.lostSaves == old(repo.lostSaves) && (repo.faults == old(repo.faults) ==> err.None?)
      ensures old(Conserved() && Exited(id)) ==> (Conserved() <==> Live(repo.links, id) || !Published(id, env.Snap()))
    {
      ghost var links, lost := repo.links, repo.lostSaves;
      err := repo.DeleteLink(id);
      SoundArchived(links, id, env.Snap());
      ArchivedKeeps(repo.spaces, links, id);
      if Agree(links, lost, env.Snap()) && Idle(id, lost, env.Snap()) {
        ArchivedAgrees(id, links, lost, env.Snap());
      }
    }

    // ----------------------------------------------------------- compensation

    /** One optional compensator. */
    method CompensationStep(l: Link, port: nat, k: nat) returns (err: Option<Err>)
      requires env.OK() && GateOK(env.trace) && k < 3
      requires k == 1 ==> GateOf(env.trace, l.id).withdrawn
      modifies env`entries, env`processes, env`reserved, env`trace
      ensures env.OK() && GateOK(env.trace)
      ensures k == 0 ==> GateOf(env.trace, l.id).withdrawn
      ensures StepDone(l, port, k, err.None?, old(env.Snap()), env.Snap())
      ensures err.None? || err == Some(Fault)
    {
      err := None;
      if k == 0 {
        var e := env.RemoveRoute(l.id);
        err := if e.Some? then Some(Fault) else None;
      } else if k == 1 {
        if l.process != "" {
          err := env.Stop(l.process, l.id);
        }
      } else if port != 0 {
        err := env.Release(port);
      }
    }

    /** compensation.Run over the steps of a link: every step is attempted, in
        order, and the first error is returned. */
    method RunCompensation(l: Link, port: nat) returns (err: Option<Err>, ghost ok: seq<bool>)
      requires env.OK() && GateOK(env.trace)
      modifies env`entries, env`processes, env`reserved, env`trace
      ensures env.OK() && GateOK(env.trace)
      ensures |ok| == 3 && Undone(l, port, ok, old(env.Snap()), env.Snap())
      ensures err.None? <==> AllTrue(ok)
      ensures err.None? || err == Some(Fault)
    {
      err, ok := None, [];
      for k := 0 to 3
        invariant env.OK() && GateOK(env.trace)
        invariant |ok| == k && Undone(l, port, ok, old(env.Snap()), env.Snap())
        invariant k == 1 ==> GateOf(env.trace, l.id).withdrawn
        invariant err.None? <==> AllTrue(ok)
        invariant err.None? || err == Some(Fault)
      {
        ghost var mid := env.Snap();
        var e := CompensationStep(l, port, k);
        if e.Some? && err.None? {
          err := e;
        }
        UndoneMore(l, port, ok, e.None?, old(env.Snap()), mid, env.Snap());
        ok := ok + [e.None?];
      }
    }

    /** The same, as a step on behalf of a recorded link. */
    method Compensate(l: Link, port: nat) returns (err: Option<Err>)
      requires Core() && Live(repo.links, l.id) && RowSound(l, env.Snap())
      modifies env`entries, env`processes, env`reserved, env`trace
      ensures Core() && StepOf(l.id, old(Snap()), Snap()) && RowSound(l, env.Snap())
      ensures env.processes.Keys <= old(env.processes).Keys && env.reserved <= old(env.reserved)
      ensures err.None? ==> TakenAway(l.id, l.process, port, old(env.Snap()), env.Snap())
      ensures Tried(old(env.trace), env.trace, l.id)
      ensures old(Conserved()) ==> Conserved()
      ensures old(ConservedBut(l.id, l.process)) ==> ConservedBut(l.id, l.process) && (err.None? ==> NothingLeft(l.id))
      ensures err.None? || err == Some(Fault)
      ensures StraysStay(l.id, l.process, old(Snap()), Snap())
    {
      ghost var before := env.Snap();
      ghost var w := Snap();
      ghost var ok: seq<bool>;
      err, ok := RunCompensation(l, port);
      CallsTry(before.trace, l, port, ok);
      CompensatedKeepsOthers(l, port, ok, before, env.Snap());
      OutsideStep(l.id, w, Snap());
      SoundOutside(repo.links, before, env.Snap());
      CompensatedAgrees(l, port, ok, repo.links, repo.lostSaves, before, env.Snap());
      StraysKept(l.id, l.process, w, Snap());
    }

    // -------------------------------------------------------------- destroy

    method CancelTimer(id: LinkID)
      modifies this`scheduled
      ensures scheduled == old(scheduled) - {id}
    {
      scheduled := scheduled - {id};
    }

    /** Takes a link's route, process and port away, then archives its record. */
    method Destroy(l: Link, terminal: Status) returns (err: Option<Err>)
      requires Core() && Replaces(l) && repo.links[l.id].link.process == l.process
      modifies this`scheduled, repo, env`entries, env`processes, env`reserved, env`trace
      ensures Core() && StepOf(l.id, old(Snap()), Snap())
      ensures scheduled == old(scheduled) - {l.id} && Tried(old(env.trace), env.trace, l.id)
      ensures env.processes.Keys <= old(env.processes).Keys && env.reserved <= old(env.reserved)
      ensures TakenDown(l, terminal, err, old(repo.links[l.id]), repo.links[l.id], env.Snap())
      ensures repo.links[l.id] == old(repo.links[l.id]) || SamePlan(l, repo.links[l.id].link)
      ensures old(Conserved()) ==> Conserved()
    {
      CancelTimer(l.id);
      err := TakeDown(l, terminal);
    }

    /** The same once the timer is cancelled. */
    method TakeDown(l: Link, terminal: Status) returns (err: Option<Err>)
      requires Core() && Replaces(l) && repo.links[l.id].link.process == l.process
      modifies repo, env`entries, env`processes, env`reserved, env`trace
      ensures Core() && StepOf(l.id, old(Snap()), Snap()) && Tried(old(env.trace), env.trace, l.id)
      ensures env.processes.Keys <= old(env.processes).Keys && env.reserved <= old(env.reserved)
      ensures TakenDown(l, terminal, err, old(repo.links[l.id]), repo.links[l.id], env.Snap())
      ensures repo.links[l.id] == old(repo.links[l.id]) || SamePlan(l, repo.links[l.id].link)
      ensures old(Conserved()) ==> Conserved()
    {
      ghost var row := repo.links[l.id];
      if Conserved() {
        AgreeOwn(l, repo.links, repo.lostSaves, env.Snap());
      }
      err := Dismantle(l, terminal);
      TakenDownPlan(l, terminal, err, row, repo.links[l.id], env.Snap());
    }

    method Dismantle(l: Link, terminal: Status) returns (err: Option<Err>)
      requires Core() && Replaces(l)
      modifies repo, env`entries, env`processes, env`reserved, env`trace
      ensures Core() && StepOf(l.id, old(Snap()), Snap()) && Tried(old(env.trace), env.trace, l.id)
      ensures env.processes.Keys <= old(env.processes).Keys && env.reserved <= old(env.reserved)
      ensures TakenDown(l, terminal, err, old(repo.links[l.id]), repo.links[l.id], env.Snap())
      ensures old(Conserved() && ConservedBut(l.id, l.process)) ==> Conserved()
    {
      ghost var w0 := Snap();
      var e := Compensate(l, l.port);
      ghost var w1 := Snap();
      err := Conclude(l, terminal, e.None?);
      StepTransitive(l.id, w0, w1, Snap());
      TriedLater(w0.o.trace, w1.o.trace, env.trace, l.id);
    }

    /** Archives a link whose cleanup completed, or records that it did not. */
    method Conclude(l: Link, terminal: Status, clean: bool) returns (err: Option<Err>)
      requires Core() && Replaces(l) && (clean ==> Retired(l, env.Snap()))
      modifies repo, env`trace
      ensures Core() && StepOf(l.id, old(Snap()), Snap())
      ensures env.Snap() == old(env.Snap()).(trace := env.trace)
      ensures TakenDown(l, terminal, err, old(repo.links[l.id]), repo.links[l.id], env.Snap())
      ensures err == Some(Internal) <==> !clean
      ensures old(Conserved() && ConservedBut(l.id, l.process) && (clean ==> NothingLeft(l.id))) ==> Conserved()
    {
      if clean {
        err := Bury(l, terminal);
      } else {
        var saveErr := Record(l.(status := Failed));
        err := Some(Internal);
      }
    }

    /** Records a link as finished and archives it. */
    method Bury(l: Link, terminal: Status) returns (err: Option<Err>)
      requires Core() && Replaces(l)
      modifies repo, env`trace
      ensures Core() && StepOf(l.id, old(Snap()), Snap())
      ensures err.None? ==> repo.links[l.id] == Tombstone(l)
      ensures repo.links[l.id] in {old(repo.links[l.id]), LinkRow(Finished(l, terminal), false), Tombstone(l)}
      ensures env.Snap() == old(env.Snap()).(trace := env.trace)
      ensures err.None? || err == Some(Fault)
      ensures old(Conserved() && NothingLeft(l.id)) ==> Conserved()
    {
      ghost var w0 := Snap();
      AgreeIdle(l.id, "", repo.links, repo.lostSaves, env.Snap());
      err := Record(Finished(l, terminal));
      if err.Some? && err != Some(NotFound) {
        return;
      }
      ghost var w1 := Snap();
      err := Archive(l.id);
      StepTransitive(l.id, w0, w1, Snap());
    }

    // ---------------------------------------------------------------- start

    /** Records a failed start, without identity and port if nothing is left of it. */
    method RecordFailure(l: Link, clean: bool) returns (err: Option<Err>)
      requires Core() && Replaces(l) && SamePlan(l, repo.links[l.id].link)
      modifies repo, env`trace
      ensures Core() && StepOf(l.id, old(Snap()), Snap()) && Live(repo.links, l.id)
      ensures env.Snap() == old(env.Snap()).(trace := env.trace)
      ensures SamePlan(l, repo.links[l.id].link)
      ensures err.None? && clean ==> repo.links[l.id] == LinkRow(l.(status := Failed, process := "", port := 0), false)
      ensures old(ConservedBut(l.id, l.process)) && (clean ==> old(NothingLeft(l.id))) ==> Conserved()
      ensures StraysStay(l.id, l.process, old(Snap()), Snap())
    {
      var failed := l.(status := Failed);
      if clean {
        if ConservedBut(l.id, l.process) && NothingLeft(l.id) {
          AgreeButClean(l.id, l.process, "", repo.links, repo.lostSaves, env.Snap());
        }
        failed := failed.(process := "", port := 0);
      }
      err := Record(failed);
    }

    /** Undoes a start and records the failure. */
    method FailStart(l: Link, port: nat, cause: Err) returns (err: Option<Err>)
      requires Core() && Replaces(l) && SamePlan(l, repo.links[l.id].link)
      modifies repo, env`entries, env`processes, env`reserved, env`trace
      ensures Core() && StepOf(l.id, old(Snap()), Snap())
      ensures Live(repo.links, l.id)
      ensures err == Some(Internal) || err == Some(StartupFailed(cause))
      ensures err != Some(Internal) ==> FailedCleanly(l.(port := port), old(Snap()), Snap())
      ensures SamePlan(l, repo.links[l.id].link)
      ensures old(ConservedBut(l.id, l.process)) ==> Conserved()
      ensures StraysStay(l.id, l.process, old(Snap()), Snap())
    {
      ghost var w0 := Snap();
      var compErr := Compensate(l, port);
      ghost var w1 := Snap();
      var saveErr := RecordFailure(l, compErr.None?);
      StepTransitive(l.id, w0, w1, Snap());
      if compErr.None? && saveErr.None? {
        FailsCleanly(l.(port := port), w0, w1, Snap());
      }
      err := if compErr.Some? || saveErr.Some? then Some(Internal) else Some(StartupFailed(cause));
    }

    /** s.Proxy.Remove, its error ignored. */
    method Unroute(id: LinkID, ghost process: string)
      requires Core() && Live(repo.links, id)
      modifies env`entries, env`trace
      ensures Core() && StepOf(id, old(Snap()), Snap())
      ensures old(ConservedBut(id, process)) ==> ConservedBut(id, process)
      ensures StraysStay(id, process, old(Snap()), Snap())
    {
      ghost var w := Snap();
      var ignored := env.RemoveRoute(id);
      OutsideStep(id, w, Snap());
      SoundOutside(repo.links, w.o, env.Snap());
    }

    /** Withdraws a route just added and fails the start. */
    method Retract(l: Link, cause: Err) returns (err: Option<Err>)
      requires Core() && Replaces(l) && SamePlan(l, repo.links[l.id].link)
      modifies repo, env`entries, env`processes, env`reserved, env`trace
      ensures Core() && StepOf(l.id, old(Snap()), Snap())
      ensures err == Some(Internal) || err == Some(StartupFailed(cause))
      ensures Live(repo.links, l.id)
      ensures err != Some(Internal) ==> FailedCleanly(l, old(Snap()), Snap())
      ensures SamePlan(l, repo.links[l.id].link)
      ensures old(ConservedBut(l.id, l.process)) ==> Conserved()
      ensures StraysStay(l.id, l.process, old(Snap()), Snap())
    {
      ghost var w0 := Snap();
      Unroute(l.id, l.process);
      ghost var w1 := Snap();
      err := FailStart(l, l.port, cause);
      StepTransitive(l.id, w0, w1, Snap());
    }

    /** The last stage: the route is up and the link becomes Active. */
    method Activate(sp: Space, l: Link, ghost check: HealthURL) returns (err: Option<Err>, out: Link)
      requires Core() && Replaces(l) && SamePlan(l, repo.links[l.id].link)
      requires Shown(env.trace, l, check)
      requires !env.degraded ==> l.id in env.Routes() && env.Routes()[l.id] == RouteOf(baseHost, sp, l)
      modifies repo, env`entries, env`processes, env`reserved, env`trace
      ensures Core() && StepOf(l.id, old(Snap()), Snap())
      ensures Ended(baseHost, sp, l, check, err, out, old(Snap()), Snap())
      ensures old(ConservedBut(l.id, l.process)) ==> Conserved()
    {
      ghost var w0 := Snap();
      out := l.(status := Active);
      err := Record(out);
      var urlFails: bool := *;
      if err.None? && !urlFails {
        EndsActive(baseHost, sp, l, check, w0, Snap());
      } else {
        ghost var w1 := Snap();
        err := Retract(out, if err.Some? then err.value else Err.Validation);
        StepTransitive(l.id, w0, w1, Snap());
        EndedEarlier(baseHost, sp, l, out, check, err, out, w0, w1, Snap());
      }
    }

    /** s.Proxy.Add */
    method AddRoute(sp: Space, l: Link, ghost check: HealthURL) returns (err: Option<ProxyError>)
      requires Core() && Live(repo.links, l.id)
      requires MayPublish(env.trace, l, check)
      modifies env`entries, env`trace
      ensures Core() && StepOf(l.id, old(Snap()), Snap())
      ensures GateOf(env.trace, l.id) == old(GateOf(env.trace, l.id)).(withdrawn := false)
      ensures err.None? && !env.degraded ==> l.id in env.Routes() && env.Routes()[l.id] == RouteOf(baseHost, sp, l)
      ensures old(ConservedBut(l.id, l.process)) ==> ConservedBut(l.id, l.process)
    {
      ghost var w := Snap();
      err := env.AddRoute(RouteOf(baseHost, sp, l));
      OutsideStep(l.id, w, Snap());
      SoundOutside(repo.links, w.o, env.Snap());
    }

    /** Publishes a healthy process. */
    method Publish(sp: Space, l: Link, ghost check: HealthURL) returns (err: Option<Err>, out: Link)
      requires Core() && Replaces(l) && SamePlan(l, repo.links[l.id].link)
      requires MayPublish(env.trace, l, check)
      modifies repo, env`entries, env`processes, env`reserved, env`trace
      ensures Core() && StepOf(l.id, old(Snap()), Snap())
      ensures Ended(baseHost, sp, l, check, err, out, old(Snap()), Snap())
      ensures old(ConservedBut(l.id, l.process)) ==> Conserved()
    {
      out := l;
      ghost var w0 := Snap();
      var e := AddRoute(sp, l, check);
      ghost var w1 := Snap();
      if e.Some? {
        err := FailStart(l, l.port, FromProxy(e.value));
      } else {
        err, out := Activate(sp, l, check);
      }
      StepTransitive(l.id, w0, w1, Snap());
      EndedEarlier(baseHost, sp, l, l, check, err, out, w0, w1, Snap());
    }

    /** The probe has passed: the link becomes Healthy, then is published. */
    method Promote(sp: Space, l: Link, ghost check: HealthURL) returns (err: Option<Err>, out: Link)
      requires Core() && Replaces(l) && SamePlan(l, repo.links[l.id].link)
      requires Proven(env.trace, l, check)
      modifies repo, env`entries, env`processes, env`reserved, env`trace
      ensures Core() && StepOf(l.id, old(Snap()), Snap())
      ensures Ended(baseHost, sp, l, check, err, out, old(Snap()), Snap())
      ensures old(ConservedBut(l.id, l.process)) ==> Conserved()
    {
      out := l.(status := Healthy);
      ghost var w0 := Snap();
      err := Record(out);
      ghost var w1 := Snap();
      if err.Some? {
        err := FailStart(out, l.port, err.value);
      } else {
        err, out := Publish(sp, out, check);
      }
      StepTransitive(l.id, w0, w1, Snap());
      EndedEarlier(baseHost, sp, l, l.(status := Healthy), check, err, out, w0, w1, Snap());
    }

    /** Probes a link's process, whose health check `check` was filled in, and goes on if it is healthy in time. */
    method Probe(sp: Space, l: Link, ghost check: HealthURL) returns (err: Option<Err>, out: Link)
      requires Core() && Replaces(l) && SamePlan(l, repo.links[l.id].link) && l.health == ReplacePort(check, l.port)
      requires Known(env.trace, l, check)
      modifies repo, env`entries, env`processes, env`reserved, env`trace, env`clock
      ensures Core() && StepOf(l.id, old(Snap()), Snap())
      ensures Ended(baseHost, sp, l, check, err, out, old(Snap()), Snap())
      ensures old(ConservedBut(l.id, l.process)) ==> Conserved()
    {
      out := l;
      ghost var w0 := Snap();
      err := Check(l, check);
      ghost var w1 := Snap();
      if err.Some? {
        err := FailStart(l, l.port, err.value);
      } else {
        err, out := Promote(sp, l, check);
      }
      StepTransitive(l.id, w0, w1, Snap());
      EndedEarlier(baseHost, sp, l, l, check, err, out, w0, w1, Snap());
    }

    /** s.Health.CheckUntil, then a look at the clock. */
    method Check(l: Link, ghost check: HealthURL) returns (err: Option<Err>)
      requires Core() && Live(repo.links, l.id) && l.health == ReplacePort(check, l.port)
      requires Known(env.trace, l, check)
      modifies env`trace, env`clock
      ensures Core() && StepOf(l.id, old(Snap()), Snap())
      ensures err.None? ==> Proven(env.trace, l, check)
      ensures env.trace == Then(old(env.trace), Probed(l.id, ProbeURL(check, l.port), err != Some(Fault)))
      ensures err.None? ==> !ExpiredAt(env.clock, l.expiresAt)
      ensures err == Some(NotFound) ==> ExpiredAt(env.clock, l.expiresAt)
      ensures err.None? || err.value in {NotFound, Fault}
      ensures old(ConservedBut(l.id, l.process)) ==> ConservedBut(l.id, l.process)
    {
      ghost var w := Snap();
      err := Ask(l, check);
      if err.None? {
        ghost var w1 := Snap();
        var now := Now();
        OutsideStep(l.id, w1, Snap());
        StepTransitive(l.id, w, w1, Snap());
        if ExpiredAt(now, l.expiresAt) {
          err := Some(NotFound);
        }
      }
    }

    /** s.Health.CheckUntil */
    method Ask(l: Link, ghost check: HealthURL) returns (err: Option<Err>)
      requires Core() && Live(repo.links, l.id) && l.health == ReplacePort(check, l.port)
      requires Known(env.trace, l, check)
      modifies env`trace
      ensures Core() && StepOf(l.id, old(Snap()), Snap())
      ensures err.None? ==> Proven(env.trace, l, check)
      ensures env.trace == Then(old(env.trace), Probed(l.id, ProbeURL(check, l.port), err.None?))
      ensures err.None? || err == Some(Fault)
      ensures old(ConservedBut(l.id, l.process)) ==> ConservedBut(l.id, l.process)
    {
      ghost var w := Snap();
      err := env.CheckUntil(l.health, l.id);
      Proves(w.o.trace, l, check);
      QuietStep(l.id, l.process, w, Snap());
    }

    /** Records the identity of a process just started, then probes it. */
    method Raise(sp: Space, l: Link) returns (err: Option<Err>, out: Link)
      requires Core() && Replaces(l) && SamePlan(l, repo.links[l.id].link)
      requires Runs(env.trace, l, l.health)
      modifies repo, env`entries, env`processes, env`reserved, env`trace, env`clock
      ensures Core() && StepOf(l.id, old(Snap()), Snap())
      ensures Raised(baseHost, sp, l, err, out, old(Snap()), Snap())
      ensures old(ConservedBut(l.id, l.process)) ==> Conserved()
    {
      out := l;
      ghost var w0 := Snap();
      err := Record(l);
      ghost var w1 := Snap();
      ghost var probed := l.(health := ReplacePort(l.health, l.port));
      if err.Some? {
        err := FailStart(l, l.port, err.value);
        EndedEarlier(baseHost, sp, l, l, l.health, err, out, w0, w1, Snap());
      } else {
        err, out := Probe(sp, l.(health := ReplacePort(l.health, l.port)), l.health);
        EndedEarlier(baseHost, sp, probed, probed, l.health, err, out, w0, w1, Snap());
      }
      StepTransitive(l.id, w0, w1, Snap());
    }

    /** s.Processes.Start */
    method Spawn(l: Link) returns (err: Option<Err>, id: string)
      requires Core() && Live(repo.links, l.id) && MayStart(env.trace, l)
      modifies env`processes, env`issued, env`trace
      ensures Core() && StepOf(l.id, old(Snap()), Snap())
      ensures err.None? ==>
        && id != "" && id !in old(env.issued) && id !in old(env.processes)
        && env.processes == old(env.processes)[id := l.id] && env.reserved == old(env.reserved)
        && id in env.issued && env.issued[id] == l.id
        && Runs(env.trace, l.(process := id), l.health)
      ensures err.Some? ==> env.Snap() == old(env.Snap())
      ensures old(ConservedBut(l.id, "")) ==> ConservedBut(l.id, if err.None? then id else "")
    {
      ghost var w := Snap();
      err, id := env.Start(l.id, l.port);
      OutsideStep(l.id, w, Snap());
      SoundOutside(repo.links, w.o, env.Snap());
      if err.None? && AgreeBut(l.id, "", repo.links, repo.lostSaves, w.o) {
        StartedAgrees(l.id, id, repo.links, repo.lostSaves, w.o, env.Snap());
      }
    }

    /** Starts the process of a recorded link whose port was just released. */
    method Launch(sp: Space, l: Link) returns (err: Option<Err>, out: Link)
      requires Core() && Replaces(l) && SamePlan(l, repo.links[l.id].link) && l.process == ""
      requires l.port != 0 && l.port !in env.reserved && MayStart(env.trace, l)
      modifies repo, env`entries, env`processes, env`issued, env`reserved, env`trace, env`clock
      ensures Core() && StepOf(l.id, old(Snap()), Snap())
      ensures Concluded(baseHost, sp, l, old(env.reserved), err, out, old(Snap()), Snap())
      ensures old(ConservedBut(l.id, "")) ==> Conserved()
    {
      out := l;
      ghost var w0 := Snap();
      assert env.reserved - {l.port} == env.reserved;
      var e, id := Spawn(l);
      ghost var w1 := Snap();
      if e.Some? {
        err := FailStart(l, l.port, e.value);
        ConcludesEarly(baseHost, sp, l, err, out, w0, Snap());
      } else {
        err, out := Raise(sp, l.(process := id));
        Concludes(baseHost, sp, l, id, err, out, w0, w1, Snap());
      }
      StepTransitive(l.id, w0, w1, Snap());
    }

    /** s.Ports.Release */
    method Unreserve(id: LinkID, port: nat) returns (err: Option<Err>)
      requires Core() && Live(repo.links, id)
      modifies env`reserved, env`trace
      ensures Core() && StepOf(id, old(Snap()), Snap())
      ensures env.reserved - {port} == old(env.reserved) - {port}
      ensures err.None? ==> env.reserved == old(env.reserved) - {port}
      ensures old(ConservedBut(id, "")) ==> ConservedBut(id, "")
      ensures old(GateOf(env.trace, id).prepared) == Some(port) && err.None? ==>
        GateOf(env.trace, id) == old(GateOf(env.trace, id)).(released := true)
    {
      ghost var w := Snap();
      err := env.Release(port);
      OutsideStep(id, w, Snap());
      SoundOutside(repo.links, w.o, env.Snap());
    }

    /** Hands the reserved port over to the process and launches it. */
    method HandOver(sp: Space, l: Link) returns (err: Option<Err>, out: Link)
      requires Core() && Replaces(l) && SamePlan(l, repo.links[l.id].link) && l.process == "" && l.port != 0
      requires OnRecord(env.trace, l)
      modifies repo, env`entries, env`processes, env`issued, env`reserved, env`trace, env`clock
      ensures Core() && StepOf(l.id, old(Snap()), Snap())
      ensures Concluded(baseHost, sp, l, old(env.reserved) - {l.port}, err, out, old(Snap()), Snap())
      ensures old(ConservedBut(l.id, "")) ==> Conserved()
    {
      out := l;
      ghost var w0 := Snap();
      err := Unreserve(l.id, l.port);
      ghost var w1 := Snap();
      if err.Some? {
        err := FailStart(l, l.port, err.value);
        ConcludesEarly(baseHost, sp, l, err, out, w1, Snap());
      } else {
        err, out := Launch(sp, l);
      }
      StepTransitive(l.id, w0, w1, Snap());
      ConcludedEarlier(baseHost, sp, l, l, w0.o.reserved - {l.port}, err, out, w0, w1, Snap());
    }

    /** Records the port a start was given. */
    method Prepare(sp: Space, l: Link) returns (err: Option<Err>, out: Link)
      requires Core() && Replaces(l) && SamePlan(l, repo.links[l.id].link) && l.process == "" && l.port != 0
      requires l.status == Starting
      modifies repo, env`entries, env`processes, env`issued, env`reserved, env`trace, env`clock
      ensures Core() && StepOf(l.id, old(Snap()), Snap())
      ensures Concluded(baseHost, sp, l, old(env.reserved) - {l.port}, err, out, old(Snap()), Snap())
      ensures old(ConservedBut(l.id, "")) ==> Conserved()
    {
      out := l;
      ghost var w0 := Snap();
      err := Record(l);
      ghost var w1 := Snap();
      if err.Some? {
        err := FailStart(l, l.port, err.value);
        ConcludesEarly(baseHost, sp, l, err, out, w1, Snap());
      } else {
        err, out := HandOver(sp, l);
      }
      StepTransitive(l.id, w0, w1, Snap());
      ConcludedEarlier(baseHost, sp, l, l, w0.o.reserved - {l.port}, err, out, w0, w1, Snap());
    }

    /** s.Ports.Allocate */
    method Reserve(id: LinkID) returns (err: Option<Err>, p: nat)
      requires Core() && Live(repo.links, id)
      modifies env`reserved, env`trace
      ensures Core() && StepOf(id, old(Snap()), Snap())
      ensures err.None? ==> 1 <= p <= MAX_PORT && p !in old(env.reserved) && env.reserved == old(env.reserved) + {p}
      ensures err.Some? ==> env.Snap() == old(env.Snap())
      ensures old(ConservedBut(id, "")) ==> ConservedBut(id, "")
    {
      ghost var w := Snap();
      err, p := env.Allocate();
      OutsideStep(id, w, Snap());
      SoundOutside(repo.links, w.o, env.Snap());
    }

    /** Starts an unexpired link: a port, a record, a process, a probe, a route. */
    method StartInTime(sp: Space, l: Link) returns (err: Option<Err>, out: Link)
      requires Core() && Live(repo.links, l.id) && repo.links[l.id].link == l && l.process == "" && l.port == 0
      modifies repo, env`entries, env`processes, env`issued, env`reserved, env`trace, env`clock
      ensures Core() && StepOf(l.id, old(Snap()), Snap())
      ensures Concluded(baseHost, sp, l, old(env.reserved), err, out, old(Snap()), Snap())
      ensures old(ConservedBut(l.id, "")) ==> Conserved()
    {
      out := l;
      ghost var w0 := Snap();
      assert env.reserved - {0} == env.reserved;
      var e, p := Reserve(l.id);
      ghost var w1 := Snap();
      if e.Some? {
        err := FailStart(l, 0, e.value);
        ConcludesEarly(baseHost, sp, l, err, out, w1, Snap());
        ConcludedEarlier(baseHost, sp, l, l, w0.o.reserved, err, out, w0, w1, Snap());
      } else {
        err, out := Prepare(sp, l.(port := p, status := Starting));
        assert w0.o.reserved + {p} - {p} == w0.o.reserved;
        ConcludedEarlier(baseHost, sp, l, l.(port := p, status := Starting), w0.o.reserved, err, out, w0, w1, Snap());
      }
      StepTransitive(l.id, w0, w1, Snap());
    }

    /** s.now() */
    method Now() returns (t: int)
      requires Core()
      modifies env`clock
      ensures Core() && Onward(old(Snap()), Snap()) && t == env.clock && env.Snap() == old(env.Snap())
    {
      t := env.Now();
    }

    /** Starts a link, unless it has expired. */
    method Start(sp: Space, l: Link) returns (err: Option<Err>, out: Link)
      requires Core() && Live(repo.links, l.id) && repo.links[l.id].link == l && l.process == "" && l.port == 0
      modifies repo, env`entries, env`processes, env`issued, env`reserved, env`trace, env`clock
      ensures Core() && StepOf(l.id, old(Snap()), Snap())
      ensures if err == Some(NotFound) then ExpiredAt(env.clock, l.expiresAt) && env.Snap() == old(env.Snap())
              else Concluded(baseHost, sp, l, old(env.reserved), err, out, old(Snap()), Snap())
      ensures old(Conserved() && Exited(l.id)) ==> (Conserved() <==> !OrphanedBy(l.id, old(Snap()), Snap()))
      ensures SamePlan(l, repo.links[l.id].link) && (err == Some(NotFound) || Live(repo.links, l.id))
      ensures err == Some(NotFound) && repo.faults == old(repo.faults) ==> repo.links[l.id].deleted
      ensures StraysStay(l.id, "", old(Snap()), Snap())
    {
      out := l;
      ghost var w0 := Snap();
      var now := Now();
      ghost var w1 := Snap();
      OutsideStep(l.id, w0, w1);
      if ExpiredAt(now, l.expiresAt) {
        var ignored := Archive(l.id);
        err := Some(NotFound);
      } else {
        AgreeIdle(l.id, "", repo.links, repo.lostSaves, env.Snap());
        err, out := StartInTime(sp, l);
        ConcludedSince(baseHost, sp, l, w0.o.reserved, err, out, w0, w1, Snap());
      }
      StepTransitive(l.id, w0, w1, Snap());
    }

    // -------------------------------------------------- who may do what

    /** s.authenticate */
    method Authenticate(alias: string, verified: bool) returns (err: Option<Err>, sp: Space)
      requires Core()
      modifies repo`faults, env`clock
      ensures Core() && Onward(old(Snap()), Snap()) && env.Snap() == old(env.Snap())
      ensures err.None? ==>
        && LiveSpace(repo.spaces, sp.id) && repo.spaces[sp.id].space == sp && sp.alias == alias
        && verified && !ExpiredAt(env.clock, sp.expiresAt)
      ensures err == Some(NotFound) ==> forall id :: LiveSpace(repo.spaces, id) && repo.spaces[id].space.alias == alias ==>
        ExpiredAt(env.clock, repo.spaces[id].space.expiresAt)
      ensures err == Some(Unauthorized) ==> !verified
      ensures err.None? || err.value in {NotFound, Unauthorized, Fault}
      ensures repo.faults == old(repo.faults) + if err == Some(Fault) then 1 else 0
    {
      err, sp := repo.FindSpaceByAlias(alias);
      if err.None? {
        var now := Now();
        if ExpiredAt(now, sp.expiresAt) {
          err := Some(NotFound);
        } else if !verified {
          err := Some(Unauthorized);
        }
      }
    }

    /** s.linkAuth; on some errors the space is known all the same. */
    method LinkAuth(c: Caller, name: Label) returns (err: Option<Err>, sp: Option<Space>, l: Option<Link>)
      requires Core()
      modifies repo`faults, env`clock
      ensures Core() && Onward(old(Snap()), Snap()) && env.Snap() == old(env.Snap())
      ensures err.None? || err.value in {Err.Validation, NotFound, Unauthorized, Fault}
      ensures err.None? <==> l.Some?
      ensures sp.Some? ==>
        && c.alias.ok && c.verified
        && LiveSpace(repo.spaces, sp.value.id) && repo.spaces[sp.value.id].space == sp.value
        && sp.value.alias == c.alias.text && (c.admin || !ExpiredAt(env.clock, sp.value.expiresAt))
      ensures err.None? ==>
        && sp.Some? && name.ok && Live(repo.links, l.value.id) && repo.links[l.value.id] == LinkRow(l.value, false)
        && l.value.space == sp.value.id && l.value.name == name.text
      ensures err == Some(NotFound) && sp.Some? ==>
        name.ok && forall id :: Live(repo.links, id) ==> !Called(repo.links[id], sp.value.id, name.text)
      ensures Welcome(c, name, repo.spaces, env.clock) && repo.faults == old(repo.faults) ==>
        sp.Some? && (err.None? || err == Some(NotFound))
      ensures repo.faults >= old(repo.faults)
    {
      err, sp, l := None, None, None;
      var s: Space;
      if !c.alias.ok {
        err := Some(Err.Validation);
      } else if !c.admin {
        err, s := Authenticate(c.alias.text, c.verified);
      } else if !c.verified {
        err := Some(Unauthorized);
      } else {
        err, s := repo.FindSpaceByAlias(c.alias.text);
      }
      if err.Some? {
        return;
      }
      sp := Some(s);
      if !name.ok {
        err := Some(Err.Validation);
        return;
      }
      err, l := repo.FindLink(s.id, name.text);
    }

    // --------------------------------------------------------- operations

    /** The link to delete, or the answer when there is none: a name deleted
        before is deleted. */
    method LookUp(c: Caller, name: Label) returns (err: Option<Err>, l: Option<Link>, ghost space: SpaceID)
      requires Core()
      modifies repo`faults, env`clock
      ensures Core() && Onward(old(Snap()), Snap()) && env.Snap() == old(env.Snap())
      ensures l.Some? ==> err.None? && l.value.space == space && l.value.name == name.text && Live(repo.links, l.value.id)
                          && repo.links[l.value.id].link == l.value
      ensures err.None? ==> LiveSpace(repo.spaces, space) && repo.spaces[space].space.alias == c.alias.text
      ensures err.None? && l.None? ==>
        && Taken(repo.links, space, name.text)
        && forall id :: Live(repo.links, id) ==> !Called(repo.links[id], space, name.text)
      ensures forall id :: id in repo.links && repo.links[id].deleted && Repeated(c, name, repo.links[id], repo.spaces, env.clock) ==>
        l.None? && (repo.faults == old(repo.faults) ==> err.None?)
    {
      var sp: Option<Space>;
      err, sp, l := LinkAuth(c, name);
      space := if sp.Some? then sp.value.id else "";
      if err == Some(NotFound) && sp.Some? && name.ok {
        var deleted: bool;
        err, deleted := repo.LinkDeleted(sp.value.id, name.text);
        if err.None? && !deleted {
          err := Some(NotFound);
        }
      }
    }

    method DeleteLink(c: Caller, name: Label, reason: string) returns (err: Option<Err>, ghost space: SpaceID)
      requires Core()
      modifies this`scheduled, repo, env`entries, env`processes, env`reserved, env`trace, env`clock
      ensures Core() && Onward(old(Snap()), Snap())
      ensures old(Conserved()) ==> Conserved()
      ensures err.None? ==>
        && LiveSpace(repo.spaces, space) && repo.spaces[space].space.alias == c.alias.text
        && Taken(repo.links, space, name.text)
        && forall id :: Live(repo.links, id) ==> !Called(repo.links[id], space, name.text)
      ensures forall id :: id in old(repo.links) && old(repo.links)[id].deleted
                           && Repeated(c, name, old(repo.links)[id], old(repo.spaces), env.clock) ==>
        && repo.links == old(repo.links) && env.Snap() == old(env.Snap())
        && (repo.faults == old(repo.faults) ==> err.None?)
      ensures PlansOf(repo.links) == old(PlansOf(repo.links))
    {
      var l: Option<Link>;
      err, l, space := LookUp(c, name);
      if l.Some? {
        ghost var w := Snap();
        err := Discard(l.value, reason);
        OnwardTransitive(old(Snap()), w, Snap());
        StillBut(l.value.id, w.links, repo.links);
      }
    }

    method Discard(l: Link, reason: string) returns (err: Option<Err>)
      requires Core() && Live(repo.links, l.id) && repo.links[l.id].link == l
      modifies this`scheduled, repo, env`entries, env`processes, env`reserved, env`trace
      ensures Core() && StepOf(l.id, old(Snap()), Snap())
      ensures old(Conserved()) ==> Conserved()
      ensures err.None? ==> repo.links[l.id] == Tombstone(l) && Retired(l, env.Snap())
                            && Taken(repo.links, l.space, l.name)
                            && forall id :: Live(repo.links, id) ==> !Called(repo.links[id], l.space, l.name)
      ensures err.None? ==> l.id !in scheduled
      ensures SamePlan(l, repo.links[l.id].link)
    {
      var audited: bool := *;
      if !Blank(reason) && !audited {
        return Some(Fault);
      }
      err := Destroy(l, Deleted);
      if err.None? {
        ArchivedForever(repo.links, repo.links, l.id);
      }
    }

    method RestartLink(c: Caller, name: Label, reason: string)
      returns (err: Option<Err>, out: Link, ghost sp: Option<Space>, ghost l: Option<Link>)
      requires Core()
      modifies this`scheduled, repo, env`entries, env`processes, env`issued, env`reserved, env`trace, env`clock
      ensures Core() && Onward(old(Snap()), Snap())
      ensures old(Conserved()) ==> Conserved()
      ensures err.None? || err.value.StartupFailed? ==>
        && sp.Some? && LiveSpace(old(repo.spaces), sp.value.id) && old(repo.spaces)[sp.value.id].space == sp.value
        && sp.value.alias == c.alias.text
        && l.Some? && Live(old(repo.links), l.value.id) && old(repo.links)[l.value.id].link == l.value
        && l.value.space == sp.value.id && l.value.name == name.text
        && Renewed(baseHost, sp.value, l.value, err, out, old(Snap()), Snap())
      ensures PlansOf(repo.links) == old(PlansOf(repo.links))
    {
      var s: Option<Space>, found: Option<Link>;
      err, s, found := LinkAuth(c, name);
      sp, l, out := s, found, Link("", "", "", Failed, "", "", [], 0, 0, 0, "", false, 0, 0);
      if err.None? {
        ghost var w := Snap();
        err, out := Restart(s.value, found.value, reason);
        OnwardTransitive(old(Snap()), w, Snap());
        StillBut(found.value.id, w.links, repo.links);
        if err.None? || err.value.StartupFailed? {
          RenewedEarlier(baseHost, sp.value, l.value, err, out, old(Snap()), w, Snap());
        }
      }
    }

    method Restart(sp: Space, l: Link, reason: string) returns (err: Option<Err>, out: Link)
      requires Core() && Live(repo.links, l.id) && repo.links[l.id].link == l
      modifies this`scheduled, repo, env`entries, env`processes, env`issued, env`reserved, env`trace, env`clock
      ensures Core() && StepOf(l.id, old(Snap()), Snap())
      ensures old(Conserved()) ==> Conserved()
      ensures err.None? ==> Renewed(baseHost, sp, l, err, out, old(Snap()), Snap())
      ensures err.Some? && err.value.StartupFailed? ==> Renewed(baseHost, sp, l, err, out, old(Snap()), Snap())
      ensures SamePlan(l, repo.links[l.id].link)
    {
      out := l;
      ghost var w0 := Snap();
      var now := Now();
      ghost var w1 := Snap();
      OutsideStep(l.id, w0, w1);
      if ExpiredAt(now, l.expiresAt) {
        var ignored := Destroy(l, Expired);
        err := Some(NotFound);
      } else {
        var audited: bool := *;
        if !Blank(reason) && !audited {
          err := Some(Fault);
        } else {
          err, out := Replace(sp, l);
        }
      }
      StepTransitive(l.id, w0, w1, Snap());
    }

    /** Takes the old process away and starts a new one. */
    method Replace(sp: Space, l: Link) returns (err: Option<Err>, out: Link)
      requires Core() && Live(repo.links, l.id) && repo.links[l.id].link == l
      modifies repo, env`entries, env`processes, env`issued, env`reserved, env`trace, env`clock
      ensures Core() && StepOf(l.id, old(Snap()), Snap())
      ensures old(Conserved()) ==> Conserved()
      ensures err.None? || err.value.StartupFailed? ==> Renewed(baseHost, sp, l, err, out, old(Snap()), Snap())
      ensures SamePlan(l, repo.links[l.id].link)
    {
      out := l;
      ghost var w0 := Snap();
      err := DestroyForRestart(l);
      if err.None? {
        ghost var w1 := Snap();
        err, out := Renew(sp, l);
        StepTransitive(l.id, w0, w1, Snap());
        if err.None? || err.value.StartupFailed? {
          RenewedFrom(baseHost, sp, l, err, out, w0, w1, Snap());
        }
      }
    }

    method DestroyForRestart(l: Link) returns (err: Option<Err>)
      requires Core() && Live(repo.links, l.id) && repo.links[l.id].link == l
      modifies repo, env`entries, env`processes, env`reserved, env`trace
      ensures Core() && StepOf(l.id, old(Snap()), Snap())
      ensures err.None? ==> repo.links == old(repo.links) && TakenAway(l.id, l.process, l.port, old(env.Snap()), env.Snap())
      ensures old(Conserved()) ==> Conserved() && (err.None? ==> NothingLeft(l.id))
      ensures err.None? || err == Some(Internal)
      ensures SamePlan(l, repo.links[l.id].link)
    {
      if Conserved() {
        AgreeOwn(l, repo.links, repo.lostSaves, env.Snap());
      }
      ghost var w0 := Snap();
      var e := Compensate(l, l.port);
      err := None;
      if e.Some? {
        ghost var w1 := Snap();
        var saveErr := Record(l.(status := Failed));
        err := Some(Internal);
        StepTransitive(l.id, w0, w1, Snap());
      }
    }

    /** Records a link as new and starts it. */
    method Renew(sp: Space, l: Link) returns (err: Option<Err>, out: Link)
      requires Core() && Live(repo.links, l.id) && repo.links[l.id].link == l
      modifies repo, env`entries, env`processes, env`issued, env`reserved, env`trace, env`clock
      ensures Core() && StepOf(l.id, old(Snap()), Snap())
      ensures old(Conserved() && NothingLeft(l.id)) ==> Conserved()
      ensures err.None? || err.value.StartupFailed? ==>
        Concluded(baseHost, sp, l.(status := Creating, process := "", port := 0), old(env.reserved), err, out, old(Snap()), Snap())
      ensures SamePlan(l, repo.links[l.id].link)
    {
      var renewed := l.(status := Creating, process := "", port := 0);
      out := renewed;
      AgreeIdle(l.id, "", repo.links, repo.lostSaves, env.Snap());
      ghost var w0 := Snap();
      err := Record(renewed);
      if err.None? {
        ghost var w1 := Snap();
        err, out := Start(sp, renewed);
        StepTransitive(l.id, w0, w1, Snap());
        ConcludedSince(baseHost, sp, renewed, w0.o.reserved, err, out, w0, w1, Snap());
      }
    }

    method CreateSpace(id: SpaceID, alias: Label, ttl: int) returns (err: Option<Err>)
      requires Core()
      modifies repo, env`clock
      ensures Core() && Onward(old(Snap()), Snap()) && env.Snap() == old(env.Snap())
      ensures old(Conserved()) ==> Conserved()
      ensures err.None? ==>
        && LiveSpace(repo.spaces, id) && repo.spaces[id].space.alias == alias.text
        && MIN_TTL <= repo.spaces[id].space.expiresAt - env.clock <= MAX_TTL
      ensures PlansStill(old(repo.links), repo.links)
    {
      var d := OrDefault(ttl, DEFAULT_TTL);
      if !(MIN_TTL <= d <= MAX_TTL) || !alias.ok {
        return Some(Err.Validation);
      }
      var now := Now();
      err := repo.CreateSpace(Space(id, alias.text, now + d));
    }

    /** Validates the request and inserts the record; nothing outside the database happens. */
    method Insert(i: CreateLinkInput, id: LinkID) returns (err: Option<Err>, sp: Space, l: Option<Link>)
      requires Core() && id != ""
      modifies repo, env`clock
      ensures Core() && Onward(old(Snap()), Snap()) && env.Snap() == old(env.Snap())
      ensures repo.spaces == old(repo.spaces)
      ensures old(Conserved()) ==> Conserved() && (err.None? ==> NothingLeft(id))
      ensures err.None? <==> l.Some?
      ensures err.None? ==>
        && LiveSpace(repo.spaces, sp.id) && repo.spaces[sp.id].space == sp && sp.alias == i.alias.text
        && id !in old(repo.links) && repo.links == old(repo.links)[id := LinkRow(l.value, false)]
        && WellFormedInput(i) && l.value == NewLink(i, id, sp, env.clock)
      ensures err == Some(Conflict) ==> repo.links == old(repo.links)
      ensures err.None? || err.value in {Err.Validation, Conflict, NotFound, Unauthorized, Fault}
      ensures forall space | Refused(i, space, old(repo.spaces), old(repo.links), env.clock) ::
        err.Some? && repo.links == old(repo.links)
        && (WellFormedInput(i) && i.verified && repo.faults == old(repo.faults) ==> err == Some(Conflict))
      ensures PlansStill(old(repo.links), repo.links)
    {
      l := None;
      if !i.alias.ok {
        err, sp := Some(Err.Validation), Space("", "", 0);
        return;
      }
      err, sp := Authenticate(i.alias.text, i.verified);
      if err.Some? {
        return;
      }
      if !WellFormedInput(i) {
        err := Some(Err.Validation);
        return;
      }
      err, l := InsertInto(i, id, sp);
    }

    method InsertInto(i: CreateLinkInput, id: LinkID, sp: Space) returns (err: Option<Err>, l: Option<Link>)
      requires Core() && id != "" && WellFormedInput(i)
      requires LiveSpace(repo.spaces, sp.id) && repo.spaces[sp.id].space == sp
      modifies repo, env`clock
      ensures Core() && Onward(old(Snap()), Snap()) && env.Snap() == old(env.Snap())
      ensures repo.spaces == old(repo.spaces)
      ensures old(Conserved()) ==> Conserved() && (err.None? ==> NothingLeft(id))
      ensures err.None? <==> l.Some?
      ensures err.None? ==>
        && id !in old(repo.links) && repo.links == old(repo.links)[id := LinkRow(l.value, false)]
        && l.value == NewLink(i, id, sp, env.clock)
      ensures err == Some(Conflict) ==> repo.links == old(repo.links)
      ensures Taken(old(repo.links), sp.id, i.name.text) ==>
        err.Some? && repo.links == old(repo.links) && (repo.faults == old(repo.faults) ==> err == Some(Conflict))
      ensures err.None? || err.value in {Conflict, Fault}
      ensures repo.faults >= old(repo.faults)
      ensures PlansStill(old(repo.links), repo.links)
    {
      ghost var w0 := Snap();
      var now := Now();
      var link := NewLink(i, id, sp, now);
      ghost var w1 := Snap();
      err := Enlist(link);
      l := if err.None? then Some(link) else None;
      OnwardTransitive(w0, w1, Snap());
    }

    /** s.Repo.CreateLink */
    method Enlist(l: Link) returns (err: Option<Err>)
      requires Core() && l.id != "" && l.process == "" && l.port == 0
      requires LiveSpace(repo.spaces, l.space) && l.expiresAt <= repo.spaces[l.space].space.expiresAt
      modifies repo
      ensures Core() && Onward(old(Snap()), Snap())
      ensures Snap() == old(Snap()).(links := repo.links, faults := repo.faults)
      ensures old(Conserved()) ==> Conserved() && (err.None? ==> NothingLeft(l.id))
      ensures err.None? ==> l.id !in old(repo.links) && repo.links == old(repo.links)[l.id := LinkRow(l, false)]
      ensures err == Some(Conflict) ==> repo.links == old(repo.links)
      ensures Taken(old(repo.links), l.space, l.name) ==>
        err.Some? && repo.links == old(repo.links) && (repo.faults == old(repo.faults) ==> err == Some(Conflict))
      ensures err.None? || err.value in {Conflict, Fault}
      ensures repo.faults >= old(repo.faults)
      ensures PlansStill(old(repo.links), repo.links)
    {
      ghost var w := Snap();
      err := repo.CreateLink(l);
      InsertStep(l, w, Snap());
    }

    method CreateLink(i: CreateLinkInput, id: LinkID)
      returns (err: Option<Err>, out: Link, sp: Space, ghost at: int)
      requires Core() && id != ""
      modifies repo, env`entries, env`processes, env`issued, env`reserved, env`trace, env`clock
      ensures Core() && Onward(old(Snap()), Snap())
      ensures old(Conserved()) ==> Conserved()
      ensures old(env.clock) <= at <= env.clock
      ensures err.None? || err.value.StartupFailed? ==>
        && LiveSpace(old(repo.spaces), sp.id) && old(repo.spaces)[sp.id].space == sp && sp.alias == i.alias.text
        && WellFormedInput(i) && id !in old(repo.links)
        && Concluded(baseHost, sp, NewLink(i, id, sp, at), old(env.reserved), err, out, old(Snap()), Snap())
      ensures err == Some(Conflict) ==> repo.links == old(repo.links) && env.Snap() == old(env.Snap())
      ensures forall space | Refused(i, space, old(repo.spaces), old(repo.links), at) ::
        err.Some? && repo.links == old(repo.links) && env.Snap() == old(env.Snap())
        && (WellFormedInput(i) && i.verified && repo.faults == old(repo.faults) ==> err == Some(Conflict))
      ensures PlansStill(old(repo.links), repo.links)
    {
      ghost var w0 := Snap();
      var l: Option<Link>;
      err, sp, l := Insert(i, id);
      at, out := env.clock, Link(id, "", "", Creating, "", "", [], 0, 0, 0, "", false, 0, 0);
      if err.None? {
        ghost var w1 := Snap();
        err, out := Start(sp, l.value);
        OnwardTransitive(w0, w1, Snap());
        InsertedStill(id, w0.links, w1.links, repo.links);
        if err != Some(NotFound) {
          ConcludedEarlier(baseHost, sp, l.value, l.value, w0.o.reserved, err, out, w0, w1, Snap());
        }
      }
    }

    // ------------------------------------------------------------- sweeping

    /** One link of a batch. */
    method DestroyNext(batch: seq<Link>, i: nat, ghost ids: set<LinkID>, terminal: Status, ghost w0: Worlds,
                       ghost timers: map<LinkID, int>) returns (err: Option<Err>)
      requires Core() && i < |batch| && Enumerates(batch, ids, w0.links) && AllLive(ids, w0.links)
      requires Reduced(w0, Snap()) && (forall x :: x in w0.links ==> w0.links[x].link.id == x)
      requires Swept(w0.links, repo.links, LinkIDs(batch[..i]), env.Snap()) && scheduled == timers - LinkIDs(batch[..i])
      modifies this`scheduled, repo, env`entries, env`processes, env`reserved, env`trace
      ensures Core() && Reduced(w0, Snap())
      ensures old(Conserved()) ==> Conserved()
      ensures err.None? ==>
        Swept(w0.links, repo.links, LinkIDs(batch[..i + 1]), env.Snap()) && scheduled == timers - LinkIDs(batch[..i + 1])
      ensures err.None? || err.value in {Internal, Fault}
      ensures PlansOf(repo.links) == old(PlansOf(repo.links))
    {
      ghost var w := Snap();
      NextOfBatch(batch, i, ids, w0.links, repo.links);
      var e := Destroy(batch[i], terminal);
      err := if e == Some(NotFound) then None else e;
      ReducedMore(batch[i].id, w0, w, Snap());
      StillBut(batch[i].id, w.links, repo.links);
      if err.None? {
        SweptMore(w0.links, w, Snap(), LinkIDs(batch[..i]), batch[i].id);
        CancelledMore(timers, LinkIDs(batch[..i]), batch[i].id);
      }
    }

    /** Destroys a batch of links, stopping at the first failure. */
    method DestroyAll(batch: seq<Link>, ghost ids: set<LinkID>, terminal: Status) returns (err: Option<Err>)
      requires Core() && Enumerates(batch, ids, repo.links) && AllLive(ids, repo.links)
      modifies this`scheduled, repo, env`entries, env`processes, env`reserved, env`trace
      ensures Core() && Onward(old(Snap()), Snap()) && repo.spaces == old(repo.spaces)
      ensures old(Conserved()) ==> Conserved()
      ensures env.processes.Keys <= old(env.processes).Keys && env.reserved <= old(env.reserved)
      ensures err.None? ==> Swept(old(repo.links), repo.links, ids, env.Snap()) && scheduled == old(scheduled) - ids
      ensures err.None? || err.value in {Internal, Fault}
      ensures batch == [] ==> err.None? && Snap() == old(Snap())
      ensures PlansOf(repo.links) == old(PlansOf(repo.links))
    {
      ghost var w0 := Snap();
      err := None;
      assert batch[..0] == [];
      for i := 0 to |batch|
        invariant Core() && Reduced(w0, Snap()) && PlansOf(repo.links) == PlansOf(w0.links)
        invariant Agree(w0.links, w0.lostSaves, w0.o) ==> Conserved()
        invariant Swept(w0.links, repo.links, LinkIDs(batch[..i]), env.Snap())
        invariant scheduled == old(scheduled) - LinkIDs(batch[..i])
        invariant err.None? && (i == 0 ==> Snap() == w0)
      {
        err := DestroyNext(batch, i, ids, terminal, w0, old(scheduled));
        if err.Some? {
          return;
        }
      }
      assert batch[..|batch|] == batch;
    }

    /** Archives an expired space; by now it houses no live link. */
    method SweepSpace(sp: Space, now: int) returns (err: Option<Err>, ghost found: nat)
      requires Core() && NoLinkExpired(repo.links, now)
      requires sp.id in repo.spaces && ExpiredAt(now, repo.spaces[sp.id].space.expiresAt)
      modifies this`scheduled, repo, env`entries, env`processes, env`reserved, env`trace
      ensures Core() && repo.links == old(repo.links) && repo.lostSaves == old(repo.lostSaves)
      ensures env.Snap() == old(env.Snap())
      ensures SpacesEvolve(old(repo.spaces), repo.spaces) && repo.spaces.Keys == old(repo.spaces).Keys
      ensures repo.faults >= old(repo.faults)
      ensures err.None? ==> !LiveSpace(repo.spaces, sp.id)
      ensures found == 0
      ensures err.None? || err == Some(Fault)
    {
      found := 0;
      ExpiredSpaceIsEmpty(repo.spaces, repo.links, sp.id, now);
      var ls: seq<Link>;
      err, ls := repo.ListLinks(sp.id);
      if err.None? {
        found := |ls|;
        EmptyBatch(ls);
        err := DestroyAll(ls, {}, Expired);
        if err.Some? {
          return;
        }
        EmptySpaceArchives(repo.links, sp.id);
        err := repo.DeleteSpace(sp.id);
      }
    }

    method SweepSpaces(now: int) returns (err: Option<Err>, ghost found: nat)
      requires Core() && NoLinkExpired(repo.links, now)
      modifies this`scheduled, repo, env`entries, env`processes, env`reserved, env`trace
      ensures Core() && repo.links == old(repo.links) && repo.lostSaves == old(repo.lostSaves)
      ensures env.Snap() == old(env.Snap())
      ensures SpacesEvolve(old(repo.spaces), repo.spaces) && repo.faults >= old(repo.faults)
      ensures err.None? ==> NoSpaceExpired(repo.spaces, now)
      ensures found == 0
      ensures err.None? || err == Some(Fault)
    {
      found := 0;
      var spaces: seq<Space>;
      ghost var before := repo.spaces;
      err, spaces := repo.ExpiredSpaces(now);
      if err.Some? {
        return;
      }
      for i := 0 to |spaces|
        invariant Core() && repo.links == old(repo.links) && repo.lostSaves == old(repo.lostSaves)
        invariant env.Snap() == old(env.Snap())
        invariant SpacesEvolve(before, repo.spaces) && repo.spaces.Keys == before.Keys
        invariant repo.faults >= old(repo.faults)
        invariant Closed(repo.spaces, spaces, i)
        invariant err.None? && found == 0
      {
        assert spaces[i].id in SpaceIDs(spaces);
        ghost var here := repo.spaces;
        err, found := SweepSpace(spaces[i], now);
        if err.Some? {
          return;
        }
        ClosedMore(here, repo.spaces, spaces, i);
      }
      SpacesSwept(before, repo.spaces, spaces, now);
    }

    /** Destroys every expired link. */
    method SweepLinks(now: int) returns (err: Option<Err>)
      requires Core()
      modifies this`scheduled, repo, env`entries, env`processes, env`reserved, env`trace
      ensures Core() && Onward(old(Snap()), Snap()) && repo.spaces == old(repo.spaces)
      ensures old(Conserved()) ==> Conserved()
      ensures env.processes.Keys <= old(env.processes).Keys && env.reserved <= old(env.reserved)
      ensures err.None? ==> NoLinkExpired(repo.links, now)
      ensures err.None? ==> Swept(old(repo.links), repo.links, ExpiredIn(old(repo.links), now), env.Snap())
      ensures err.None? || err.value in {Internal, Fault}
      ensures PlansOf(repo.links) == old(PlansOf(repo.links))
    {
      var links: seq<Link>;
      err, links := repo.ExpiredLinks(now);
      if err.None? {
        err := DestroyAll(links, ExpiredIn(repo.links, now), Expired);
      }
    }

    /** s.cleanupLocked; `at` is its reading of the clock, `found` counts the links its second sweep came upon. */
    method Cleanup() returns (err: Option<Err>, ghost at: int, ghost found: nat)
      requires Core()
      modifies this`scheduled, repo, env`entries, env`processes, env`reserved, env`trace, env`clock
      ensures Core() && Onward(old(Snap()), Snap())
      ensures old(Conserved()) ==> Conserved()
      ensures env.processes.Keys <= old(env.processes).Keys && env.reserved <= old(env.reserved)
      ensures old(env.clock) <= at <= env.clock
      ensures err.None? ==> NoLinkExpired(repo.links, at) && NoSpaceExpired(repo.spaces, at)
      ensures err.None? ==> Swept(old(repo.links), repo.links, ExpiredIn(old(repo.links), at), env.Snap())
      ensures found == 0
      ensures err.None? || err.value in {Internal, Fault}
      ensures PlansOf(repo.links) == old(PlansOf(repo.links))
    {
      found := 0;
      ghost var w0 := Snap();
      var now := Now();
      at := now;
      ghost var w1 := Snap();
      err := SweepLinks(now);
      OnwardTransitive(w0, w1, Snap());
      if err.None? {
        ghost var w2 := Snap();
        err, found := SweepSpaces(now);
        SpacesStep(w2, Snap());
        OnwardTransitive(w0, w2, Snap());
      }
    }

    // -------------------------------------------------------- space removal

    /** Deletes a space after all its links. An administrator forces it with a
        reason, everyone else presents the space's token. */
    method DeleteSpace(c: Caller, reason: string) returns (err: Option<Err>, ghost id: SpaceID)
      requires Core()
      modifies this`scheduled, repo, env`entries, env`processes, env`reserved, env`trace, env`clock
      ensures Core() && Onward(old(Snap()), Snap())
      ensures old(Conserved()) ==> Conserved()
      ensures err.None? ==>
        && LiveSpace(old(repo.spaces), id) && old(repo.spaces)[id].space.alias == c.alias.text
        && !LiveSpace(repo.spaces, id)
        && Swept(old(repo.links), repo.links, LinksIn(old(repo.links), id), env.Snap())
      ensures PlansOf(repo.links) == old(PlansOf(repo.links))
    {
      id := "";
      if !c.alias.ok {
        return Some(Err.Validation), "";
      }
      var sp: Space;
      err, sp := repo.FindSpaceByAlias(c.alias.text);
      if err.Some? {
        return;
      }
      id := sp.id;
      var audited: bool := *;
      if c.admin && Blank(reason) {
        err := Some(Err.Validation);
      } else if c.admin && !audited {
        err := Some(Fault);
      } else if !c.admin && !c.verified {
        err := Some(Unauthorized);
      } else {
        err := RemoveSpace(sp);
      }
    }

    method RemoveSpace(sp: Space) returns (err: Option<Err>)
      requires Core() && LiveSpace(repo.spaces, sp.id)
      modifies this`scheduled, repo, env`entries, env`processes, env`reserved, env`trace, env`clock
      ensures Core() && Onward(old(Snap()), Snap())
      ensures old(Conserved()) ==> Conserved()
      ensures err.None? ==>
        !LiveSpace(repo.spaces, sp.id) && Swept(old(repo.links), repo.links, LinksIn(old(repo.links), sp.id), env.Snap())
      ensures PlansOf(repo.links) == old(PlansOf(repo.links))
    {
      ghost var w0 := Snap();
      var links: seq<Link>;
      err, links := repo.ListLinks(sp.id);
      if err.None? {
        err := DestroyAll(links, LinksIn(repo.links, sp.id), Deleted);
        if err.None? {
          SweptSpaceIsEmpty(w0.links, repo.links, sp.id, env.Snap());
          EmptySpaceArchives(repo.links, sp.id);
          ghost var w1 := Snap();
          err := repo.DeleteSpace(sp.id);
          SpacesStep(w1, Snap());
          OnwardTransitive(w0, w1, Snap());
        }
      }
    }

    // --------------------------------------------------------------- repair

    /** Is the recorded process alive, and does it answer its probe? */
    method Inspect(l: Link) returns (ok: bool)
      requires Core() && Live(repo.links, l.id)
      modifies env`trace
      ensures Core() && StepOf(l.id, old(Snap()), Snap())
      ensures env.Snap() == old(env.Snap()).(trace := env.trace)
      ensures ok ==> Vouched(old(env.trace), env.trace, l)
      ensures old(Conserved()) ==> Conserved()
    {
      ghost var w := Snap();
      var err, alive := env.Alive(l.process);
      ok := err.None? && alive;
      if ok {
        ghost var t := env.trace;
        var e := env.CheckUntil(ReplacePort(l.health, l.port), l.id);
        ok := e.None?;
        assert Since(w.o.trace, t, AliveSeen(l.process, true));
      }
      OutsideStep(l.id, w, Snap());
      SoundOutside(repo.links, w.o, env.Snap());
    }

    /** The route of a candidate that is fit, or the status it is to be archived with. */
    method Judge(l: Link, at: int) returns (route: Option<Route>, terminal: Status)
      requires Core() && Live(repo.links, l.id) && repo.links[l.id].link == l && !ExpiredAt(at, l.expiresAt)
      modifies repo`faults, env`trace
      ensures Core() && StepOf(l.id, old(Snap()), Snap())
      ensures env.Snap() == old(env.Snap()).(trace := env.trace)
      ensures old(Conserved()) ==> Conserved()
      ensures route.Some? ==> route.value.linkID == l.id && Fit(baseHost, old(Snap()), route.value, at, env.trace)
      ensures route.None? && terminal == Expired ==> repo.faults > old(repo.faults)
    {
      route, terminal := None, Failed;
      if l.status != Active || l.process == "" || l.port == 0 {
        return;
      }
      var ok := Inspect(l);
      if ok {
        route, terminal := Approve(l, at);
      }
    }

    /** The route of a link that is alive and healthy: its space cannot have expired. */
    method Approve(l: Link, at: int) returns (route: Option<Route>, terminal: Status)
      requires Core() && Live(repo.links, l.id) && repo.links[l.id].link == l && !ExpiredAt(at, l.expiresAt)
      modifies repo`faults
      ensures Core() && repo.faults >= old(repo.faults)
      ensures route.None? ==> terminal == Expired && repo.faults > old(repo.faults)
      ensures route.Some? ==> l.space in repo.spaces && route.value == RouteOf(baseHost, repo.spaces[l.space].space, l)
    {
      var err, space := repo.FindSpace(l.space);
      ExpiryDominance(repo.spaces, repo.links, l.id, at);
      route, terminal := None, Expired;
      if err.None? && !ExpiredAt(at, space.expiresAt) {
        route := Some(RouteOf(baseHost, space, l));
      }
    }

    /** Keeps a candidate that is fit, archives one that is not. */
    method Vet(l: Link, at: int) returns (err: Option<Err>, route: Option<Route>)
      requires Core() && Live(repo.links, l.id) && repo.links[l.id].link == l && !ExpiredAt(at, l.expiresAt)
      modifies this`scheduled, repo, env`entries, env`processes, env`reserved, env`trace
      ensures Core() && StepOf(l.id, old(Snap()), Snap())
      ensures old(Conserved()) ==> Conserved()
      ensures env.processes.Keys <= old(env.processes).Keys && env.reserved <= old(env.reserved)
      ensures route.Some? ==>
        && err.None? && repo.links == old(repo.links) && env.Snap() == old(env.Snap()).(trace := env.trace)
        && route.value.linkID == l.id && Fit(baseHost, old(Snap()), route.value, at, env.trace)
      ensures route.None? && err.None? ==> repo.links[l.id] == Tombstone(l) && Retired(l, env.Snap())
      ensures err.None? || err.value in {Internal, Fault}
      ensures SamePlan(l, repo.links[l.id].link)
    {
      ghost var w0 := Snap();
      err := None;
      var terminal: Status;
      route, terminal := Judge(l, at);
      if route.None? {
        ghost var w1 := Snap();
        err := Destroy(l, terminal);
        StepTransitive(l.id, w0, w1, Snap());
      }
    }

    /** Vets every candidate, collecting the routes of the fit ones. */
    method VetAll(batch: seq<Link>, ghost ids: set<LinkID>, at: int) returns (err: Option<Err>, desired: seq<Route>)
      requires Core() && Enumerates(batch, ids, repo.links) && AllLive(ids, repo.links)
      requires forall id :: id in ids ==> !ExpiredAt(at, repo.links[id].link.expiresAt)
      modifies this`scheduled, repo, env`entries, env`processes, env`reserved, env`trace
      ensures Core() && Onward(old(Snap()), Snap()) && repo.spaces == old(repo.spaces)
      ensures old(Conserved()) ==> Conserved()
      ensures env.processes.Keys <= old(env.processes).Keys && env.reserved <= old(env.reserved)
      ensures err.None? ==> Vetted(baseHost, old(Snap()), ids, desired, at, Snap())
      ensures err.None? || err.value in {Internal, Fault}
      ensures PlansOf(repo.links) == old(PlansOf(repo.links))
    {
      ghost var w0 := Snap();
      err, desired := None, [];
      assert batch[..0] == [];
      for i := 0 to |batch|
        invariant Core() && Onward(w0, Snap()) && repo.spaces == w0.spaces && PlansOf(repo.links) == PlansOf(w0.links)
        invariant Agree(w0.links, w0.lostSaves, w0.o) ==> Conserved()
        invariant env.processes.Keys <= old(env.processes).Keys && env.reserved <= old(env.reserved)
        invariant Vetted(baseHost, w0, LinkIDs(batch[..i]), desired, at, Snap())
        invariant err.None?
      {
        ghost var w := Snap();
        NextCandidate(baseHost, w0, batch, i, ids, desired, at, w);
        var route: Option<Route>;
        err, route := Vet(batch[i], at);
        OnwardTransitive(w0, w, Snap());
        StillBut(batch[i].id, w.links, repo.links);
        if err.Some? && err != Some(NotFound) {
          return;
        }
        if route.Some? {
          FitSince(baseHost, w0, w, route.value, at, env.trace);
          VettedKeep(baseHost, w0, LinkIDs(batch[..i]), desired, at, w, Snap(), route.value);
          desired := desired + [route.value];
        } else {
          VettedDrop(baseHost, w0, LinkIDs(batch[..i]), desired, at, w, Snap(), batch[i].id);
        }
      }
      assert batch[..|batch|] == batch;
    }

    /** s.Proxy.Reconcile with a list the proxy cannot refuse. */
    method Publicize(desired: seq<Route>) returns (err: Option<Err>)
      requires Core() && Admissible(desired, env.loopback)
      requires forall r | r in desired :: Live(repo.links, r.linkID)
      modifies env`entries, env`trace, env`degraded
      ensures Core() && Onward(old(Snap()), Snap())
      ensures old(Conserved()) ==> Conserved()
      ensures env.trace == Then(old(env.trace), ReconcileTried(desired, err.None?, Fragile(old(env.entries), TableOf(desired))))
      ensures err.None? ==> (env.degraded <==> Stuck(old(env.entries), TableOf(desired)))
      ensures old(Conserved()) && !old(env.degraded) ==> RoutesOwned(repo.links, env.Routes())
      ensures err.None? && !env.degraded ==> Tabulates(env.Routes(), desired)
      ensures err.None? || err == Some(Fault)
    {
      ghost var w := Snap();
      var e := env.ReconcileRoutes(desired);
      err := if e.Some? then Some(FromProxy(e.value)) else None;
      SoundOutside(repo.links, w.o, env.Snap());
      if Agree(w.links, w.lostSaves, w.o) {
        PublicizedAgrees(w.links, w.lostSaves, w.o, desired, e, env.Snap());
      }
    }

    /** Sends the routes of the links found fit since `w1`. */
    method PublishFit(fit: seq<Route>, at: int, ghost w1: Worlds) returns (err: Option<Err>)
      requires Core() && RowsOK(w1.spaces, w1.links) && Sound(w1.links, w1.o)
      requires Vetted(baseHost, w1, CandidatesIn(w1.links, at), fit, at, Snap())
      modifies env`entries, env`trace, env`degraded
      ensures Core() && Onward(old(Snap()), Snap())
      ensures old(Conserved()) ==> Conserved()
      ensures old(Conserved()) && !old(env.degraded) ==> RoutesOwned(repo.links, env.Routes())
      ensures Snap() == old(Snap()).(o := env.Snap())
      ensures env.Snap() == old(env.Snap()).(routes := env.Routes(), trace := env.trace, degraded := env.degraded)
      ensures err.None? ==> (env.degraded <==> Stuck(old(env.entries), TableOf(fit)))
      ensures err.None? && !env.degraded ==> Tabulates(env.Routes(), fit)
      ensures err.None? || err == Some(Fault)
    {
      VettedLive(baseHost, w1, CandidatesIn(w1.links, at), fit, at, Snap());
      FitIsAdmissible(baseHost, w1, fit, at, env.trace, env.loopback);
      err := Publicize(fit);
    }

    /** The vetting and publishing half of a repair. */
    method RepairRoutes()
      returns (err: Option<Err>, ghost at: int, ghost w1: Worlds, ghost w2: Worlds, ghost desired: seq<Route>, ghost found: seq<Raw>)
      requires Core()
      modifies this`scheduled, repo, env
      ensures Core() && Onward(old(Snap()), Snap())
      ensures old(Conserved()) ==> Conserved()
      ensures old(Conserved()) && !old(env.degraded) ==> RoutesOwned(repo.links, env.Routes())
      ensures old(env.clock) <= at <= env.clock
      ensures w1.links == old(repo.links) && w1.o == old(env.Snap())
      ensures err.None? ==>
        && Vetted(baseHost, w1, CandidatesIn(w1.links, at), desired, at, w2) && w2.spaces == w1.spaces == repo.spaces
        && Extends(w1.o.trace, w2.o.trace) && Extends(w2.o.trace, env.trace)
        && w2.o.processes.Keys <= w1.o.processes.Keys && w2.o.reserved <= w1.o.reserved
        && repo.links == w2.links && env.processes == w2.o.processes && env.reserved == w2.o.reserved
        && (!env.degraded ==> Tabulates(env.Routes(), desired))
        && (env.degraded <==> Stuck(found, TableOf(desired)))
      ensures err.None? || err.value in {Internal, Fault}
      ensures PlansOf(repo.links) == old(PlansOf(repo.links))
    {
      ghost var w0 := Snap();
      var now := Now();
      at, w1, w2, desired, found := now, Snap(), Snap(), [], env.entries;
      var links: seq<Link>;
      err, links := repo.ReconciliationLinks(now);
      if err.Some? {
        return;
      }
      w1 := Snap();
      var fit: seq<Route>;
      err, fit := VetAll(links, CandidatesIn(repo.links, now), now);
      OnwardTransitive(w0, w1, Snap());
      if err.Some? {
        return;
      }
      w2, desired, found := Snap(), fit, env.entries;
      err := PublishFit(fit, now, w1);
      OnwardTransitive(w0, w2, Snap());
    }

    /** Reconcile repairs the outside world from the database. Even an array that an
        earlier rollback has broken is put right, unless it was stuck as `found`. */
    method Reconcile() returns (err: Option<Err>, ghost at: int, ghost found: seq<Raw>, ghost desired: seq<Route>)
      requires Core()
      modifies this`scheduled, repo, env
      ensures Core() && Onward(old(Snap()), Snap())
      ensures old(Conserved()) ==> Conserved()
      ensures old(Conserved()) && !old(env.degraded) ==> RoutesOwned(repo.links, env.Routes())
      ensures err.None? ==> Repaired(baseHost, old(Snap()), at, Snap())
      ensures err.None? && !env.degraded ==> RoutesOwned(repo.links, env.Routes())
      ensures err.None? ==> (env.degraded <==> Stuck(found, TableOf(desired)))
      ensures old(env.clock) <= at <= env.clock
      ensures err.None? || err.value in {Internal, Fault}
      ensures PlansOf(repo.links) == old(PlansOf(repo.links))
    {
      ghost var w0 := Snap();
      ghost var swept: int, expired: nat;
      err, swept, expired := Cleanup();
      at, found, desired := env.clock, env.entries, [];
      if err.None? {
        ghost var wc := Snap();
        ghost var w1: Worlds, w2: Worlds;
        err, at, w1, w2, desired, found := RepairRoutes();
        OnwardTransitive(w0, wc, Snap());
        if err.None? {
          RowsSettled(baseHost, w0, ExpiredIn(w0.links, swept), w1, desired, at, w2, Snap());
          if !env.degraded {
            RoutesPublished(baseHost, w0, w1, desired, at, w2, Snap());
          }
        }
      }
    }

    // ------------------------------------------------------------- shutdown

    /** Destroys every link of the batch whatever fails, keeping the first error. */
    method TearDown(batch: seq<Link>, ghost ids: set<LinkID>) returns (first: Option<Err>)
      requires Core() && Enumerates(batch, ids, repo.links) && AllLive(ids, repo.links)
      modifies this`scheduled, repo, env`entries, env`processes, env`reserved, env`trace
      ensures Core() && Onward(old(Snap()), Snap()) && repo.spaces == old(repo.spaces)
      ensures old(Conserved()) ==> Conserved()
      ensures AllTried(old(env.trace), env.trace, ids) && scheduled == old(scheduled) - ids
      ensures first.None? ==> Swept(old(repo.links), repo.links, ids, env.Snap())
      ensures first.None? || first.value in {Internal, Fault}
      ensures PlansOf(repo.links) == old(PlansOf(repo.links))
    {
      ghost var w0 := Snap();
      first := None;
      assert batch[..0] == [];
      for i := 0 to |batch|
        invariant Core() && Onward(w0, Snap()) && repo.spaces == w0.spaces && PlansOf(repo.links) == PlansOf(w0.links)
        invariant Agree(w0.links, w0.lostSaves, w0.o) ==> Conserved()
        invariant Untouched(w0.links, repo.links, LinkIDs(batch[..i]))
        invariant AllTried(w0.o.trace, env.trace, LinkIDs(batch[..i])) && scheduled == old(scheduled) - LinkIDs(batch[..i])
        invariant first.None? ==> Swept(w0.links, repo.links, LinkIDs(batch[..i]), env.Snap())
        invariant first.None? || first.value in {Internal, Fault}
      {
        ghost var w := Snap();
        NextOfBatch(batch, i, ids, w0.links, repo.links);
        var e := Destroy(batch[i], Deleted);
        OnwardTransitive(w0, w, Snap());
        StillBut(batch[i].id, w.links, repo.links);
        AllTriedMore(w0.o.trace, w.o.trace, env.trace, LinkIDs(batch[..i]), batch[i].id);
        CancelledMore(old(scheduled), LinkIDs(batch[..i]), batch[i].id);
        if e.None? && first.None? {
          SweptMore(w0.links, w, Snap(), LinkIDs(batch[..i]), batch[i].id);
        }
        if e.Some? && e != Some(NotFound) && first.None? {
          first := e;
        }
      }
      assert batch[..|batch|] == batch;
    }

    /** Destroys what would be reconciled. */
    method TearDownAll(now: int) returns (first: Option<Err>, listed: bool)
      requires Core()
      modifies this`scheduled, repo, env`entries, env`processes, env`reserved, env`trace
      ensures Core() && Onward(old(Snap()), Snap()) && repo.spaces == old(repo.spaces)
      ensures old(Conserved()) ==> Conserved()
      ensures if listed then AllTried(old(env.trace), env.trace, CandidatesIn(old(repo.links), now))
              else env.trace == old(env.trace)
      ensures first.None? ==> listed && Swept(old(repo.links), repo.links, CandidatesIn(old(repo.links), now), env.Snap())
      ensures first.None? || first.value in {Internal, Fault}
      ensures PlansOf(repo.links) == old(PlansOf(repo.links))
    {
      var links: seq<Link>;
      first, links := repo.ReconciliationLinks(now);
      listed := first.None?;
      if listed {
        first := TearDown(links, CandidatesIn(repo.links, now));
      }
    }

    /** Sends the empty list: even a broken array shows no route afterwards. */
    method WithdrawAll() returns (err: Option<Err>)
      requires Core()
      modifies env`entries, env`trace, env`degraded
      ensures Core() && Onward(old(Snap()), Snap())
      ensures old(Conserved()) ==> Conserved()
      ensures old(Conserved()) && !old(env.degraded) ==> RoutesOwned(repo.links, env.Routes())
      ensures exists fragile :: env.trace == Then(old(env.trace), ReconcileTried([], err.None?, fragile))
      ensures env.processes == old(env.processes) && env.reserved == old(env.reserved) && repo.links == old(repo.links)
      ensures err.None? ==> !env.degraded && env.Routes() == map[]
      ensures err.None? || err == Some(Fault)
    {
      err := Publicize([]);
      EmptyListUnsticks(old(env.entries));
      assert LinksOf([]) == {};
    }

    /** Destroys what would be reconciled, then withdraws every owned route. Unless
        the candidates cannot be listed, every one of them is attempted and the
        empty list is sent, whatever fails on the way. */
    method Shutdown() returns (err: Option<Err>, ghost at: int, ghost torn: Trace)
      requires Core()
      modifies this`scheduled, repo, env
      ensures Core() && Onward(old(Snap()), Snap())
      ensures old(Conserved()) ==> Conserved()
      ensures old(Conserved()) && !old(env.degraded) ==> RoutesOwned(repo.links, env.Routes())
      ensures env.trace != old(env.trace) || err.Some?
      ensures env.trace != old(env.trace) ==>
        && AllTried(old(env.trace), torn, CandidatesIn(old(repo.links), at))
        && env.trace.Then? && env.trace.earlier == torn && env.trace.last.ReconcileTried? && env.trace.last.desired == []
      ensures err.None? ==>
        && Swept(old(repo.links), repo.links, CandidatesIn(old(repo.links), at), env.Snap())
        && !env.degraded && env.Routes() == map[]
      ensures err.None? || err.value in {Internal, Fault}
      ensures PlansOf(repo.links) == old(PlansOf(repo.links))
    {
      ghost var w0 := Snap();
      var now := Now();
      at := now;
      ghost var w1 := Snap();
      var listed: bool;
      err, listed := TearDownAll(now);
      ghost var w2 := Snap();
      torn := env.trace;
      OnwardTransitive(w0, w1, w2);
      if listed {
        var e := WithdrawAll();
        OnwardTransitive(w0, w2, Snap());
        ExtendsLonger(w0.o.trace, torn);
        assert Length(env.trace) == 1 + Length(torn);
        if e.Some? && err.None? {
          err := e;
        }
        if err.None? {
          SweptWithoutRoutes(w0.links, repo.links, CandidatesIn(w0.links, now), w2.o, env.Snap());
        }
      }
    }

    // ---------------------------------------------------- automatic restart

    /** Plans a restart of a link that failed; the answer is None when it would come too late. */
    method Plan(l: Link) returns (due: Option<int>, ghost now: int)
      requires Core()
      modifies env`clock
      ensures Core() && Onward(old(Snap()), Snap()) && env.Snap() == old(env.Snap())
      ensures old(env.clock) <= now == env.clock
      ensures due.Some? <==> now + Backoff(l.restarts + 1) < l.expiresAt
      ensures due.Some? ==> due.value == now + Backoff(l.restarts + 1)
    {
      var t := Now();
      now := t;
      var at := t + Backoff(l.restarts + 1);
      due := if l.expiresAt > at then Some(at) else None;
    }

    method ScheduleAutomaticRestart(c: Caller, name: Label)
      returns (err: Option<Err>, at: int, id: LinkID, ghost now: int)
      requires Core()
      modifies this`scheduled, repo, env`entries, env`processes, env`reserved, env`trace, env`clock
      ensures Core() && Onward(old(Snap()), Snap())
      ensures old(Conserved()) ==> Conserved()
      ensures PlansMoved(old(repo.links), repo.links, now) && old(env.clock) <= now <= env.clock
      ensures err.None? ==>
        && Live(old(repo.links), id) && Live(repo.links, id) && old(repo.links)[id].link.autoRestart
        && Planned(old(repo.links)[id].link, repo.links[id].link, now)
        && repo.links[id].link.status == Failed && at == repo.links[id].link.nextRestartAt
        && scheduled == old(scheduled)[id := at]
      ensures err.Some? ==> scheduled == old(scheduled) || scheduled == old(scheduled) - {id}
      ensures err.Some? && env.trace != old(env.trace) && SavedLast(env.trace) ==> scheduled == old(scheduled) - {id}
    {
      var sp: Option<Space>, l: Option<Link>;
      err, sp, l := LinkAuth(c, name);
      at, id, now := 0, "", env.clock;
      if err.None? {
        ghost var w := Snap();
        id := l.value.id;
        err, at, now := ScheduleLink(l.value);
        OnwardTransitive(old(Snap()), w, Snap());
        MovedBut(id, w.links, repo.links, now);
      }
    }

    /** Plans a restart and cancels the pending one; a plan that would come too late
        ends the link, with the restart counted. */
    method ScheduleLink(l: Link) returns (err: Option<Err>, at: int, ghost now: int)
      requires Core() && Live(repo.links, l.id) && repo.links[l.id].link == l
      modifies this`scheduled, repo, env`entries, env`processes, env`reserved, env`trace, env`clock
      ensures Core() && StepOf(l.id, old(Snap()), Snap())
      ensures old(Conserved()) ==> Conserved()
      ensures PlanMoved(l, repo.links[l.id].link, now) && old(env.clock) <= now <= env.clock
      ensures err.None? ==>
        && Live(repo.links, l.id) && l.autoRestart && Planned(l, repo.links[l.id].link, now)
        && repo.links[l.id].link.status == Failed && at == repo.links[l.id].link.nextRestartAt
        && scheduled == old(scheduled)[l.id := at]
      ensures err == Some(NotFound) && !ExpiredAt(env.clock, l.expiresAt) ==>
        repo.links[l.id] == LinkRow(l, false) || TooLate(l, repo.links[l.id].link, now)
      ensures err == Some(NotFound) ==> scheduled == old(scheduled) - {l.id}
      ensures err.Some? && err != Some(NotFound) ==>
        scheduled == if env.trace != old(env.trace) && SavedLast(env.trace) then old(scheduled) - {l.id} else old(scheduled)
    {
      at, now := 0, env.clock;
      if !l.autoRestart {
        err := Some(Conflict);
        return;
      }
      ghost var w0 := Snap();
      var due, counted;
      due, counted, now := Count(l);
      ghost var w1 := Snap();
      if due.Some? {
        at := due.value;
      }
      err := PutOff(l, counted, due);
      StepTransitive(l.id, w0, w1, Snap());
    }

    /** The restart is counted and planned, unless the link has expired. */
    method Count(l: Link) returns (due: Option<int>, counted: Link, ghost now: int)
      requires Core()
      modifies env`clock
      ensures Core() && StepOf(l.id, old(Snap()), Snap()) && env.Snap() == old(env.Snap())
      ensures old(env.clock) <= now <= env.clock
      ensures counted == l || counted == l.(restarts := l.restarts + 1)
      ensures counted == l ==> due.None? && ExpiredAt(now, l.expiresAt)
      ensures counted != l ==>
        if now + Backoff(l.restarts + 1) < l.expiresAt then due == Some(now + Backoff(l.restarts + 1)) else due.None?
    {
      ghost var w := Snap();
      var t := Now();
      due, counted, now := None, l, t;
      if !ExpiredAt(t, l.expiresAt) {
        due, now := Plan(l);
        counted := l.(restarts := l.restarts + 1);
      }
      OutsideStep(l.id, w, Snap());
    }

    /** Records and arms a plan, or ends the link when there is none. */
    method PutOff(l: Link, counted: Link, due: Option<int>) returns (err: Option<Err>)
      requires Core() && Live(repo.links, l.id) && repo.links[l.id].link == l
      requires counted == l.(restarts := counted.restarts)
      modifies this`scheduled, repo, env`entries, env`processes, env`reserved, env`trace
      ensures Core() && StepOf(l.id, old(Snap()), Snap())
      ensures old(Conserved()) ==> Conserved()
      ensures due.None? ==>
        && err == Some(NotFound) && scheduled == old(scheduled) - {l.id}
        && (repo.links[l.id] == LinkRow(l, false) || SamePlan(counted, repo.links[l.id].link))
      ensures due.Some? ==>
        && (err.None? || err == Some(Fault))
        && var planned := LinkRow(counted.(status := Failed, nextRestartAt := due.value), false);
          && repo.links[l.id] in {LinkRow(l, false), planned}
          && (err.None? ==> repo.links[l.id] == planned && scheduled == old(scheduled)[l.id := due.value])
          && (err.Some? ==> scheduled == if SavedLast(env.trace) then old(scheduled) - {l.id} else old(scheduled))
          && env.trace != old(env.trace)
    {
      if due.None? {
        var ignored := Destroy(counted, Expired);
        err := Some(NotFound);
      } else {
        err := SetTimer(counted.(status := Failed, nextRestartAt := due.value), true);
      }
    }

    /** Arms the timer of a link, having cancelled the pending one if asked to. */
    method Arm(id: LinkID, at: int, cancel: bool) returns (armed: bool)
      modifies this`scheduled
      ensures armed ==> scheduled == old(scheduled)[id := at]
      ensures !armed ==> scheduled == if cancel then old(scheduled) - {id} else old(scheduled)
    {
      if cancel {
        CancelTimer(id);
      }
      armed := *;
      if armed {
        scheduled := scheduled[id := at];
      }
    }

    /** Records a plan and arms the timer. */
    method SetTimer(l: Link, cancel: bool) returns (err: Option<Err>)
      requires Core() && Replaces(l)
      modifies this`scheduled, repo, env`trace
      ensures Core() && StepOf(l.id, old(Snap()), Snap())
      ensures repo.links[l.id] == LinkRow(l, false) || repo.links[l.id] == old(repo.links[l.id])
      ensures env.trace == Then(old(env.trace), SaveTried(l, true)) || env.trace == Then(old(env.trace), SaveTried(l, false))
      ensures err.None? ==> repo.links[l.id] == LinkRow(l, false) && scheduled == old(scheduled)[l.id := l.nextRestartAt]
      ensures err.Some? ==> scheduled == if cancel && SavedLast(env.trace) then old(scheduled) - {l.id} else old(scheduled)
      ensures err.None? || err == Some(Fault)
      ensures repo.faults - old(repo.faults) == repo.lostSaves - old(repo.lostSaves)
      ensures old(ConservedBut(l.id, l.process)) ==> Conserved()
    {
      err := Record(l);
      if err.None? {
        var armed := Arm(l.id, l.nextRestartAt, cancel);
        if !armed {
          err := Some(Fault);
        }
      }
    }

    /** Records the outcome of planning a further restart. */
    method RecordPlan(l: Link, due: Option<int>, ghost now: int)
      requires Core() && Replaces(l)
      requires if due.Some? then due.value == now + Backoff(l.restarts + 1) < l.expiresAt
               else now + Backoff(l.restarts + 1) >= l.expiresAt
      modifies this`scheduled, repo, env`trace
      ensures Core() && StepOf(l.id, old(Snap()), Snap())
      ensures repo.links[l.id] == old(repo.links[l.id]) || PlannedFrom(l, repo.links[l.id], now)
      ensures repo.faults - old(repo.faults) == repo.lostSaves - old(repo.lostSaves)
      ensures old(ConservedBut(l.id, l.process)) ==> Conserved()
    {
      if due.None? {
        var ignored := Record(l.(restarts := l.restarts + 1, status := Expired));
      } else {
        var ignored := SetTimer(l.(restarts := l.restarts + 1, status := Failed, nextRestartAt := due.value), false);
      }
    }

    /** Plans the next restart of a link whose restart failed, unless that comes too late. */
    method RescheduleFailed(l: Link) returns (ghost now: int)
      requires Core() && (Replaces(l) || ExpiredAt(env.clock, l.expiresAt))
      modifies this`scheduled, repo, env`clock, env`trace
      ensures Core() && StepOf(l.id, old(Snap()), Snap())
      ensures old(env.clock) <= now <= env.clock
      ensures l.id in old(repo.links) ==>
        repo.links[l.id] == old(repo.links[l.id]) || PlannedFrom(l, repo.links[l.id], now)
      ensures env.Snap() == old(env.Snap()).(trace := env.trace)
      ensures repo.faults - old(repo.faults) == repo.lostSaves - old(repo.lostSaves)
      ensures old(Conserved() && (ConservedBut(l.id, l.process) || ExpiredAt(env.clock, l.expiresAt))) ==> Conserved()
    {
      ghost var w0 := Snap();
      var t := Now();
      now := t;
      ghost var w1 := Snap();
      OutsideStep(l.id, w0, w1);
      if l.autoRestart && !ExpiredAt(t, l.expiresAt) {
        now := PlanAgain(l);
        StepTransitive(l.id, w0, w1, Snap());
      }
    }

    method PlanAgain(l: Link) returns (ghost now: int)
      requires Core() && Replaces(l)
      modifies this`scheduled, repo, env`clock, env`trace
      ensures Core() && StepOf(l.id, old(Snap()), Snap())
      ensures old(env.clock) <= now <= env.clock
      ensures repo.links[l.id] == old(repo.links[l.id]) || PlannedFrom(l, repo.links[l.id], now)
      ensures repo.faults - old(repo.faults) == repo.lostSaves - old(repo.lostSaves)
      ensures old(ConservedBut(l.id, l.process)) ==> Conserved()
    {
      ghost var w0 := Snap();
      var due: Option<int>;
      due, now := Plan(l);
      ghost var w1 := Snap();
      OutsideStep(l.id, w0, w1);
      RecordPlan(l, due, now);
      StepTransitive(l.id, w0, w1, Snap());
    }

    /** Plans a further restart from the latest record of a link whose start failed,
        or, if that cannot be read, from the copy made before the start. */
    method Rescue(cur: Link) returns (ghost now: int)
      requires Core() && cur.id in repo.links && SamePlan(cur, repo.links[cur.id].link) && cur.process == ""
      requires Replaces(cur) || ExpiredAt(env.clock, cur.expiresAt)
      requires SameName(repo.links[cur.id], LinkRow(cur, false))
      modifies this`scheduled, repo, env`clock, env`trace
      ensures Core() && StepOf(cur.id, old(Snap()), Snap())
      ensures old(env.clock) <= now <= env.clock
      ensures PlanStep(cur, repo.links[cur.id].link, now)
      ensures repo.links[cur.id].deleted == old(repo.links[cur.id].deleted)
      ensures env.Snap() == old(env.Snap()).(trace := env.trace)
      ensures old(Conserved()) ==> (Conserved() <==> !DroppedFrom(cur.id, old(Snap()), Snap()))
      ensures StraysStay(cur.id, "", old(Snap()), Snap())
    {
      ghost var w0 := Snap();
      var l;
      ghost var unread;
      l, unread := Reread(cur);
      ghost var w1 := Snap();
      now := RescheduleFailed(l);
      StepTransitive(cur.id, w0, w1, Snap());
      PlanStepFrom(cur, l, repo.links[cur.id].link, now);
      if unread && Agree(w0.links, w0.lostSaves, w0.o) {
        Overwritten(cur.id, w0, Snap());
      }
    }

    /** The latest record, or the copy if that cannot be read. */
    method Reread(cur: Link) returns (l: Link, ghost unread: bool)
      requires Core() && cur.id in repo.links && SamePlan(cur, repo.links[cur.id].link) && cur.process == ""
      requires Replaces(cur) || ExpiredAt(env.clock, cur.expiresAt)
      requires SameName(repo.links[cur.id], LinkRow(cur, false))
      modifies repo`faults
      ensures Core() && StepOf(cur.id, old(Snap()), Snap()) && l.id == cur.id && SamePlan(cur, l)
      ensures Replaces(l) || ExpiredAt(env.clock, l.expiresAt)
      ensures if unread then repo.faults > old(repo.faults) && l == cur else repo.faults == old(repo.faults)
      ensures old(Conserved()) && !unread ==>
        Conserved() && (ConservedBut(l.id, l.process) || ExpiredAt(env.clock, l.expiresAt))
      ensures l.process in {"", repo.links[cur.id].link.process}
    {
      ghost var w0 := Snap();
      var err, latest := repo.FindLink(cur.space, cur.name);
      l, unread := cur, err == Some(Fault);
      if err.None? {
        l := latest.value;
        assert SameName(repo.links[l.id], repo.links[cur.id]);
        if Conserved() {
          AgreeOwn(l, repo.links, repo.lostSaves, env.Snap());
        }
      }
      OutsideStep(cur.id, w0, Snap());
      assert err == Some(NotFound) ==> !Live(repo.links, cur.id);
    }

    /** Records a link without the identity it had. */
    method Forget(id: LinkID, renewed: Link) returns (err: Option<Err>)
      requires Core() && Replaces(renewed) && renewed.id == id && renewed.process == ""
      requires SamePlan(renewed, repo.links[id].link)
      modifies repo, env`trace
      ensures Core() && StepOf(id, old(Snap()), Snap()) && Replaces(renewed)
      ensures SamePlan(renewed, repo.links[id].link)
      ensures env.Snap() == old(env.Snap()).(trace := env.trace)
      ensures err.None? ==> repo.links[id] == LinkRow(renewed, false)
      ensures old(Conserved() && Exited(id)) ==> Conserved() && ConservedBut(id, "") && Exited(id)
      ensures repo.lostSaves == 0 ==> repo.links[id].link.process == ""
    {
      AgreeIdle(id, "", repo.links, repo.lostSaves, env.Snap());
      err := Record(renewed);
    }

    /** Starts the link again and plans a further restart when that fails; `mid` is
        where the start returned. */
    method StartAgain(sp: Space, cur: Link) returns (ghost now: int, ghost mid: Worlds)
      requires Core() && Live(repo.links, cur.id) && repo.links[cur.id].link == cur && cur.process == "" && cur.port == 0
      modifies this`scheduled, repo, env`entries, env`processes, env`issued, env`reserved, env`trace, env`clock
      ensures Core() && StepOf(cur.id, old(Snap()), Snap())
      ensures Onward(old(Snap()), mid) && Onward(mid, Snap())
      ensures repo.links[cur.id].deleted ==> ExpiredAt(env.clock, cur.expiresAt)
      ensures old(env.clock) <= now <= env.clock
      ensures PlanStep(cur, repo.links[cur.id].link, now)
      ensures old(Conserved() && Exited(cur.id)) ==>
        (Conserved() <==> !OrphanedBy(cur.id, old(Snap()), Snap()) && !DroppedFrom(cur.id, mid, Snap()))
      ensures StraysStay(cur.id, "", old(Snap()), Snap())
    {
      ghost var w0 := Snap();
      var err, out := Start(sp, cur);
      now, mid := env.clock, Snap();
      if err.Some? {
        now := Rescue(cur);
        StepTransitive(cur.id, w0, mid, Snap());
      }
    }

    method Proceed(sp: Space, cur: Link, recorded: bool) returns (ghost now: int, ghost mid: Worlds)
      requires Core() && Replaces(cur) && SamePlan(cur, repo.links[cur.id].link) && cur.process == "" && cur.port == 0
      requires recorded ==> repo.links[cur.id].link == cur
      modifies this`scheduled, repo, env`entries, env`processes, env`issued, env`reserved, env`trace, env`clock
      ensures Core() && StepOf(cur.id, old(Snap()), Snap())
      ensures Onward(old(Snap()), mid) && Onward(mid, Snap())
      ensures repo.links[cur.id].deleted ==> ExpiredAt(env.clock, cur.expiresAt)
      ensures old(env.clock) <= now <= env.clock
      ensures PlanStep(cur, repo.links[cur.id].link, now)
      ensures old(Conserved() && ConservedBut(cur.id, "") && Exited(cur.id)) ==>
        (Conserved() <==> !OrphanedBy(cur.id, old(Snap()), Snap()) && !DroppedFrom(cur.id, mid, Snap()))
      ensures StraysStay(cur.id, "", old(Snap()), Snap())
    {
      if recorded {
        now, mid := StartAgain(sp, cur);
      } else {
        now := RescheduleFailed(cur.(status := Failed));
        mid := Snap();
        PlanStepFrom(cur, cur.(status := Failed), repo.links[cur.id].link, now);
      }
    }

    /** Runs a restart again, planning a further one when it fails. */
    method Retry(sp: Space, cur: Link) returns (ghost now: int, ghost mid: Worlds)
      requires Core() && Live(repo.links, cur.id) && repo.links[cur.id].link == cur
      modifies this`scheduled, repo, env`entries, env`processes, env`issued, env`reserved, env`trace, env`clock
      ensures Core() && StepOf(cur.id, old(Snap()), Snap())
      ensures Onward(old(Snap()), mid) && Onward(mid, Snap())
      ensures repo.links[cur.id].deleted ==> ExpiredAt(env.clock, cur.expiresAt)
      ensures old(env.clock) <= now <= env.clock
      ensures PlanStep(cur, repo.links[cur.id].link, now)
      ensures old(Conserved() && Exited(cur.id)) ==>
        (Conserved() <==> LapseOf(cur.id, old(Snap()), mid, Snap()) == Kept)
      ensures old(Conserved() && !Exited(cur.id)) && repo.lostSaves == 0 ==> !Conserved()
    {
      ghost var w0 := Snap();
      var renewed := cur.(status := Creating, process := "", port := 0);
      var e := Forget(cur.id, renewed);
      ghost var w1 := Snap();
      now, mid := Proceed(sp, renewed, e.None?);
      RetriedFrom(cur.id, w0, w1, mid, Snap());
      if Agree(w0.links, w0.lostSaves, w0.o) && !Idle(cur.id, w0.lostSaves, w0.o) {
        Forgotten(cur.id, w0, w1, Snap());
      }
      PlanStepFrom(cur, renewed, repo.links[cur.id].link, now);
    }

    /** The timer of a planned restart goes off. The worlds agree afterwards if and only
        if it did not lapse, except that a process left running is not missed once
        a save was lost. */
    method RunScheduledRestart(sp: Space, l: Link) returns (ghost now: int, ghost mid: Worlds, ghost lapse: Lapse)
      requires Core()
      modifies this`scheduled, repo, env`entries, env`processes, env`issued, env`reserved, env`trace, env`clock
      ensures Core() && Onward(old(Snap()), Snap())
      ensures PlansKept(old(repo.links), repo.links, now) && old(env.clock) <= now <= env.clock
      ensures lapse.Kept? || Lapsed(Fired(old(Snap()), mid, Snap(), lapse))
      ensures !lapse.Kept? ==> Called(old(repo.links)[lapse.id], l.space, l.name)
      ensures old(Conserved()) && lapse.Kept? ==> Conserved()
      ensures old(Conserved()) && !lapse.Kept? ==> !Conserved() || Unseen(lapse, Snap())
    {
      now, mid, lapse := env.clock, Snap(), Kept;
      var err, cur := repo.FindLink(l.space, l.name);
      if err.None? {
        now, mid, lapse := RestartIfDue(sp, cur.value);
      }
    }

    /** The same once the record is read: the clock is read for each question. */
    method RestartIfDue(sp: Space, cur: Link) returns (ghost now: int, ghost mid: Worlds, ghost lapse: Lapse)
      requires Core() && Live(repo.links, cur.id) && repo.links[cur.id].link == cur
      modifies this`scheduled, repo, env`entries, env`processes, env`issued, env`reserved, env`trace, env`clock
      ensures Core() && Onward(old(Snap()), Snap())
      ensures PlansKept(old(repo.links), repo.links, now) && old(env.clock) <= now <= env.clock
      ensures lapse.Kept? || (lapse.id == cur.id && Lapsed(Fired(old(Snap()), mid, Snap(), lapse)))
      ensures old(Conserved()) && lapse.Kept? ==> Conserved()
      ensures old(Conserved()) && !lapse.Kept? ==> !Conserved() || Unseen(lapse, Snap())
    {
      ghost var w0 := Snap();
      var due := Due(cur);
      ghost var w1 := Snap();
      if due {
        now, mid, lapse := GoOff(sp, cur);
        LapsedEarlier(w0, w1, mid, Snap(), lapse);
      } else {
        now := NotDue(cur);
        mid, lapse := Snap(), Kept;
      }
      OnwardTransitive(w0, w1, Snap());
      PlansKeptBut(cur.id, w0.links, repo.links, now);
    }

    method GoOff(sp: Space, cur: Link) returns (ghost now: int, ghost mid: Worlds, ghost lapse: Lapse)
      requires Core() && Live(repo.links, cur.id) && repo.links[cur.id].link == cur && cur.nextRestartAt <= env.clock
      modifies this`scheduled, repo, env`entries, env`processes, env`issued, env`reserved, env`trace, env`clock
      ensures Core() && StepOf(cur.id, old(Snap()), Snap()) && Onward(old(Snap()), mid)
      ensures PlanStep(cur, repo.links[cur.id].link, now) && old(env.clock) <= now <= env.clock
      ensures lapse.Kept? || (lapse.id == cur.id && Lapsed(Fired(old(Snap()), mid, Snap(), lapse)))
      ensures old(Conserved()) && lapse.Kept? ==> Conserved()
      ensures old(Conserved()) && !lapse.Kept? ==> !Conserved() || Unseen(lapse, Snap())
    {
      ghost var w0 := Snap();
      now, mid := Retry(sp, cur);
      lapse := Fires(cur.id, w0, mid, Snap());
    }

    /** A restart that is not due, or whose link has expired: then the link is destroyed. */
    method NotDue(cur: Link) returns (ghost now: int)
      requires Core() && Live(repo.links, cur.id) && repo.links[cur.id].link == cur
      modifies this`scheduled, repo, env`entries, env`processes, env`reserved, env`trace, env`clock
      ensures Core() && StepOf(cur.id, old(Snap()), Snap())
      ensures old(env.clock) <= now <= env.clock && SamePlan(cur, repo.links[cur.id].link)
      ensures old(Conserved()) ==> Conserved()
    {
      ghost var w0 := Snap();
      var t := Now();
      now := t;
      ghost var w1 := Snap();
      OutsideStep(cur.id, w0, w1);
      if ExpiredAt(t, cur.expiresAt) {
        var ignored := Destroy(cur, Expired);
      }
      StepTransitive(cur.id, w0, w1, Snap());
    }

    /** Has the link not expired, and is its restart due? */
    method Due(cur: Link) returns (due: bool)
      requires Core()
      modifies env`clock
      ensures Core() && Onward(old(Snap()), Snap()) && env.Snap() == old(env.Snap())
      ensures due ==> cur.nextRestartAt <= env.clock
    {
      var t := Now();
      due := !ExpiredAt(t, cur.expiresAt);
      if due {
        ghost var w := Snap();
        t := Now();
        due := cur.nextRestartAt <= t;
        OnwardTransitive(old(Snap()), w, Snap());
      }
    }

    // --------------------------------------------------------------- crashes

    /** A process exits by itself: its route and its record stay. */
    method Crash(process: string)
      requires Core()
      modifies env`processes
      ensures Core() && Onward(old(Snap()), Snap())
      ensures env.Snap() == old(env.Snap()).(processes := old(env.processes) - {process})
      ensures old(Conserved()) ==> Conserved()
    {
      ghost var w := Snap();
      env.Exit(process);
      SoundOutside(repo.links, w.o, env.Snap());
    }

    /** What automatic restarts are for: the process of a link exits, its route still
        published, and some time later its restart goes off. The agreement survives
        exactly if that does not lapse, and it can only lapse by an expiry between two
        readings of the clock, if there is a route, or by a database that fails. */
    method CrashThenRestart(sp: Space, l: Link) returns (ghost mid: Worlds, ghost lapse: Lapse)
      requires Core() && Live(repo.links, l.id) && repo.links[l.id].link == l
      modifies this`scheduled, repo, env`entries, env`processes, env`issued, env`reserved, env`trace, env`clock
      ensures Core() && Onward(old(Snap()), Snap())
      ensures old(Conserved()) ==> !lapse.Running? && (Conserved() <==> lapse.Kept?)
      ensures lapse.Orphaned? ==>
        old(Published(l.id, env.Snap())) && l.id in repo.links && repo.links[l.id].deleted && ExpiredAt(env.clock, l.expiresAt)
      ensures lapse.Dropped? ==> repo.faults > old(repo.faults)
    {
      ghost var w0 := Snap();
      Crash(l.process);
      ghost var w1 := Snap();
      ghost var now;
      now, mid, lapse := RunScheduledRestart(sp, l);
      OnwardTransitive(w0, w1, Snap());
      AfterACrash(l, w0, w1, mid, Snap(), lapse);
    }

    // ----------------------------------------------------------- whole runs

    /** Any operation with any arguments, or the exit of any process; `who` tells who
        may have planned a restart in it, at instant `now`. */
    method AnyStep() returns (ghost lapse: Lapse, ghost mid: Worlds, ghost who: Planner, ghost now: int)
      requires Core()
      modifies this`scheduled, repo, env
      ensures Core() && Onward(old(Snap()), Snap())
      ensures lapse.Kept? || Lapsed(Fired(old(Snap()), mid, Snap(), lapse))
      ensures old(Conserved()) && lapse.Kept? ==> Conserved()
      ensures old(Conserved()) && !lapse.Kept? ==> !Conserved() || Unseen(lapse, Snap())
      ensures old(env.clock) <= now <= env.clock && PlansMoved(old(repo.links), repo.links, now)
      ensures who.Nobody? ==> PlansStill(old(repo.links), repo.links)
      ensures who.Timer? ==> PlansKept(old(repo.links), repo.links, now)
    {
      var choice: int := *;
      lapse, who := Kept, Nobody;
      if choice == 0 {
        var sp: Space, l: Link := *, *;
        who := Timer;
        now, mid, lapse := RunScheduledRestart(sp, l);
      } else if choice == 1 {
        var c: Caller, name: Label := *, *;
        who := Request;
        var err, at, id;
        err, at, id, now := ScheduleAutomaticRestart(c, name);
        mid := Snap();
      } else {
        AnyOther();
        now, mid := env.clock, Snap();
      }
      MovesInclude(old(repo.links), repo.links, now);
    }

    /** Any operation that plans no restart. */
    method AnyOther()
      requires Core()
      modifies this`scheduled, repo, env
      ensures Core() && Onward(old(Snap()), Snap())
      ensures old(Conserved()) ==> Conserved()
      ensures PlansStill(old(repo.links), repo.links)
    {
      ghost var before := repo.links;
      var choice: int := *;
      if choice == 0 {
        var process: string := *;
        Crash(process);
      } else if choice == 1 {
        AnyCreation();
      } else if choice == 2 {
        var err, at, found, desired := Reconcile();
      } else if choice == 3 {
        var err, at, found := Cleanup();
      } else if choice == 4 {
        var err, at, torn := Shutdown();
      } else {
        AnyMutation();
      }
      SamePlans(before, repo.links);
    }

    method AnyCreation()
      requires Core()
      modifies repo, env`entries, env`processes, env`issued, env`reserved, env`trace, env`clock
      ensures Core() && Onward(old(Snap()), Snap())
      ensures old(Conserved()) ==> Conserved()
      ensures PlansStill(old(repo.links), repo.links)
    {
      var id: string, link: bool := *, *;
      if link {
        var i: CreateLinkInput := *;
        if id != "" {
          var err, out, sp, at := CreateLink(i, id);
        }
      } else {
        var alias: Label, ttl: int := *, *;
        var err := CreateSpace(id, alias, ttl);
      }
    }

    method AnyMutation()
      requires Core()
      modifies this`scheduled, repo, env`entries, env`processes, env`issued, env`reserved, env`trace, env`clock
      ensures Core() && Onward(old(Snap()), Snap())
      ensures old(Conserved()) ==> Conserved()
      ensures PlansOf(repo.links) == old(PlansOf(repo.links))
    {
      var c: Caller, name: Label, reason: string, choice: int := *, *, *, *;
      if choice == 0 {
        var err, space := DeleteLink(c, name, reason);
      } else if choice == 1 {
        var err, out, sp, l := RestartLink(c, name, reason);
      } else {
        var err, sp := DeleteSpace(c, reason);
      }
    }

    /** Any run: at every boundary the gate was kept, no archived record came
        back, no record's expiry moved, and, until a restart lapses, the three worlds
        agree; the routes do unless a Reconcile of a fragile array has failed. The
        first restart that lapses finds them in agreement and, unless it went off
        while a process was running, leaves them without. */
    method AnyRun(n: nat) returns (ghost lapses: seq<Fired>)
      requires Core()
      modifies this`scheduled, repo, env
      ensures Core() && Onward(old(Snap()), Snap()) && Within(lapses, old(Snap()), Snap())
      ensures old(Conserved()) && lapses == [] ==> Conserved()
      ensures old(Conserved()) && lapses == [] && !Shaken(env.trace) ==> RoutesOwned(repo.links, env.Routes())
      ensures old(Conserved()) && lapses != [] ==> Breaks(lapses[0])
    {
      lapses := [];
      ghost var w0 := Snap();
      for i := 0 to n
        invariant Core() && Onward(w0, Snap()) && Within(lapses, w0, Snap())
        invariant old(Conserved()) && lapses == [] ==> Conserved()
        invariant old(Conserved()) && lapses != [] ==> Breaks(lapses[0])
      {
        ghost var w := Snap();
        ghost var lapse, mid, who, now := AnyStep();
        OnwardTransitive(w0, w, Snap());
        if lapse.Kept? {
          WithinLonger(lapses, w0, w, Snap());
        } else {
          WithinMore(lapses, w0, Fired(w, mid, Snap(), lapse));
          lapses := lapses + [Fired(w, mid, Snap(), lapse)];
        }
      }
    }

    // ------------------------------------------------------- failing chains

    /** The restart of a link goes off: its chain stays, grows, or ends as too late. */
    method ChainTimer(id: LinkID, ghost from: int, ghost dues: seq<int>) returns (over: bool, ghost more: seq<int>)
      requires Core() && id in repo.links && InChain(from, dues, repo.links[id].link) && from <= env.clock
      modifies this`scheduled, repo, env`entries, env`processes, env`issued, env`reserved, env`trace, env`clock
      ensures Core() && Onward(old(Snap()), Snap())
      ensures if over
              then more == dues && repo.links[id].link.status == Expired && GivenUp(dues, repo.links[id].link, env.clock)
              else InChain(from, more, repo.links[id].link)
      ensures Chain(from, repo.links[id].link.expiresAt, more)
    {
      var a, sp: Space := repo.links[id].link, *;
      ghost var now, mid, lapse := RunScheduledRestart(sp, a);
      var b := repo.links[id].link;
      ChainKept(from, dues, a, b, now);
      over := !SamePlan(a, b) && b.status == Expired;
      more := if SamePlan(a, b) || over then dues else dues + [b.nextRestartAt];
    }

    /** One chain of restarts of a link that has never been restarted, among any
        other operations. As long as it goes on the restart counter is its length, and
        that is bounded. It is over when the next restart would come too late, or when
        a caller plans one while the last is still pending; nothing else ends it. */
    method FailingChain(id: LinkID, n: nat) returns (over: bool, ghost dues: seq<int>, ghost who: Planner)
      requires Core() && id in repo.links && repo.links[id].link.restarts == 0
      requires repo.links[id].link.expiresAt <= env.clock + MAX_TTL
      modifies this`scheduled, repo, env
      ensures Core() && Onward(old(Snap()), Snap())
      ensures id in repo.links && Chain(old(env.clock), repo.links[id].link.expiresAt, dues) && |dues| <= MAX_CHAIN
      ensures repo.links[id].link.restarts == |dues| + if over then 1 else 0
      ensures if over then Ends(dues, repo.links[id].link, env.clock, who)
              else InChain(old(env.clock), dues, repo.links[id].link)
    {
      ghost var w0 := Snap();
      var from := env.clock;
      over, dues, who := false, [], Nobody;
      for i := 0 to n
        invariant Core() && Onward(w0, Snap()) && id in repo.links && !over
        invariant InChain(from, dues, repo.links[id].link)
      {
        ghost var w := Snap();
        over, dues, who := ChainStep(id, from, dues);
        OnwardTransitive(w0, w, Snap());
        if over {
          break;
        }
      }
      ChainBound(from, repo.links[id].link.expiresAt, dues);
    }

    /** Any operation while the restart of a link fails over and over. */
    method ChainStep(id: LinkID, from: int, ghost dues: seq<int>)
      returns (over: bool, ghost more: seq<int>, ghost who: Planner)
      requires Core() && id in repo.links && InChain(from, dues, repo.links[id].link) && from <= env.clock
      modifies this`scheduled, repo, env
      ensures Core() && Onward(old(Snap()), Snap())
      ensures if over then more == dues && Ends(dues, repo.links[id].link, env.clock, who)
              else InChain(from, more, repo.links[id].link)
      ensures Chain(from, repo.links[id].link.expiresAt, more)
    {
      var a := repo.links[id].link;
      ghost var lapse, mid, now;
      lapse, mid, who, now := AnyStep();
      var b := repo.links[id].link;
      var longer := Continues(from, a, b);
      over := !SamePlan(a, b) && !longer;
      more := if longer then dues + [b.nextRestartAt] else dues;
      ChainSteps(from, dues, a, b, now, env.clock, who);
    }

    /** From its creation on: the longest time to live bounds every chain of a link. */
    method LifeOfALink(i: CreateLinkInput, id: LinkID, n: nat)
      returns (err: Option<Err>, over: bool, ghost from: int, ghost dues: seq<int>, ghost who: Planner)
      requires Core() && id != ""
      modifies this`scheduled, repo, env
      ensures Core() && Onward(old(Snap()), Snap())
      ensures err.None? ==>
        && old(env.clock) <= from <= env.clock
        && id in repo.links && Chain(from, repo.links[id].link.expiresAt, dues) && |dues| <= MAX_CHAIN
        && repo.links[id].link.restarts == |dues| + (if over then 1 else 0)
        && if over then Ends(dues, repo.links[id].link, env.clock, who) else InChain(from, dues, repo.links[id].link)
    {
      ghost var w0 := Snap();
      var out, sp;
      ghost var at;
      over, dues, who := true, [], Nobody;
      err, out, sp, at := CreateLink(i, id);
      from := env.clock;
      if err.None? {
        ghost var w := Snap();
        over, dues, who := FailingChain(id, n);
        OnwardTransitive(w0, w, Snap());
      }
    }

    // ---------------------------------------------------- create, then restart

    /** A link that is created and then restarted. What vouches for the second
        start is a probe of the first port's address; if the health check names the
        port and the ports differ, that is not the second port's address. */
    method CreateThenRestart(i: CreateLinkInput, id: LinkID, c: Caller, name: Label, reason: string)
      returns (created: Option<Err>, restarted: Option<Err>, first: Link, second: Link, ghost start: int, ghost probe: int)
      requires Core() && id != ""
      modifies this`scheduled, repo, env`entries, env`processes, env`issued, env`reserved, env`trace, env`clock
      ensures Core() && Onward(old(Snap()), Snap())
      ensures created.None? && restarted.None? && second.id == id ==>
        && second.status == Active && Live(repo.links, id) && repo.links[id].link == second
        && VouchedByFirst(Events(env.trace), i.health, first, second, start, probe)
    {
      var sp;
      ghost var at;
      ghost var w0 := Snap();
      created, first, sp, at := CreateLink(i, id);
      restarted, second, start, probe := created, first, 0, 0;
      if created.None? {
        ghost var w := Snap();
        ghost var sp': Option<Space>, l: Option<Link>;
        restarted, second, sp', l := RestartLink(c, name, reason);
        OnwardTransitive(w0, w, Snap());
        if restarted.None? && second.id == id {
          start, probe := Revouched(baseHost, i, id, sp, at, sp'.value, l.value, w0.o.reserved, first, second, w0, w, Snap());
        }
      }
    }

    /** A system just installed: the managed listener is seeded with the fallback alone. */
    static method Install(loopback: LoopbackCheck, baseHost: string, fallback: Raw) returns (s: Service)
      requires AcceptsLocal(loopback) && fallback.Object? && IsFallback(fallback)
      ensures fresh(s) && fresh(s.repo) && fresh(s.env) && s.Core() && s.Conserved()
    {
      var repo := new Store();
      CaddyRuns.SeedWellFormed(fallback);
      var env := new World(loopback, [fallback]);
      s := new Service(repo, env, baseHost);
    }
  }
}