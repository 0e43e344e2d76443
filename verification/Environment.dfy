/** Everything the coordinator reaches through ports, with nothing promised
    beyond the port contracts: the clock, the port allocator, the process
    supervisor, the health checker and the reverse proxy
    (internal/application/ports/ports.go). The proxy is the Caddy client, over an
    unreliable connection to the shared route array. A call that fails may or may
    not have had its effect, except that a failed Allocate reserved nothing and a
    failed Start left no process running.
 */
module Environment {
  import opened Ports
  import opened Rows
  import opened Repository
  import opened HealthGate
  import opened CaddyRoutes
  import opened CaddyPlan
  import opened CaddyAdmin
  import opened CaddyFragility
  import opened CaddyRecovery
  import opened CaddyClient

  const MAX_PORT := 65535

  /** How a proxy error reaches the application's error kinds. */
  function FromProxy(e: ProxyError): Err {
    match e
    case Validation => Err.Validation
    case DuplicateDesired => Err.Conflict
    case _ => Err.Fault
  }

  /** The state behind the ports as a value. */
  datatype Outside = Outside(routes: RouteTable, processes: map<string, LinkID>, issued: map<string, LinkID>,
                             reserved: set<nat>, degraded: bool, trace: Trace)

  class World {
    const loopback: LoopbackCheck
    /** The route array of the Caddy server. */
    var entries: seq<Raw>
    /** Processes started that have neither exited nor been stopped, with their link. */
    var processes: map<string, LinkID>
    /** Every identity ever handed out, with the link it was for. */
    var issued: map<string, LinkID>
    var reserved: set<nat>
    var clock: int
    /** A Reconcile has left an array that is not well-formed, and no later one has put it right. */
    ghost var degraded: bool
    ghost var trace: Trace

    constructor (loopback: LoopbackCheck, initial: seq<Raw>)
      requires WellFormed(initial) && View(initial) == map[]
      ensures this.loopback == loopback && OK() && entries == initial
      ensures Routes() == map[] && processes == map[] && issued == map[] && reserved == {} && !degraded && trace == Quiet
    {
      this.loopback := loopback;
      entries, processes, issued, reserved, clock := initial, map[], map[], {}, 0;
      degraded, trace := false, Quiet;
    }

    /** The owned routes. */
    ghost function Routes(): RouteTable
      reads this`entries
    {
      View(entries)
    }

    ghost function Snap(): (o: Outside)
      reads this
    {
      Outside(Routes(), processes, issued, reserved, degraded, trace)
    }

    ghost predicate OK()
      reads this
    {
      && (forall p :: p in processes ==> p in issued && issued[p] == processes[p])
      && "" !in issued && 0 !in reserved
      && (!degraded ==> WellFormed(entries)) && (degraded ==> Shaken(trace))
    }

    /** Adds an event of another port to the trace. */
    ghost method Note(e: HealthGate.Event)
      modifies this`trace
      ensures trace == Then(old(trace), e)
    {
      trace := Then(trace, e);
    }

    method Now() returns (t: int)
      modifies this`clock
      ensures t == clock >= old(clock)
    {
      var elapsed: int := *;
      if elapsed > 0 {
        clock := clock + elapsed;
      }
      t := clock;
    }

    method Allocate() returns (err: Option<Err>, p: nat)
      requires OK()
      modifies this`reserved, this`trace
      ensures OK()
      ensures err.None? ==>
        && 1 <= p <= MAX_PORT && p !in old(reserved) && reserved == old(reserved) + {p}
        && trace == Then(old(trace), PortReserved(p))
      ensures err.Some? ==> err == Some(Fault) && reserved == old(reserved) && trace == old(trace)
    {
      var fault: bool := *;
      p := *;
      if fault || !(1 <= p <= MAX_PORT) || p in reserved {
        err := Some(Fault);
      } else {
        err, reserved, trace := None, reserved + {p}, Then(trace, PortReserved(p));
      }
    }

    method Release(p: nat) returns (err: Option<Err>)
      requires OK()
      modifies this`reserved, this`trace
      ensures OK() && trace == Then(old(trace), PortReleased(p, err.None?))
      ensures reserved == old(reserved) || reserved == old(reserved) - {p}
      ensures err.None? ==> reserved == old(reserved) - {p}
      ensures err.None? || err == Some(Fault)
    {
      var fault: bool, applied: bool := *, *;
      if !fault || applied {
        reserved := reserved - {p};
      }
      err := if fault then Some(Fault) else None;
      trace := Then(trace, PortReleased(p, err.None?));
    }

    method Start(link: LinkID, port: nat) returns (err: Option<Err>, id: string)
      requires OK()
      modifies this`processes, this`issued, this`trace
      ensures OK()
      ensures err.None? ==>
        && id != "" && id !in old(issued) && id !in old(processes)
        && processes == old(processes)[id := link] && issued == old(issued)[id := link]
        && trace == Then(old(trace), Started(link, port, id))
      ensures err.Some? ==>
        err == Some(Fault) && processes == old(processes) && issued == old(issued) && trace == old(trace)
    {
      var fault: bool := *;
      id := *;
      if fault || id == "" || id in issued {
        err := Some(Fault);
      } else {
        err, issued, processes := None, issued[id := link], processes[id := link];
        trace := Then(trace, Started(link, port, id));
      }
    }

    method Stop(id: string, ghost link: LinkID) returns (err: Option<Err>)
      requires OK()
      modifies this`processes, this`trace
      ensures OK() && trace == Then(old(trace), StopTried(link, id, err.None?))
      ensures processes == old(processes) || processes == old(processes) - {id}
      ensures err.None? ==> processes == old(processes) - {id}
      ensures err.None? || err == Some(Fault)
    {
      var fault: bool, applied: bool := *, *;
      if !fault || applied {
        processes := processes - {id};
      }
      err := if fault then Some(Fault) else None;
      trace := Then(trace, StopTried(link, id, err.None?));
    }

    /** A process exits by itself; nobody is told. */
    method Exit(id: string)
      requires OK()
      modifies this`processes
      ensures OK() && processes == old(processes) - {id}
    {
      processes := processes - {id};
    }

    method Alive(id: string) returns (err: Option<Err>, alive: bool)
      modifies this`trace
      ensures trace == Then(old(trace), AliveSeen(id, err.None? && alive))
    {
      var fault: bool := *;
      alive := *;
      err := if fault then Some(Fault) else None;
      trace := Then(trace, AliveSeen(id, err.None? && alive));
    }

    /** Probes `url` for a link. */
    method CheckUntil(url: HealthURL, ghost link: LinkID) returns (err: Option<Err>)
      modifies this`trace
      ensures trace == Then(old(trace), Probed(link, Render(url), err.None?))
      ensures err.None? || err == Some(Fault)
    {
      var fault: bool := *;
      err := if fault then Some(Fault) else None;
      trace := Then(trace, Probed(link, Render(url), err.None?));
    }

    /** A connection to the route array, for one call. */
    method Connect() returns (admin: Admin, client: Client)
      ensures fresh(admin) && fresh(client) && client.admin == admin && client.loopback == loopback
      ensures admin.routes == entries && admin.log == []
    {
      admin := new Admin(entries);
      client := new Client(admin, loopback);
    }

    method AddRoute(r: Route) returns (err: Option<ProxyError>)
      requires OK()
      modifies this`entries, this`trace
      ensures OK() && trace == Then(old(trace), AddTried(r, err.None?))
      ensures !degraded ==> AddOutcome(old(Routes()), r, err, Routes())
    {
      var admin, client := Connect();
      err := client.Add(r);
      entries, trace := admin.routes, Then(trace, AddTried(r, err.None?));
    }

    method RemoveRoute(id: LinkID) returns (err: Option<ProxyError>)
      requires OK()
      modifies this`entries, this`trace
      ensures OK() && trace == Then(old(trace), RemoveTried(id, err.None?))
      ensures !degraded ==> RemoveOutcome(old(Routes()), id, err, Routes())
    {
      var admin, client := Connect();
      err := client.Remove(id);
      entries, trace := admin.routes, Then(trace, RemoveTried(id, err.None?));
    }

    /** Refuses a list exactly when the Caddy client does. A failure degrades the
        array only if the report is that of an unrestored array and the array was
        fragile; a success puts it right exactly when it was not stuck. */
    method ReconcileRoutes(desired: seq<Route>) returns (err: Option<ProxyError>)
      requires OK()
      modifies this`entries, this`trace, this`degraded
      ensures OK()
      ensures trace == Then(old(trace), ReconcileTried(desired, err.None?, Fragile(old(entries), TableOf(desired))))
      ensures err.Some? && err.value in {ProxyError.Validation, DuplicateDesired} <==> !Admissible(desired, loopback)
      ensures err.Some? && degraded ==>
        old(degraded) || (Unrestored(err.value) && Fragile(old(entries), TableOf(desired)))
      ensures err.Some? && old(degraded) ==> degraded
      ensures err.None? ==> (degraded <==> Stuck(old(entries), TableOf(desired)))
      ensures err.None? && !degraded ==> Tabulates(Routes(), desired)
      ensures !old(degraded) ==> ReconcileOutcome(old(Routes()), desired, err, Routes())
    {
      ghost var o := entries;
      err := RunReconcile(desired);
      degraded := (err.Some? && degraded) || !WellFormed(entries);
      trace := Then(trace, ReconcileTried(desired, err.None?, Fragile(o, TableOf(desired))));
    }

    /** One call of the client's Reconcile. */
    method RunReconcile(desired: seq<Route>) returns (err: Option<ProxyError>)
      modifies this`entries
      ensures Reconciliation(old(entries), desired, err, entries, loopback)
    {
      var admin, client := Connect();
      var cancelled: bool := *;
      var ctx := new Context(cancelled);
      ghost var added: seq<Route>;
      err, added := client.Reconcile(ctx, desired);
      if err.None? {
        Restoration(entries, desired, added, loopback);
      }
      entries := admin.routes;
    }
  }

  /** What a Reconcile of any array may come to, as far as the owned routes and the shape are concerned. */
  ghost predicate Reconciliation(
    o: seq<Raw>, desired: seq<Route>, err: Option<ProxyError>, t: seq<Raw>, loopback: LoopbackCheck)
  {
    && (err.Some? && err.value in {ProxyError.Validation, DuplicateDesired} <==> !Admissible(desired, loopback))
    && (err.None? ==> (WellFormed(t) <==> !Stuck(o, TableOf(desired))) && (WellFormed(t) ==> Tabulates(View(t), desired)))
    && (err.Some? && !Unrestored(err.value) ==> t == o)
    && (WellFormed(o) ==> ReconcileOutcome(View(o), desired, err, View(t)))
    && (WellFormed(o) && !WellFormed(t) ==> err.Some? && Unrestored(err.value) && Fragile(o, TableOf(desired)))
  }

  /** What a successful Reconcile makes of any array that parses. */
  lemma {:induction false} Restoration(o: seq<Raw>, desired: seq<Route>, added: seq<Route>, loopback: LoopbackCheck)
    requires AllParsed(o) && Admissible(desired, loopback) && Visits(added, Missing(o, TableOf(desired)), TableOf(desired))
    ensures var t := Cleared(o, TableOf(desired), added);
      && (WellFormed(t) <==> !Stuck(o, TableOf(desired)))
      && (WellFormed(t) ==> Tabulates(View(t), desired))
  {
    var w := TableOf(desired);
    TableTabulates(desired);
    forall id | id in w ensures w[id].linkID == id && Encodable(w[id]) {
      var d :| d in desired && d.linkID == id;
    }
    RestoredIffNotStuck(o, w, added);
    if !Stuck(o, w) {
      RestoredFaithful(o, w, added);
    }
  }
}
