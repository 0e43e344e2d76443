/** The Admin API client (internal/adapters/outbound/caddy/caddy.go): Add,
    Remove, List and Reconcile, editing the route array one request at a time.
    Reconcile's three phases are three methods here, in the order the source
    runs them; its compensation closures are Undo values.
 */
module CaddyClient {
  import opened Ports
  import opened CaddyRoutes
  import opened CaddyUndo
  import opened CaddyPlan
  import opened CaddyEdits
  import opened CaddyAdmin
  import opened CaddyPhases
  import opened CaddyExposure
  import opened CaddyFragility
  import opened CaddyRecovery

  class Client {
    const admin: Admin
    const loopback: LoopbackCheck

    constructor (admin: Admin, loopback: LoopbackCheck)
      ensures this.admin == admin && this.loopback == loopback
    {
      this.admin, this.loopback := admin, loopback;
    }

    // ---------------------------------------------------- Add, Remove, List

    /** The first element with the identity, by linear search. */
    static method Find(all: seq<CaddyRoute>, id: string) returns (k: nat)
      ensures k <= |all|
      ensures forall j :: 0 <= j < k ==> all[j].id != id
      ensures k < |all| ==> all[k].id == id
    {
      k := 0;
      while k < |all|
        invariant k <= |all|
        invariant forall j :: 0 <= j < k ==> all[j].id != id
      {
        if all[k].id == id {
          return;
        }
        k := k + 1;
      }
    }

    static method FallbackIndex(all: seq<CaddyRoute>) returns (k: nat)
      ensures k <= |all|
      ensures forall j :: 0 <= j < k ==> all[j].id != FallbackID
      ensures k < |all| ==> all[k].id == FallbackID
    {
      k := Find(all, FallbackID);
    }

    method Fetch(ghost phase: Phase) returns (r: Result<seq<CaddyRoute>>)
      modifies admin`log
      ensures admin.log == old(admin.log) + [Event(phase, Read, if r.Err? then Some(r.error) else None)]
      ensures admin.log[|old(admin.log)|].phase == phase && admin.log[|old(admin.log)|].err.None? == r.Ok?
      ensures r.Ok? ==> AllParsed(admin.routes) && r.value == Parsed(admin.routes)
      ensures r.Err? ==> Transport(r.error)
    {
      var raw := admin.Get(true, phase);
      match raw
      case Ok(s) => r := Ok(Parsed(s));
      case Err(e) => r := Err(e);
    }

    /** Upsert of one owned route. */
    method Add(wanted: Route) returns (err: Option<ProxyError>)
      modifies admin
      ensures !ValidRoute(wanted, loopback) ==>
        err == Some(Validation) && admin.routes == old(admin.routes) && admin.log == old(admin.log)
      ensures admin.routes == old(admin.routes) || admin.routes == Added(old(admin.routes), wanted)
      ensures err.None? ==> admin.routes == Added(old(admin.routes), wanted)
      ensures err.Some? ==> !Unrestored(err.value)
      ensures WellFormed(old(admin.routes)) ==>
        && KeepsShape(old(admin.routes), admin.routes)
        && AddOutcome(View(old(admin.routes)), wanted, err, View(admin.routes))
    {
      if !ValidRoute(wanted, loopback) {
        return Some(Validation);
      }
      ghost var s := admin.routes;
      err := Upsert(wanted);
      if WellFormed(s) {
        AddMeets(s, wanted, err, admin.routes);
      }
    }

    method Upsert(wanted: Route) returns (err: Option<ProxyError>)
      modifies admin
      ensures admin.routes == old(admin.routes) || admin.routes == Added(old(admin.routes), wanted)
      ensures err.None? ==> admin.routes == Added(old(admin.routes), wanted)
      ensures err.Some? ==> Transport(err.value)
    {
      var fetched := Fetch(Forward);
      if fetched.Err? {
        return Some(fetched.error);
      }
      var all := fetched.value;
      var i := Find(all, RouteID(wanted.linkID));
      IndexOfUnique(admin.routes, RouteID(wanted.linkID), i);
      ghost var applied: bool;
      if i < |all| {
        if Decode(all[i]) == Some(wanted) {
          return None;
        }
        err, applied := admin.Send(Put(i, Canon(wanted)), Forward);
      } else {
        var at := FallbackIndex(all);
        FallbackAtUnique(admin.routes, at);
        err, applied := admin.Send(Post(at, Canon(wanted)), Forward);
      }
    }

    /** Deletion of one owned route; an unknown link is no error. */
    method Remove(id: LinkID) returns (err: Option<ProxyError>)
      modifies admin
      ensures id == "" ==>
        err == Some(Validation) && admin.routes == old(admin.routes) && admin.log == old(admin.log)
      ensures admin.routes == old(admin.routes) || admin.routes == Removed(old(admin.routes), id)
      ensures err.None? ==> admin.routes == Removed(old(admin.routes), id)
      ensures err.Some? ==> !Unrestored(err.value)
      ensures WellFormed(old(admin.routes)) ==>
        && KeepsShape(old(admin.routes), admin.routes)
        && RemoveOutcome(View(old(admin.routes)), id, err, View(admin.routes))
    {
      if id == "" {
        return Some(Validation);
      }
      ghost var s := admin.routes;
      err := Withdraw(id);
      if WellFormed(s) {
        RemoveMeets(s, id, err, admin.routes);
      }
    }

    method Withdraw(id: LinkID) returns (err: Option<ProxyError>)
      modifies admin
      ensures admin.routes == old(admin.routes) || admin.routes == Removed(old(admin.routes), id)
      ensures err.None? ==> admin.routes == Removed(old(admin.routes), id)
      ensures err.Some? ==> Transport(err.value)
    {
      var fetched := Fetch(Forward);
      if fetched.Err? {
        return Some(fetched.error);
      }
      var all := fetched.value;
      var i := Find(all, RouteID(id));
      IndexOfUnique(admin.routes, RouteID(id), i);
      if i < |all| {
        ghost var applied: bool;
        err, applied := admin.Send(Del(i), Forward);
      } else {
        err := None;
      }
    }

    /** The decodable owned routes, in array order. */
    method List() returns (r: Result<seq<Route>>)
      modifies admin`log
      ensures r.Ok? ==> r.value == Listed(admin.routes)
      ensures r.Err? ==> Transport(r.error)
    {
      var fetched := Fetch(Forward);
      if fetched.Err? {
        return Err(fetched.error);
      }
      var all, out, i := fetched.value, [], 0;
      while i < |all|
        invariant i <= |all|
        invariant out == Listed(admin.routes[..i])
      {
        match Decode(all[i]) {
          case Some(d) => out := out + [d];
          case None =>
        }
        ListedConcat(admin.routes[..i], [admin.routes[i]]);
        assert admin.routes[..i + 1] == admin.routes[..i] + [admin.routes[i]];
        i := i + 1;
      }
      assert admin.routes[..i] == admin.routes;
      r := Ok(out);
    }

    // -------------------------------------------------- Reconcile: rollback

    /** Runs one compensation; it takes effect or leaves the array as it found it. */
    method RunUndo(u: Undo) returns (err: Option<ProxyError>, ghost effective: bool)
      modifies admin
      ensures admin.routes == if effective then UndoEffect(u, old(admin.routes)) else old(admin.routes)
      ensures old(admin.log) <= admin.log && Only(admin.log, |old(admin.log)|, Compensation)
      ensures NoFailure(admin.log, |old(admin.log)|, Compensation) ==> effective && err.None?
    {
      match u
      case PutBack(index, before) =>
        err, effective := admin.Send(Put(index, before), Compensation);
      case TakeOut(id) =>
        var fetched := Fetch(Compensation);
        if fetched.Err? {
          return Some(fetched.error), false;
        }
        var i := Find(fetched.value, RouteID(id));
        IndexOfUnique(admin.routes, RouteID(id), i);
        if i < |fetched.value| {
          err, effective := admin.Send(Del(i), Compensation);
        } else {
          err, effective := None, true;
        }
      case Reinsert(index, before) =>
        var fetched := admin.Get(false, Compensation);
        if fetched.Err? {
          return Some(fetched.error), false;
        }
        var current, i := fetched.value, 0;
        while i < |current|
          invariant i <= |current|
          invariant before !in current[..i]
        {
          if current[i] == before {
            return None, true;
          }
          i := i + 1;
        }
        err, effective := admin.Send(Post(index, before), Compensation);
    }

    /** Replays the undo stack from the top, ignoring failures, then compares the
        array with the snapshot. Only a verified restoration returns the cause. */
    method Rollback(cause: ProxyError, original: seq<Raw>, undos: seq<Undo>)
      returns (err: ProxyError, ghost effective: seq<bool>)
      requires Transport(cause)
      modifies admin
      ensures |effective| == |undos| && admin.routes == UndoSome(undos, 0, effective, old(admin.routes))
      ensures err == cause || err == RollbackIncomplete(cause) || err == RollbackIndeterminate(cause)
      ensures err == cause ==> admin.routes == original
      ensures err == RollbackIncomplete(cause) ==> admin.routes != original
      ensures old(admin.log) <= admin.log && Only(admin.log, |old(admin.log)|, Compensation)
      ensures NoFailure(admin.log, |old(admin.log)|, Compensation) ==>
        && admin.routes == UndoAll(undos, old(admin.routes))
        && err != RollbackIndeterminate(cause)
    {
      effective := [];
      var i: nat := |undos|;
      while i > 0
        invariant i <= |undos| && |effective| == |undos| - i
        invariant admin.routes == UndoSome(undos, i, effective, old(admin.routes))
        invariant old(admin.log) <= admin.log && Only(admin.log, |old(admin.log)|, Compensation)
        invariant NoFailure(admin.log, |old(admin.log)|, Compensation) ==>
          forall j :: 0 <= j < |effective| ==> effective[j]
      {
        i := i - 1;
        ghost var took: bool;
        var ignored: Option<ProxyError>;
        ghost var before := admin.log;
        ignored, took := RunUndo(undos[i]);
        if NoFailure(admin.log, |old(admin.log)|, Compensation) {
          NoFailureEarlier(before, admin.log, |old(admin.log)|, Compensation);
        }
        effective := [took] + effective;
      }
      ghost var replayed := admin.log;
      var verified := admin.Get(false, Compensation);
      match verified {
        case Err(_) => err := RollbackIndeterminate(cause);
        case Ok(current) => err := if current == original then cause else RollbackIncomplete(cause);
      }
      if NoFailure(admin.log, |old(admin.log)|, Compensation) {
        NoFailureEarlier(replayed, admin.log, |old(admin.log)|, Compensation);
        AllEffective(undos, 0, effective, old(admin.routes));
        assert undos[..0] == [];
        assert admin.log[|replayed|].err.None?;
      }
    }

    /** One forward write on a detached context, the caller's context being checked
        immediately before and after it. */
    method Mutate(ctx: Context, w: Write) returns (err: Option<ProxyError>, ghost applied: bool)
      modifies admin, ctx
      ensures applied ==> InRange(old(admin.routes), w)
      ensures admin.routes == if applied then Apply(old(admin.routes), w) else old(admin.routes)
      ensures old(ctx.done) ==> ctx.done
      ensures err.None? ==>
        applied && !ctx.done && admin.log == old(admin.log) + [Event(Forward, Change(w), None)]
      ensures err.Some? ==> Transport(err.value)
      ensures err.Some? ==>
        if ctx.done then err.value == Timeout else admin.log == old(admin.log) + [Event(Forward, Change(w), err)]
      ensures old(admin.log) <= admin.log && Only(admin.log, |old(admin.log)|, Forward)
    {
      var cancelled := ctx.Err();
      if cancelled {
        return Some(Timeout), false;
      }
      err, applied := admin.Send(w, Forward);
      cancelled := ctx.Err();
      if cancelled {
        err := Some(Timeout);
      }
    }

    /** The desired list as a table, or the first thing wrong with it. */
    method BuildWanted(desired: seq<Route>) returns (err: Option<ProxyError>, wanted: RouteTable)
      ensures err.None? <==> Admissible(desired, loopback)
      ensures err.Some? ==> err.value in {Validation, DuplicateDesired}
      ensures err.None? ==> wanted == TableOf(desired) && Tabulates(wanted, desired) && Proper(wanted)
    {
      wanted := map[];
      var i := 0;
      while i < |desired|
        invariant i <= |desired|
        invariant Admissible(desired[..i], loopback)
        invariant wanted == TableOf(desired[..i])
        invariant wanted.Keys == LinksOf(desired[..i])
      {
        var r := desired[i];
        assert desired[..i + 1] == desired[..i] + [r];
        assert desired[..i + 1][..i] == desired[..i];
        assert r in desired;
        if !ValidRoute(r, loopback) {
          return Some(Validation), wanted;
        }
        if r.linkID in wanted {
          var d :| d in desired[..i] && d.linkID == r.linkID;
          return Some(DuplicateDesired), wanted;
        }
        wanted := wanted[r.linkID := r];
        i := i + 1;
        TableTabulates(desired[..i]);
      }
      assert desired[..i] == desired;
      TableTabulates(desired);
      forall id | id in wanted ensures wanted[id].linkID == id && Encodable(wanted[id]) {
        var d :| d in desired && d.linkID == id;
      }
      err := None;
    }

    // ---------------------------------------------------- Reconcile: phases

    /** Stacks a compensation, then issues the write it is for. */
    method Guarded(ctx: Context, w: Write, u: Undo, undos0: seq<Undo>,
                   ghost exact: bool, ghost original: seq<Raw>, ghost table: RouteTable, ghost before: Log)
      returns (err: Option<ProxyError>, undos: seq<Undo>)
      requires Recoverable(exact, original, table, admin.routes, undos0)
      requires Prepared(exact, original, table, admin.routes, u, w) && (u.PutBack? ==> OnlyPutBacks(undos0))
      requires Ledger(before, admin.log, ctx.done, None)
      modifies admin, ctx
      ensures undos == undos0 + [u] && Recoverable(exact, original, table, admin.routes, undos)
      ensures Ledger(before, admin.log, ctx.done, err) && (old(ctx.done) ==> ctx.done)
      ensures admin.routes == old(admin.routes)
              || (InRange(old(admin.routes), w) && admin.routes == Apply(old(admin.routes), w))
      ensures err.None? ==>
        && InRange(old(admin.routes), w) && admin.routes == Apply(old(admin.routes), w)
        && |admin.log| > |before|
    {
      undos := undos0 + [u];
      ghost var s, log, done := admin.routes, admin.log, ctx.done;
      ghost var applied: bool;
      err, applied := Mutate(ctx, w);
      WriteRecoverable(exact, original, table, s, undos0, u, w, applied);
      LedgerExtends(before, log, admin.log, done, ctx.done, err);
    }

    /** Phase one: rewrite, in place, the desired entries that are not as wanted. */
    method RepairPhase(ctx: Context, original: seq<Raw>, all: seq<CaddyRoute>, w: RouteTable)
      returns (err: Option<ProxyError>, undos: seq<Undo>, wanted: RouteTable)
      requires AllParsed(original) && all == Parsed(original) && admin.routes == original && Proper(w)
      modifies admin, ctx
      ensures old(ctx.done) ==> ctx.done
      ensures Ledger(old(admin.log), admin.log, ctx.done, err)
      ensures admin.log == old(admin.log) && err.None? ==> ctx.done == old(ctx.done)
      ensures Recoverable(true, original, w, admin.routes, undos)
      ensures SameIDs(admin.routes, original) && OnlyPutBacks(undos)
      ensures err.None? ==> Repairing(original, w, |original|, admin.routes, wanted)
      ensures (forall x | x in original :: !NeedsRepair(x, w)) ==>
        err.None? && admin.log == old(admin.log) && admin.routes == original
    {
      err, undos, wanted := None, [], w;
      ghost var quiet := forall x | x in original :: !NeedsRepair(x, w);
      RepairStart(original, w);
      var i := 0;
      while i < |all|
        invariant i <= |all| && err.None?
        invariant old(ctx.done) ==> ctx.done
        invariant Ledger(old(admin.log), admin.log, ctx.done, None)
        invariant admin.log == old(admin.log) ==> ctx.done == old(ctx.done)
        invariant Recoverable(true, original, w, admin.routes, undos) && OnlyPutBacks(undos)
        invariant Repairing(original, w, i, admin.routes, wanted)
        invariant quiet ==> admin.log == old(admin.log) && admin.routes == old(admin.routes)
      {
        var existing := all[i];
        if OwnedID(existing.id) {
          var id := LinkIDOf(existing.id);
          if id in wanted && Decode(existing) != Some(wanted[id]) {
            RepairStep(original, w, i, admin.routes, wanted);
            err, undos := Guarded(ctx, Put(i, Canon(wanted[id])), PutBack(i, original[i]), undos,
                                  true, original, w, old(admin.log));
            if err.Some? {
              return;
            }
          } else {
            RepairSkip(original, w, i, admin.routes, wanted);
          }
          wanted := wanted - {id};
        } else {
          RepairSkip(original, w, i, admin.routes, wanted);
        }
        i := i + 1;
      }
    }

    /** Phase two: insert the missing routes in front of the fallback, in whatever
        order the map yields them. `all` follows the server's array. */
    method InsertPhase(ctx: Context, ghost original: seq<Raw>, all0: seq<CaddyRoute>, ghost w: RouteTable,
                       wanted: RouteTable, undos0: seq<Undo>)
      returns (err: Option<ProxyError>, undos: seq<Undo>, all: seq<CaddyRoute>, ghost added: seq<Route>)
      requires Aligned(all0, admin.routes) && Proper(w)
      requires wanted == w - OwnedKeys(original) && SameIDs(admin.routes, original)
      requires Recoverable(true, original, w, admin.routes, undos0) && NoReinserts(undos0)
      modifies admin, ctx
      ensures old(ctx.done) ==> ctx.done
      ensures Ledger(old(admin.log), admin.log, ctx.done, err)
      ensures admin.log == old(admin.log) && err.None? ==> ctx.done == old(ctx.done)
      ensures Recoverable(true, original, w, admin.routes, undos) && NoReinserts(undos)
      ensures err.Some? && WellFormed(original) ==> Halted(original, w, admin.routes, undos)
      ensures err.None? ==>
        Inserting(original, w, old(admin.routes), {}, added, admin.routes) && Aligned(all, admin.routes)
      ensures wanted == map[] ==> err.None? && admin.log == old(admin.log) && admin.routes == old(admin.routes)
    {
      err, undos, all, added := None, undos0, all0, [];
      ghost var m, quiet := admin.routes, wanted == map[];
      var remaining := wanted.Keys;
      InsertStart(original, w, m);
      while remaining != {}
        invariant err.None?
        invariant old(ctx.done) ==> ctx.done
        invariant Ledger(old(admin.log), admin.log, ctx.done, None)
        invariant admin.log == old(admin.log) ==> ctx.done == old(ctx.done)
        invariant Recoverable(true, original, w, admin.routes, undos) && NoReinserts(undos)
        invariant remaining <= wanted.Keys
        invariant Inserting(original, w, m, remaining, added, admin.routes)
        invariant Aligned(all, admin.routes)
        invariant quiet ==> admin.log == old(admin.log) && admin.routes == old(admin.routes)
        decreases |remaining|
      {
        var id :| id in remaining;
        err, undos, all := InsertOne(ctx, original, all, w, m, remaining, added, wanted[id], undos, old(admin.log));
        if err.Some? {
          return;
        }
        added := added + [wanted[id]];
        remaining := remaining - {id};
      }
    }

    /** One missing route. */
    method InsertOne(ctx: Context, ghost original: seq<Raw>, all0: seq<CaddyRoute>, ghost w: RouteTable, ghost m: seq<Raw>,
                     ghost remaining: set<LinkID>, ghost added: seq<Route>, want: Route, undos0: seq<Undo>, ghost before: Log)
      returns (err: Option<ProxyError>, undos: seq<Undo>, all: seq<CaddyRoute>)
      requires Aligned(all0, admin.routes) && Proper(w) && want.linkID in remaining && want.linkID in w && want == w[want.linkID]
      requires Inserting(original, w, m, remaining, added, admin.routes)
      requires Recoverable(true, original, w, admin.routes, undos0) && NoReinserts(undos0)
      requires Ledger(before, admin.log, ctx.done, None)
      modifies admin, ctx
      ensures old(ctx.done) ==> ctx.done
      ensures Ledger(before, admin.log, ctx.done, err)
      ensures Recoverable(true, original, w, admin.routes, undos) && NoReinserts(undos)
      ensures err.Some? && WellFormed(original) ==> Halted(original, w, admin.routes, undos)
      ensures err.None? ==>
        && Inserting(original, w, m, remaining - {want.linkID}, added + [want], admin.routes)
        && Aligned(all, admin.routes) && |admin.log| > |before|
    {
      all := all0;
      var index := FallbackIndex(all);
      ghost var s := admin.routes;
      AlignedFallback(all, s, index);
      InsertPrepared(original, w, m, remaining, added, s, want.linkID);
      InsertStep(original, w, m, remaining, added, s, want.linkID);
      err, undos := Guarded(ctx, Post(index, Canon(want)), TakeOut(want.linkID), undos0, true, original, w, before);
      if err.None? {
        AlignedInsert(all, s, index, want);
        all := all[..index] + [Encode(want)] + all[index..];
      } else if WellFormed(original) {
        GivesUpInserting(original, w, m, remaining, added, s, want.linkID, admin.routes, undos);
      }
    }

    /** Phase three: delete orphans from the highest snapshot index to the lowest. */
    method DeletePhase(ctx: Context, original: seq<Raw>, all: seq<CaddyRoute>, ghost w: RouteTable,
                       wanted: RouteTable, desired: seq<Route>, undos0: seq<Undo>, ghost added: seq<Route>)
      returns (err: Option<ProxyError>, undos: seq<Undo>)
      requires Aligned(all, admin.routes) && |all| >= |original|
      requires wanted.Keys <= w.Keys == LinksOf(desired) && Proper(w)
      requires Recoverable(WellFormed(original), original, w, admin.routes, undos0) && NoReinserts(undos0)
      requires Visits(added, Missing(original, w), w) && admin.routes == Stretched(original, w, added)
      modifies admin, ctx
      ensures old(ctx.done) ==> ctx.done
      ensures Ledger(old(admin.log), admin.log, ctx.done, err)
      ensures admin.log == old(admin.log) && err.None? ==> ctx.done == old(ctx.done)
      ensures Recoverable(WellFormed(original), original, w, admin.routes, undos)
      ensures err.Some? && WellFormed(original) ==> Halted(original, w, admin.routes, undos)
      ensures err.None? ==> admin.routes == Cleared(original, w, added)
      ensures (forall x | x in old(admin.routes) :: !Orphan(x, w)) ==>
        err.None? && admin.log == old(admin.log) && admin.routes == old(admin.routes)
    {
      err, undos := None, undos0;
      ghost var a := admin.routes;
      ghost var quiet := forall x | x in a :: !Orphan(x, w);
      var i: nat := |original|;
      DeletingStart(original, w, added, a, undos0);
      while i > 0
        invariant i <= |original| && err.None?
        invariant old(ctx.done) ==> ctx.done
        invariant Ledger(old(admin.log), admin.log, ctx.done, None)
        invariant admin.log == old(admin.log) ==> ctx.done == old(ctx.done)
        invariant Deleting(original, w, added, undos0, i, admin.routes, undos)
        invariant quiet ==> admin.log == old(admin.log) && admin.routes == old(admin.routes)
      {
        var condemned := Condemned(all[i - 1], wanted, desired, w);
        assert a[i - 1] in a && all[i - 1].id == IDOf(a[i - 1]);
        assert condemned <==> Orphan(a[i - 1], w);
        err, undos, i := DeleteAt(ctx, original, i, condemned, undos, w, added, undos0, old(admin.log));
        if err.Some? {
          return;
        }
      }
      ClearDone(a, w, |original|, admin.routes);
    }

    /** The deleting loop at position `i`, the one below `n`. */
    method DeleteAt(ctx: Context, original: seq<Raw>, n: nat, condemned: bool, undos1: seq<Undo>,
                    ghost w: RouteTable, ghost added: seq<Route>, ghost undos0: seq<Undo>, ghost before: Log)
      returns (err: Option<ProxyError>, undos: seq<Undo>, i: nat)
      requires Proper(w) && Visits(added, Missing(original, w), w) && NoReinserts(undos0)
      requires 0 < n <= |original| <= |Stretched(original, w, added)|
      requires condemned <==> Orphan(Stretched(original, w, added)[n - 1], w)
      requires Deleting(original, w, added, undos0, n, admin.routes, undos1)
      requires Ledger(before, admin.log, ctx.done, None)
      modifies admin, ctx
      ensures old(ctx.done) ==> ctx.done
      ensures Ledger(before, admin.log, ctx.done, err)
      ensures Recoverable(WellFormed(original), original, w, admin.routes, undos)
      ensures err.Some? && WellFormed(original) ==> Halted(original, w, admin.routes, undos)
      ensures i == n - 1 && (err.None? ==> Deleting(original, w, added, undos0, i, admin.routes, undos))
      ensures !condemned ==>
        err.None? && admin.log == old(admin.log) && admin.routes == old(admin.routes) && ctx.done == old(ctx.done)
      ensures condemned && err.None? ==> |admin.log| > |before|
    {
      ghost var s := admin.routes;
      i := n - 1;
      DeleteReady(original, w, added, i, s);
      err, undos := None, undos1;
      if condemned {
        err, undos := Guarded(ctx, Del(i), Reinsert(i, original[i]), undos, WellFormed(original), original, w, before);
        assert i < |s| && (admin.routes == Apply(s, Del(i)) || (err.Some? && admin.routes == s));
        DeleteAnswered(original, w, added, i, s, err.None?, admin.routes, undos0, undos1);
      }
    }

    /** Is this an owned entry that nobody desires? */
    static method Condemned(x: CaddyRoute, wanted: RouteTable, desired: seq<Route>, ghost w: RouteTable) returns (yes: bool)
      requires wanted.Keys <= w.Keys == LinksOf(desired)
      ensures yes <==> OwnedID(x.id) && LinkIDOf(x.id) !in w
    {
      var id := LinkIDOf(x.id);
      var retained := Names(desired, id);
      yes := OwnedID(x.id) && id !in wanted && !retained;
    }

    /** Does the desired list name the link? */
    static method Names(desired: seq<Route>, id: LinkID) returns (found: bool)
      ensures found <==> id in LinksOf(desired)
    {
      found := false;
      var i := 0;
      while i < |desired|
        invariant i <= |desired|
        invariant found <==> exists j :: 0 <= j < i && desired[j].linkID == id
      {
        found := found || desired[i].linkID == id;
        i := i + 1;
      }
      if found {
        var j :| 0 <= j < |desired| && desired[j].linkID == id;
        assert desired[j] in desired;
      }
    }

    // ----------------------------------------------------------- Reconcile

    /** Rolls back after `cause` and states what the report is worth. */
    method Abandon(cause: ProxyError, original: seq<Raw>, undos: seq<Undo>,
                   ghost exact: bool, ghost w: RouteTable, ghost before: Log, ghost done: bool)
      returns (err: ProxyError)
      requires Recoverable(exact, original, w, admin.routes, undos)
      requires WellFormed(original) ==> Halted(original, w, admin.routes, undos)
      requires Ledger(before, admin.log, done, Some(cause)) && Proper(w)
      modifies admin
      ensures Sourced(admin.routes, original, w)
      ensures before <= admin.log && Root(err) == cause
      ensures !Unrestored(err) ==> admin.routes == original
      ensures if done then cause == Timeout else LatestFailure(admin.log, |before|) == Some(cause)
      ensures exact && NoFailure(admin.log, |before|, Compensation) ==>
        admin.routes == original && !Unrestored(err)
      ensures WellFormed(original) && !Exposed(original, w) ==> Foreign(admin.routes) == Foreign(original)
      ensures WellFormed(original) && !MayDouble(original, w) ==> UniqueOwned(admin.routes)
      ensures WellFormed(original) && !Fragile(original, w) ==> WellFormed(admin.routes)
    {
      ghost var s, log := admin.routes, admin.log;
      ghost var effective: seq<bool>;
      err, effective := Rollback(cause, original, undos);
      RollbackWorth(exact, original, w, undos, effective, s);
      LatestFailureStays(log, admin.log, |before|);
    }

    /** Makes the owned routes exactly the desired ones, or reports why not. */
    method Reconcile(ctx: Context, desired: seq<Route>) returns (err: Option<ProxyError>, ghost added: seq<Route>)
      modifies admin, ctx
      ensures old(ctx.done) ==> ctx.done
      ensures old(admin.log) <= admin.log
      // an inadmissible list is refused before anything is read
      ensures !Admissible(desired, loopback) ==>
        && err.Some? && err.value in {Validation, DuplicateDesired}
        && admin.routes == old(admin.routes) && admin.log == old(admin.log)
      ensures Admissible(desired, loopback) && err.Some? ==> err.value !in {Validation, DuplicateDesired}
      // whatever happens, no entry appears that was neither there nor wanted
      ensures Admissible(desired, loopback) ==> Sourced(admin.routes, old(admin.routes), TableOf(desired))
      // success: every write succeeded, none was followed by a cancellation, and the array is the planned one
      ensures err.None? ==>
        && Only(admin.log, |old(admin.log)|, Forward) && NoFailure(admin.log, |old(admin.log)|, Forward)
        && (ctx.done ==> NoWrites(admin.log, |old(admin.log)|))
      ensures err.None? ==>
        && AllParsed(old(admin.routes))
        && Visits(added, Missing(old(admin.routes), TableOf(desired)), TableOf(desired))
        && admin.routes == Cleared(old(admin.routes), TableOf(desired), added)
      // an ordinary error means the snapshot, however the compensation behaved
      ensures err.Some? && !Unrestored(err.value) ==> admin.routes == old(admin.routes)
      // with working compensation an error is always an ordinary one
      ensures err.Some? && WellFormed(old(admin.routes)) && NoFailure(admin.log, |old(admin.log)|, Compensation) ==>
        !Unrestored(err.value) && admin.routes == old(admin.routes)
      // what the answer is worth on a well-formed array, however the compensation behaved
      ensures Admissible(desired, loopback) && WellFormed(old(admin.routes)) ==>
        Worth(old(admin.routes), desired, TableOf(desired), added, err, admin.routes)
      // and it is the failure that stopped the forward writes
      ensures err.Some? && Admissible(desired, loopback) && AllParsed(old(admin.routes)) ==>
        && |admin.log| > |old(admin.log)|
        && if admin.log[|old(admin.log)|].err.None? && ctx.done then Root(err.value) == Timeout
           else LatestFailure(admin.log, |old(admin.log)|) == Some(Root(err.value))
      // nothing to do, nothing written
      ensures AllParsed(old(admin.routes)) && Settled(old(admin.routes), TableOf(desired)) ==>
        admin.routes == old(admin.routes) && NoWrites(admin.log, |old(admin.log)|)
    {
      added := [];
      var wanted: RouteTable;
      err, wanted := BuildWanted(desired);
      if err.None? {
        err, added := ReconcileTable(ctx, desired, wanted);
      }
    }

    /** Reconcile once the desired list is accepted. */
    method ReconcileTable(ctx: Context, desired: seq<Route>, w: RouteTable)
      returns (err: Option<ProxyError>, ghost added: seq<Route>)
      requires Admissible(desired, loopback) && w == TableOf(desired) && Tabulates(w, desired) && Proper(w)
      modifies admin, ctx
      ensures old(ctx.done) ==> ctx.done
      ensures old(admin.log) <= admin.log
      ensures err.Some? ==> err.value !in {Validation, DuplicateDesired}
      ensures Sourced(admin.routes, old(admin.routes), w)
      ensures err.None? ==>
        && Only(admin.log, |old(admin.log)|, Forward) && NoFailure(admin.log, |old(admin.log)|, Forward)
        && (ctx.done ==> NoWrites(admin.log, |old(admin.log)|))
        && AllParsed(old(admin.routes)) && Visits(added, Missing(old(admin.routes), w), w)
        && admin.routes == Cleared(old(admin.routes), w, added)
      ensures err.Some? && !Unrestored(err.value) ==> admin.routes == old(admin.routes)
      ensures err.Some? && WellFormed(old(admin.routes)) && NoFailure(admin.log, |old(admin.log)|, Compensation) ==>
        !Unrestored(err.value) && admin.routes == old(admin.routes)
      ensures err.Some? && AllParsed(old(admin.routes)) ==>
        && |admin.log| > |old(admin.log)|
        && if admin.log[|old(admin.log)|].err.None? && ctx.done then Root(err.value) == Timeout
           else LatestFailure(admin.log, |old(admin.log)|) == Some(Root(err.value))
      ensures AllParsed(old(admin.routes)) && Settled(old(admin.routes), w) ==>
        admin.routes == old(admin.routes) && NoWrites(admin.log, |old(admin.log)|)
      ensures WellFormed(old(admin.routes)) ==> Worth(old(admin.routes), desired, w, added, err, admin.routes)
    {
      var read := admin.Get(false, Forward);
      if read.Err? {
        KeptAsItWas(admin.routes, desired, w, read.error);
        return Some(read.error), [];
      }
      var original := read.value;
      ghost var read1 := admin.log;
      err, added := Converge(ctx, desired, w, original);
      if LatestFailure(admin.log, |read1|).Some? {
        LatestFailureEarlier(admin.log, |old(admin.log)|, |read1|);
      }
    }

    /** Reconcile from the moment the snapshot has been read. */
    method Converge(ctx: Context, desired: seq<Route>, w: RouteTable, original: seq<Raw>)
      returns (err: Option<ProxyError>, ghost added: seq<Route>)
      requires admin.routes == original && Proper(w) && Tabulates(w, desired)
      modifies admin, ctx
      ensures old(ctx.done) ==> ctx.done
      ensures old(admin.log) <= admin.log
      ensures !AllParsed(original) ==> err == Some(MalformedResponse)
      ensures Sourced(admin.routes, original, w)
      ensures err.None? ==> Ledger(old(admin.log), admin.log, ctx.done, None)
      ensures err.None? ==>
        AllParsed(original) && Visits(added, Missing(original, w), w) && admin.routes == Cleared(original, w, added)
      ensures err.Some? ==> Transport(Root(err.value)) && (!Unrestored(err.value) ==> admin.routes == original)
      ensures err.Some? && WellFormed(original) && NoFailure(admin.log, |old(admin.log)|, Compensation) ==>
        !Unrestored(err.value) && admin.routes == original
      ensures WellFormed(original) ==> Worth(original, desired, w, added, err, admin.routes)
      ensures err.Some? && AllParsed(original) ==>
        if ctx.done then Root(err.value) == Timeout
        else LatestFailure(admin.log, |old(admin.log)|) == Some(Root(err.value))
      ensures AllParsed(original) && Settled(original, w) ==>
        err.None? && admin.routes == original && admin.log == old(admin.log)
    {
      if !AllParsed(original) {
        return Some(MalformedResponse), [];
      }
      var undos: seq<Undo>;
      err, undos, added := RunPhases(ctx, desired, w, original);
      if err.Some? {
        var e := Abandon(err.value, original, undos, WellFormed(original), w, old(admin.log), ctx.done);
        err := Some(e);
      }
      if WellFormed(original) {
        Judge(original, desired, w, added, err, admin.routes);
      }
    }

    /** The three phases in order, up to the first failure. */
    method RunPhases(ctx: Context, desired: seq<Route>, w: RouteTable, original: seq<Raw>)
      returns (err: Option<ProxyError>, undos: seq<Undo>, ghost added: seq<Route>)
      requires admin.routes == original && Proper(w) && Tabulates(w, desired) && AllParsed(original)
      modifies admin, ctx
      ensures old(ctx.done) ==> ctx.done
      ensures Ledger(old(admin.log), admin.log, ctx.done, err)
      ensures Recoverable(WellFormed(original), original, w, admin.routes, undos)
      ensures err.Some? && WellFormed(original) ==> Halted(original, w, admin.routes, undos)
      ensures err.None? ==> Visits(added, Missing(original, w), w) && admin.routes == Cleared(original, w, added)
      ensures Settled(original, w) ==>
        err.None? && admin.routes == original && admin.log == old(admin.log)
    {
      var all: seq<CaddyRoute>, wanted: RouteTable;
      err, undos, all, wanted, added := WidenPhases(ctx, w, original);
      if err.Some? {
        return;
      }
      ghost var log, done := admin.log, ctx.done;
      err, undos := DeletePhase(ctx, original, all, w, wanted, desired, undos, added);
      LedgerExtends(old(admin.log), log, admin.log, done, ctx.done, err);
    }

    /** The first two phases, up to the first failure. */
    method WidenPhases(ctx: Context, w: RouteTable, original: seq<Raw>)
      returns (err: Option<ProxyError>, undos: seq<Undo>, all: seq<CaddyRoute>, wanted: RouteTable,
               ghost added: seq<Route>)
      requires admin.routes == original && Proper(w) && AllParsed(original)
      modifies admin, ctx
      ensures old(ctx.done) ==> ctx.done
      ensures Ledger(old(admin.log), admin.log, ctx.done, err)
      ensures Recoverable(true, original, w, admin.routes, undos) && NoReinserts(undos)
      ensures err.Some? && WellFormed(original) ==> Halted(original, w, admin.routes, undos)
      ensures err.None? ==>
        Aligned(all, admin.routes) && |all| >= |original| && wanted.Keys <= w.Keys
      ensures err.None? ==> Visits(added, Missing(original, w), w) && admin.routes == Stretched(original, w, added)
      ensures Settled(original, w) ==>
        err.None? && admin.routes == original && admin.log == old(admin.log)
    {
      all, added := Parsed(original), [];
      err, undos, wanted := RepairPhase(ctx, original, all, w);
      if err.Some? {
        if WellFormed(original) {
          RepairsHalt(original, w, admin.routes, undos);
        }
        return;
      }
      ghost var m, log, done := admin.routes, admin.log, ctx.done;
      RepairDone(original, w, m, wanted);
      if Settled(original, w) {
        SettledWanted(original, w, m, wanted);
      }
      err, undos, all, added := InsertPhase(ctx, original, all, w, wanted, undos);
      LedgerExtends(old(admin.log), log, admin.log, done, ctx.done, err);
      if err.None? {
        InsertLength(original, w, m, added, admin.routes);
        InsertDone(original, w, m, added, admin.routes);
      }
    }
  }
}
