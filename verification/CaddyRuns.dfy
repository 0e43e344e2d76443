/** Whole histories of the route array: sequences of Add, Remove and Reconcile
    calls, the failed ones included. One step of a history is what the contracts
    of CaddyClient.Client allow one call to do.
 */
module CaddyRuns {
  import opened Ports
  import opened Sequences
  import opened CaddyRoutes
  import opened CaddyUndo
  import opened CaddyPlan
  import opened CaddyEdits
  import opened CaddyAdmin
  import opened CaddyExposure
  import opened CaddyPhases
  import opened CaddyFragility
  import opened CaddyRecovery
  import opened CaddyClient

  datatype Call = CallAdd(r: Route) | CallRemove(id: LinkID) | CallReconcile(desired: seq<Route>)

  /** A call with valid arguments and what it answered. */
  datatype Turn = Turn(call: Call, err: Option<ProxyError>)

  ghost predicate ValidCall(c: Call, loopback: LoopbackCheck) {
    match c
    case CallAdd(r) => ValidRoute(r, loopback)
    case CallRemove(id) => id != ""
    case CallReconcile(desired) => Admissible(desired, loopback)
  }

  /** The array may go from `s` to `t` under the turn. */
  ghost predicate Step(s: seq<Raw>, turn: Turn, t: seq<Raw>) {
    match turn.call
    case CallAdd(r) => (t == s || t == Added(s, r)) && (turn.err.None? ==> t == Added(s, r))
    case CallRemove(id) => (t == s || t == Removed(s, id)) && (turn.err.None? ==> t == Removed(s, id))
    case CallReconcile(desired) =>
      match turn.err
      case None => exists added :: Reaches(s, TableOf(desired), added, t)
      case Some(e) => if Unrestored(e) then Shaken(s, TableOf(desired), t) else t == s
  }

  /** The array an unrestored report may leave. */
  ghost predicate Shaken(s: seq<Raw>, w: RouteTable, t: seq<Raw>) {
    && Sourced(t, s, w)
    && (WellFormed(s) && !Exposed(s, w) ==> Foreign(t) == Foreign(s))
    && (WellFormed(s) && !Fragile(s, w) ==> WellFormed(t))
  }

  ghost predicate Reaches(s: seq<Raw>, w: RouteTable, added: seq<Route>, t: seq<Raw>) {
    AllParsed(s) && Visits(added, Missing(s, w), w) && t == Cleared(s, w, added)
  }

  /** The client's methods stay inside Step. */
  method Take(client: Client, ctx: Context, call: Call) returns (ghost turn: Turn)
    requires ValidCall(call, client.loopback)
    modifies client.admin, ctx
    ensures turn.call == call && Step(old(client.admin.routes), turn, client.admin.routes)
  {
    var err: Option<ProxyError>;
    match call {
      case CallAdd(r) => err := client.Add(r);
      case CallRemove(id) => err := client.Remove(id);
      case CallReconcile(desired) =>
        ghost var s, added := client.admin.routes, [];
        err, added := client.Reconcile(ctx, desired);
        assert err.None? ==> Reaches(s, TableOf(desired), added, client.admin.routes);
        assert err.Some? && Unrestored(err.value) ==> Shaken(s, TableOf(desired), client.admin.routes);
    }
    turn := Turn(call, err);
  }

  /** What the turn does to the table of owned routes. */
  ghost predicate TableStep(before: RouteTable, turn: Turn, after: RouteTable) {
    match turn.call
    case CallAdd(r) => AddOutcome(before, r, turn.err, after)
    case CallRemove(id) => RemoveOutcome(before, id, turn.err, after)
    case CallReconcile(desired) => ReconcileOutcome(before, desired, turn.err, after)
  }

  /** The turn did not give up on an array that is exposed or fragile. */
  ghost predicate Harmless(s: seq<Raw>, turn: Turn) {
    turn.err.Some? && Unrestored(turn.err.value) && turn.call.CallReconcile? ==>
      var w := TableOf(turn.call.desired); !Exposed(s, w) && !Fragile(s, w)
  }

  /** `states` is a history of `turns`, none of which gave up on an exposed or fragile array. */
  ghost predicate History(states: seq<seq<Raw>>, turns: seq<Turn>, loopback: LoopbackCheck) {
    && |states| == |turns| + 1
    && forall i :: 0 <= i < |turns| ==>
      Step(states[i], turns[i], states[i + 1]) && ValidCall(turns[i].call, loopback) && Harmless(states[i], turns[i])
  }

  lemma {:induction false} StepMeets(s: seq<Raw>, turn: Turn, t: seq<Raw>, loopback: LoopbackCheck)
    requires WellFormed(s) && Step(s, turn, t) && ValidCall(turn.call, loopback) && Harmless(s, turn)
    ensures WellFormed(t) && Foreign(t) == Foreign(s)
    ensures TableStep(View(s), turn, View(t))
  {
    match turn.call
    case CallAdd(r) => AddMeets(s, r, turn.err, t);
    case CallRemove(id) => RemoveMeets(s, id, turn.err, t);
    case CallReconcile(desired) =>
      var w := TableOf(desired);
      TableTabulates(desired);
      assert Proper(w) by {
        forall id | id in w ensures w[id].linkID == id && Encodable(w[id]) {
          var d :| d in desired && d.linkID == id;
        }
      }
      if turn.err.None? {
        var added :| Reaches(s, w, added, t);
        ClearedWellFormed(s, w, added);
        ReconciledWellFormed(s, w, added);
        ReconciledForeign(s, w, added);
        ReconciledFaithful(s, w, added);
        FaithfulView(t, w);
      } else if Unrestored(turn.err.value) {
        forall id | id in View(t) ensures id in View(s).Keys + LinksOf(desired) {
          SourcedKey(s, w, t, id);
        }
      }
  }

  /** Over any history the array stays well-formed, the entries of other
      controllers never change, and the owned view takes exactly the steps of a
      finite map. */
  lemma {:induction false} HistoryMeets(states: seq<seq<Raw>>, turns: seq<Turn>, loopback: LoopbackCheck, n: nat)
    requires History(states, turns, loopback) && WellFormed(states[0]) && n <= |turns|
    ensures WellFormed(states[n]) && Foreign(states[n]) == Foreign(states[0])
    ensures forall i :: 0 <= i < n ==> TableStep(View(states[i]), turns[i], View(states[i + 1]))
  {
    if n > 0 {
      HistoryMeets(states, turns, loopback, n - 1);
      StepMeets(states[n - 1], turns[n - 1], states[n], loopback);
    }
  }

  /** The managed listener is seeded with the fallback alone. */
  lemma {:induction false} SeedWellFormed(fallback: Raw)
    requires fallback.Object? && IsFallback(fallback)
    ensures WellFormed([fallback]) && View([fallback]) == map[] && Foreign([fallback]) == [fallback]
  {
    if IsOwned(fallback) {
      OwnedIsNotFallback(fallback);
    }
    if DecodeRaw(fallback).Some? {
      DecodedIsEncodable(fallback.route);
    }
    FilterAll([fallback], IsForeign);
  }

  /** From the seed, the fallback stays the only foreign entry and stays last. */
  lemma {:induction false} SeededHistory(
    states: seq<seq<Raw>>, turns: seq<Turn>, loopback: LoopbackCheck, fallback: Raw, n: nat)
    requires fallback.Object? && IsFallback(fallback) && n <= |turns|
    requires History(states, turns, loopback) && states[0] == [fallback]
    ensures WellFormed(states[n]) && Foreign(states[n]) == [fallback]
    ensures states[n] != [] && states[n][|states[n]| - 1] == fallback
  {
    SeedWellFormed(fallback);
    HistoryMeets(states, turns, loopback, n);
    FallbackEndsArray(states[n], fallback);
  }

  lemma {:induction false} FallbackEndsArray(s: seq<Raw>, fallback: Raw)
    requires WellFormed(s) && Foreign(s) == [fallback] && IsFallback(fallback)
    ensures s != [] && s[|s| - 1] == fallback
  {
    FilterMember(s, IsForeign, fallback);
    var k :| 0 <= k < |s| && s[k] == fallback;
    if !IsOwned(s[|s| - 1]) {
      FilterLast(s, IsForeign);
    }
  }

  // ---------------------------------------------------------- idempotence

  /** After a successful Reconcile the same routes in any order are settled, and
      List returns them. */
  lemma {:induction false} ReconcileTwice(
    s: seq<Raw>, desired: seq<Route>, again: seq<Route>, t: seq<Raw>, loopback: LoopbackCheck)
    requires WellFormed(s) && Admissible(desired, loopback) && multiset(again) == multiset(desired)
    requires Step(s, Turn(CallReconcile(desired), None), t)
    ensures Admissible(again, loopback) && Settled(t, TableOf(again))
    ensures multiset(Listed(t)) == multiset(again)
  {
    var w := TableOf(desired);
    TableTabulates(desired);
    assert Proper(w) by {
      forall id | id in w ensures w[id].linkID == id && Encodable(w[id]) {
        var d :| d in desired && d.linkID == id;
      }
    }
    var added :| Reaches(s, w, added, t);
    ClearedWellFormed(s, w, added);
    ReconciledWellFormed(s, w, added);
    ReconciledFaithful(s, w, added);
    FaithfulListed(t, w, desired);
    FaithfulIffSettled(t, w);
    SameTable(desired, again);
    forall r | r in again ensures ValidRoute(r, loopback) {
      assert r in multiset(again);
    }
  }

  lemma {:induction false} DistinctPermuted(a: seq<Route>, b: seq<Route>)
    requires DistinctLinks(a) && multiset(a) == multiset(b)
    ensures DistinctLinks(b)
  {
    forall i, j | 0 <= i < j < |b| ensures b[i].linkID != b[j].linkID {
      if b[i].linkID == b[j].linkID {
        assert b[i] in multiset(b) && b[j] in multiset(b);
        var p :| 0 <= p < |a| && a[p] == b[i];
        var q :| 0 <= q < |a| && a[q] == b[j];
        assert p == q;
        TwiceInMultiset(b, i, j);
        OnceInMultiset(a, p);
      }
    }
  }

  lemma {:induction false} TwiceInMultiset(s: seq<Route>, i: nat, j: nat)
    requires i < j < |s| && s[i] == s[j]
    ensures multiset(s)[s[i]] >= 2
  {
    assert s == s[..j] + [s[j]] + s[j + 1..];
    assert s[..j][i] == s[i];
  }

  lemma {:induction false} OnceInMultiset(s: seq<Route>, p: nat)
    requires DistinctLinks(s) && p < |s|
    ensures multiset(s)[s[p]] == 1
  {
    assert NoDuplicates(s);
    MultiplicityOne(s, s[p]);
  }

  lemma {:induction false} SameTable(a: seq<Route>, b: seq<Route>)
    requires DistinctLinks(a) && multiset(a) == multiset(b)
    ensures DistinctLinks(b) && TableOf(a) == TableOf(b)
  {
    DistinctPermuted(a, b);
    TableTabulates(a);
    TableTabulates(b);
    SubTable(a, b);
    SubTable(b, a);
  }

  lemma {:induction false} SubTable(a: seq<Route>, b: seq<Route>)
    requires multiset(a) == multiset(b) && Tabulates(TableOf(a), a) && Tabulates(TableOf(b), b)
    ensures forall id :: id in TableOf(a) ==> id in TableOf(b) && TableOf(a)[id] == TableOf(b)[id]
  {
    forall id | id in TableOf(a) ensures id in TableOf(b) && TableOf(a)[id] == TableOf(b)[id] {
      var r :| r in a && r.linkID == id;
      PermutedMembers(a, b, r);
    }
  }

  /** Why one entry per link is asked of the array beforehand: an array that
      lists a wanted route twice counts as settled, so Reconcile leaves both. */
  lemma {:induction false} DuplicatesSurvive(r: Route)
    requires Encodable(r)
    ensures var s, w := [Canon(r), Canon(r)], map[r.linkID := r];
      AllParsed(s) && !UniqueOwned(s) && Settled(s, w) && Listed(s) == [r, r]
  {
    var s, w := [Canon(r), Canon(r)], map[r.linkID := r];
    CanonFacts(r);
    assert s[0] in s && IDOf(s[0]) == IDOf(s[1]);
    assert s[1..] == [Canon(r)] && [Canon(r)][1..] == [];
    assert Listed([]) == [];
    assert Listed([Canon(r)]) == [r];
  }

  // ------------------------------------------- rollback that partly fails

  /** Every PutBack that takes effect finds an owned entry in its slot. */
  predicate SlotsOwned(undos: seq<Undo>, i: nat, effective: seq<bool>, s: seq<Raw>)
    requires i <= |undos| && |effective| == |undos| - i
    decreases |undos| - i
  {
    if i == |undos| then true
    else
      var t := UndoSome(undos, i + 1, effective[1..], s);
      && SlotsOwned(undos, i + 1, effective[1..], s)
      && (effective[0] && undos[i].PutBack? && undos[i].index < |t| ==> IsOwned(t[undos[i].index]))
  }

  /** A partly failing rollback leaves the other controllers' entries alone if
      and only if every PutBack that took effect found an owned entry in its slot. */
  lemma {:induction false} RollbackKeepsForeign(undos: seq<Undo>, i: nat, effective: seq<bool>, s: seq<Raw>)
    requires i <= |undos| && |effective| == |undos| - i
    requires forall u | u in undos :: OwnUndo(u)
    ensures Foreign(UndoSome(undos, i, effective, s)) == Foreign(s) <==> SlotsOwned(undos, i, effective, s)
    ensures |Foreign(UndoSome(undos, i, effective, s))| <= |Foreign(s)|
    ensures !SlotsOwned(undos, i, effective, s) ==>
      |Foreign(UndoSome(undos, i, effective, s))| < |Foreign(s)|
    decreases |undos| - i
  {
    if i < |undos| {
      RollbackKeepsForeign(undos, i + 1, effective[1..], s);
      assert undos[i] in undos;
      var t := UndoSome(undos, i + 1, effective[1..], s);
      UndoKeepsForeign(undos[i], t);
    }
  }

  /** It can fail to: with an orphan below an entry to repair, one lost
      re-insertion shifts the array under the PutBack, which then overwrites the
      foreign neighbour. */
  lemma {:induction false} LostReinsertion(gone: Raw, damaged: Raw, other: Raw, r: Route)
    requires gone.Object? && damaged.Object? && other.Object? && Encodable(r)
    requires IsOwned(gone) && Key(gone) != r.linkID && !IsOwned(other) && !IsFallback(other)
    requires IsOwned(damaged) && Key(damaged) == r.linkID && DecodeRaw(damaged) != Some(r)
    ensures var o, w, s := [gone, damaged, other], map[r.linkID := r], [Canon(r), other];
      var undos := [PutBack(1, damaged), Reinsert(0, gone)];
      && WellFormed(o) && Proper(w)
      && Visits([], Missing(o, w), w) && s == Reconciled(o, w, [])
      && UndoAll(undos, s) == o
      && Foreign(o) == [other] && Foreign(UndoSome(undos, 0, [true, false], s)) == []
  {
    CanonFacts(r);
    LostShape(gone, damaged, other);
    LostPlan(gone, damaged, other, r);
    LostUndo(gone, damaged, other, Canon(r));
    FilterNone([Canon(r), damaged], IsForeign);
  }

  lemma {:induction false} LostShape(gone: Raw, damaged: Raw, other: Raw)
    requires gone.Object? && damaged.Object? && other.Object?
    requires IsOwned(gone) && IsOwned(damaged) && !IsOwned(other) && Key(gone) != Key(damaged)
    ensures !IsFallback(gone) && !IsFallback(damaged)
    ensures WellFormed([gone, damaged, other]) && Foreign([gone, damaged, other]) == [other]
  {
    OwnedIsNotFallback(gone);
    OwnedIsNotFallback(damaged);
    FilterLast([gone, damaged, other], IsForeign);
    assert [gone, damaged, other][..2] == [gone, damaged];
    FilterNone([gone, damaged], IsForeign);
  }

  lemma {:induction false} LostPlan(gone: Raw, damaged: Raw, other: Raw, r: Route)
    requires IsOwned(gone) && Key(gone) != r.linkID && !IsOwned(other) && Encodable(r)
    requires IsOwned(damaged) && Key(damaged) == r.linkID && DecodeRaw(damaged) != Some(r)
    requires !IsFallback(gone) && !IsFallback(damaged) && !IsFallback(other)
    ensures var o, w := [gone, damaged, other], map[r.linkID := r];
      Visits([], Missing(o, w), w) && Reconciled(o, w, []) == [Canon(r), other]
  {
    var o, w := [gone, damaged, other], map[r.linkID := r];
    CanonFacts(r);
    assert damaged in o;
    assert Missing(o, w) == {} == LinksOf([]);
    FallbackAtUnique(o, 3);
    var m := [gone, Canon(r), other];
    assert Repaired(o, w) == m;
    assert Widened(o, w, []) == m;
    var p := Keeps(w);
    assert m == [gone] + [Canon(r), other];
    FilterConcat([gone], [Canon(r), other], p);
    FilterNone([gone], p);
    FilterAll([Canon(r), other], p);
  }

  lemma {:induction false} LostUndo(gone: Raw, damaged: Raw, other: Raw, c: Raw)
    requires gone != c && gone != other
    ensures var s, undos := [c, other], [PutBack(1, damaged), Reinsert(0, gone)];
      && UndoAll(undos, s) == [gone, damaged, other]
      && UndoSome(undos, 0, [true, false], s) == [c, damaged]
  {
    var s, undos := [c, other], [PutBack(1, damaged), Reinsert(0, gone)];
    assert UndoEffect(undos[1], s) == [gone, c, other];
    assert undos[..1] == [PutBack(1, damaged)];
    assert undos[..1][..0] == [];
    assert UndoEffect(undos[0], [gone, c, other]) == [gone, damaged, other];
    assert UndoAll(undos[..1], [gone, c, other]) == [gone, damaged, other];
    assert [true, false][1..] == [false] && [false][1..] == [];
    assert UndoSome(undos, 2, [], s) == s;
    assert UndoSome(undos, 1, [false], s) == s;
    assert UndoEffect(undos[0], s) == [c, damaged];
  }

  /** The smallest such array, concretely. */
  lemma {:induction false} RollbackCanOverwriteForeign()
    ensures exists o, w, undos, effective, s ::
      && WellFormed(o) && Proper(w) && Visits([], Missing(o, w), w) && s == Reconciled(o, w, [])
      && UndoAll(undos, s) == o && |effective| == |undos|
      && Foreign(UndoSome(undos, 0, effective, s)) != Foreign(o)
  {
    var r, gone := Route("w", "h", "127.0.0.1:2"), Canon(Route("o", "x", "127.0.0.1:1"));
    var damaged := Object(CaddyRoute(RouteID("w"), [], [], false), "");
    var other := Object(CaddyRoute("other", [], [], false), "byte exact");
    RouteIDRoundTrip("w");
    CanonFacts(Route("o", "x", "127.0.0.1:1"));
    LostReinsertion(gone, damaged, other, r);
    var undos := [PutBack(1, damaged), Reinsert(0, gone)];
    assert |[true, false]| == |undos|;
  }

  // ------------------------------------- after a rollback that broke the array

  lemma {:induction false} AdmissibleTable(desired: seq<Route>, loopback: LoopbackCheck)
    requires Admissible(desired, loopback)
    ensures Proper(TableOf(desired)) && Tabulates(TableOf(desired), desired)
  {
    var w := TableOf(desired);
    TableTabulates(desired);
    forall id | id in w ensures w[id].linkID == id && Encodable(w[id]) {
      var d :| d in desired && d.linkID == id;
    }
  }

  /** What a later successful Reconcile restores: the array is well-formed again,
      and shows exactly the desired routes, if and only if it was not stuck. */
  lemma {:induction false} LaterReconcile(s: seq<Raw>, desired: seq<Route>, t: seq<Raw>, loopback: LoopbackCheck)
    requires Admissible(desired, loopback) && Step(s, Turn(CallReconcile(desired), None), t)
    ensures WellFormed(t) <==> !Stuck(s, TableOf(desired))
    ensures WellFormed(t) ==> View(t) == TableOf(desired)
  {
    var w := TableOf(desired);
    AdmissibleTable(desired, loopback);
    var added :| Reaches(s, w, added, t);
    RestoredIffNotStuck(s, w, added);
    if !Stuck(s, w) {
      RestoredFaithful(s, w, added);
    }
  }

  /** The array LostReinsertion ends in, when the damaged entry still decodes: the
      link is listed twice, and a successful Remove leaves it published. */
  lemma {:induction false} RemovalLeavesTheCopy(gone: Raw, stale: Raw, other: Raw, r: Route)
    requires gone.Object? && stale.Object? && other.Object? && Encodable(r)
    requires IsOwned(gone) && Key(gone) != r.linkID && !IsOwned(other) && !IsFallback(other)
    requires DecodeRaw(stale).Some? && DecodeRaw(stale).value.linkID == r.linkID && DecodeRaw(stale) != Some(r)
    ensures var o, w, s := [gone, stale, other], map[r.linkID := r], [Canon(r), other];
      var t := UndoSome([PutBack(1, stale), Reinsert(0, gone)], 0, [true, false], s);
      && WellFormed(o) && MayDouble(o, w) && !UniqueOwned(t)
      && Step(t, Turn(CallRemove(r.linkID), None), [stale]) && r.linkID in View([stale])
  {
    var o, w, t := [gone, stale, other], map[r.linkID := r], [Canon(r), stale];
    CanonFacts(r);
    DecodedIsEncodable(stale.route);
    RouteIDRoundTrip(r.linkID);
    LostShape(gone, stale, other);
    LostUndo(gone, stale, other, Canon(r));
    assert o[2] == other;
    assert Doubles(o, w, 0, 1);
    assert IDOf(t[0]) == IDOf(t[1]) == RouteID(r.linkID);
    IndexOfUnique(t, RouteID(r.linkID), 0);
    assert Removed(t, r.linkID) == [stale];
    assert [stale][1..] == [];
  }

  /** Two orphans in front of the fallback, the lower one lost: the other is put
      back behind the fallback. */
  lemma {:induction false} RollbackCanBury(a: Raw, b: Raw, fallback: Raw)
    requires a.Object? && b.Object? && fallback.Object?
    requires IsOwned(a) && IsOwned(b) && Key(a) != Key(b) && IsFallback(fallback)
    ensures WellFormed([a, b, fallback]) && MayBury([a, b, fallback], map[])
    ensures UndoSome([Reinsert(1, b), Reinsert(0, a)], 0, [true, false], [fallback]) == [fallback, b]
    ensures !FallbackLast([fallback, b])
  {
    OwnedIsNotFallback(b);
    BuriedShape(a, b, fallback);
    BuriedUndo(a, b, fallback);
    assert IsFallback([fallback, b][0]) && IsOwned([fallback, b][1]);
  }

  lemma {:induction false} BuriedShape(a: Raw, b: Raw, fallback: Raw)
    requires a.Object? && b.Object? && fallback.Object?
    requires IsOwned(a) && IsOwned(b) && Key(a) != Key(b) && IsFallback(fallback)
    ensures WellFormed([a, b, fallback]) && MayBury([a, b, fallback], map[])
  {
    var o := [a, b, fallback];
    OwnedIsNotFallback(a);
    OwnedIsNotFallback(b);
    FallbackIsForeign(fallback);
    FallbackAtUnique(o, 2);
    TwoOrphans(a, b, fallback);
    assert Missing(o, map[]) == {};
    assert Buries(o, map[], 1);
  }

  lemma {:induction false} TwoOrphans(a: Raw, b: Raw, fallback: Raw)
    requires IsOwned(a) && IsOwned(b) && !IsOwned(fallback)
    ensures Orphans([a, b, fallback], map[]) == 2
  {
    assert [a, b, fallback][..2] == [a, b] && [a, b][..1] == [a] && [a][..0] == [];
    assert Orphans([a], map[]) == 1;
  }

  lemma {:induction false} BuriedUndo(a: Raw, b: Raw, fallback: Raw)
    requires b != fallback
    ensures UndoSome([Reinsert(1, b), Reinsert(0, a)], 0, [true, false], [fallback]) == [fallback, b]
  {
    var undos, s := [Reinsert(1, b), Reinsert(0, a)], [fallback];
    assert [true, false][1..] == [false] && [false][1..] == [];
    assert UndoSome(undos, 2, [], s) == s;
    assert UndoSome(undos, 1, [false], s) == s;
    assert UndoEffect(undos[0], s) == [fallback, b];
  }

  lemma {:induction false} BuriedMissing(b: Raw, fallback: Raw, r: Route)
    requires IsOwned(b) && IsFallback(fallback) && Key(b) != r.linkID
    ensures FallbackAt([fallback, b]) == 0 && IsForeign(fallback)
    ensures Missing([fallback, b], map[r.linkID := r]) == {r.linkID}
  {
    var t, w := [fallback, b], map[r.linkID := r];
    FallbackIsForeign(fallback);
    FallbackAtUnique(t, 0);
    assert OwnedKeys(t) == {Key(b)} by {
      assert t[1] in t;
    }
  }

  /** It is out of reach of a later Reconcile that has a route to insert. */
  lemma {:induction false} BuriedOutOfReach(b: Raw, fallback: Raw, r: Route)
    requires IsOwned(b) && IsFallback(fallback) && Key(b) != r.linkID
    ensures OutOfReach([fallback, b], map[r.linkID := r])
    ensures Visits([r], Missing([fallback, b], map[r.linkID := r]), map[r.linkID := r])
  {
    var t := [fallback, b];
    BuriedMissing(b, fallback, r);
    assert FallbackAt(t) <= 1 < |t| && Orphan(t[1], map[r.linkID := r]);
    assert LinksOf([r]) == {r.linkID};
  }

  /** That Reconcile succeeds and leaves it where it is. */
  lemma {:induction false} BuriedOrphanStays(b: Raw, fallback: Raw, r: Route)
    requires IsOwned(b) && IsFallback(fallback) && Encodable(r) && Key(b) != r.linkID
    ensures Cleared([fallback, b], map[r.linkID := r], [r]) == [Canon(r), fallback, b]
  {
    var t, w := [fallback, b], map[r.linkID := r];
    BuriedMissing(b, fallback, r);
    CanonFacts(r);
    assert Mended(t, w) == t;
    assert Stretched(t, w, [r]) == [Canon(r), fallback, b];
    assert [Canon(r), fallback, b][..2] == [Canon(r), fallback];
    FilterAll([Canon(r), fallback], Keeps(w));
  }
}
