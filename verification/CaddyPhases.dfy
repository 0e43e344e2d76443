/** The three phases of Reconcile on values: what holds between two writes of a
    phase, and why each step keeps it whether or not its write takes effect.
 */
module CaddyPhases {
  import opened Ports
  import opened Sequences
  import opened CaddyRoutes
  import opened CaddyUndo
  import opened CaddyPlan
  import opened CaddyEdits
  import opened CaddyAdmin
  import opened CaddyExposure
  import opened CaddyRecovery

  /** The part of every phase's invariant that survives a failing write: nothing
      unknown is in the array or on the stack and, where compensation is exact,
      the stack leads back to the snapshot. */
  ghost predicate Recoverable(exact: bool, o: seq<Raw>, w: RouteTable, s: seq<Raw>, undos: seq<Undo>) {
    && Sourced(s, o, w) && UndosFrom(undos, o)
    && (exact ==> UndoAll(undos, s) == o && forall u | u in undos :: OwnUndo(u))
    && Tracked(o, w, s, undos)
  }

  /** On a well-formed snapshot the foreign entries are where a rollback can put them. */
  ghost predicate Tracked(o: seq<Raw>, w: RouteTable, s: seq<Raw>, undos: seq<Undo>) {
    WellFormed(o) && Proper(w) ==> Placed(o, w, s) && Stacked(o, w, undos)
  }

  ghost predicate KeepsTrack(o: seq<Raw>, table: RouteTable, s: seq<Raw>, u: Undo, w: Write) {
    WellFormed(o) && Proper(table) && Placed(o, table, s) ==>
      Staged(o, table, u) && (InRange(s, w) ==> Placed(o, table, Apply(s, w)))
  }

  predicate OnlyPutBacks(undos: seq<Undo>) {
    forall u | u in undos :: u.PutBack?
  }

  /** `u` may be stacked in front of `w` on array `s`. */
  ghost predicate Prepared(exact: bool, o: seq<Raw>, table: RouteTable, s: seq<Raw>, u: Undo, w: Write) {
    && UndosFrom([u], o)
    && (w.Del? || exists id :: id in table && w.body == Canon(table[id]))
    && (exact ==> InRange(s, w) && Inverts(u, w, s) && OwnUndo(u))
    && KeepsTrack(o, table, s, u, w)
  }

  lemma {:induction false} StackedMore(o: seq<Raw>, w: RouteTable, undos: seq<Undo>, u: Undo)
    requires Stacked(o, w, undos) && Staged(o, w, u) && (u.PutBack? ==> OnlyPutBacks(undos))
    ensures Stacked(o, w, undos + [u])
  {
    var more := undos + [u];
    assert forall v :: v in more ==> v in undos || v == u;
    forall p, q | 0 <= p < q < |more| && more[q].PutBack? ensures more[p].PutBack? {
      assert more[p] in undos;
    }
  }

  lemma {:induction false} WriteRecoverable(exact: bool, o: seq<Raw>, table: RouteTable, s: seq<Raw>,
                                            undos: seq<Undo>, u: Undo, w: Write, applied: bool)
    requires Recoverable(exact, o, table, s, undos) && Prepared(exact, o, table, s, u, w)
    requires (applied ==> InRange(s, w)) && (u.PutBack? ==> OnlyPutBacks(undos))
    ensures Recoverable(exact, o, table, if applied then Apply(s, w) else s, undos + [u])
  {
    if exact {
      PushUndo(undos, u, w, s, o);
    }
    if applied {
      SourcedAfter(s, w, o, table);
    }
    assert u in [u];
    assert forall v :: v in undos + [u] ==> v in undos || v == u;
    if WellFormed(o) && Proper(table) {
      StackedMore(o, table, undos, u);
    }
  }

  // ------------------------------------------------------------ phase one

  /** Entries below `i` have been repaired; the rest are as in the snapshot. */
  ghost predicate Repairing(o: seq<Raw>, w: RouteTable, i: nat, s: seq<Raw>, wanted: RouteTable) {
    && i <= |o|
    && wanted == w - OwnedKeys(o[..i])
    && SameIDs(s, o)
    && (forall j :: i <= j < |o| ==> s[j] == o[j])
    && (forall j :: 0 <= j < i ==> s[j] == MendOne(o, w, j))
  }

  lemma {:induction false} WantedStep(o: seq<Raw>, w: RouteTable, i: nat, wanted: RouteTable)
    requires i < |o| && wanted == w - OwnedKeys(o[..i])
    ensures (if IsOwned(o[i]) then wanted - {Key(o[i])} else wanted) == w - OwnedKeys(o[..i + 1])
    ensures IsOwned(o[i]) && Key(o[i]) in w ==> (Key(o[i]) in wanted <==> Leads(o, i))
    ensures IsOwned(o[i]) && Key(o[i]) in wanted ==> Key(o[i]) in w && wanted[Key(o[i])] == w[Key(o[i])]
  {
    OwnedKeysStep(o, i);
  }

  /** Before the first write. */
  lemma {:induction false} RepairStart(o: seq<Raw>, w: RouteTable)
    ensures Recoverable(true, o, w, o, []) && Repairing(o, w, 0, o, w)
  {
    if WellFormed(o) {
      PlacedStart(o, w);
    }
    assert OwnedKeys(o[..0]) == {};
  }

  lemma {:induction false} RepairSkip(o: seq<Raw>, w: RouteTable, i: nat, s: seq<Raw>, wanted: RouteTable)
    requires Repairing(o, w, i, s, wanted) && i < |o|
    requires IsOwned(o[i]) && Key(o[i]) in wanted ==> DecodeRaw(o[i]) == Some(wanted[Key(o[i])])
    ensures Repairing(o, w, i + 1, s, if IsOwned(o[i]) then wanted - {Key(o[i])} else wanted)
  {
    WantedStep(o, w, i, wanted);
    assert MendOne(o, w, i) == o[i];
  }

  lemma {:induction false} RepairTracked(o: seq<Raw>, w: RouteTable, i: nat, s: seq<Raw>)
    requires SameIDs(s, o) && i < |o| && Proper(w) && NeedsRepair(o[i], w)
    ensures KeepsTrack(o, w, s, PutBack(i, o[i]), Put(i, Canon(w[Key(o[i])])))
  {
    RepairKeepsID(o[i], w);
    if Placed(o, w, s) {
      PlacedPut(o, w, s, i, Canon(w[Key(o[i])]));
    }
  }

  lemma {:induction false} RepairStep(o: seq<Raw>, w: RouteTable, i: nat, s: seq<Raw>, wanted: RouteTable)
    requires Repairing(o, w, i, s, wanted) && i < |o| && Proper(w)
    requires IsOwned(o[i]) && Key(o[i]) in wanted && DecodeRaw(o[i]) != Some(wanted[Key(o[i])])
    ensures Repairing(o, w, i + 1, s[i := Canon(wanted[Key(o[i])])], wanted - {Key(o[i])})
    ensures Prepared(true, o, w, s, PutBack(i, o[i]), Put(i, Canon(wanted[Key(o[i])])))
    ensures o[i] in o && NeedsRepair(o[i], w)
  {
    WantedStep(o, w, i, wanted);
    assert PutBack(i, o[i]) in [PutBack(i, o[i])];
    RepairKeepsID(o[i], w);
    PutBackInverts(s, i, Canon(wanted[Key(o[i])]));
    RepairTracked(o, w, i, s);
    assert MendOne(o, w, i) == Canon(wanted[Key(o[i])]);
  }

  // ------------------------------------------------------------ phase two

  /** `added` has been inserted in front of the fallback of `m`; `remaining` is still to come. */
  ghost predicate Inserting(o: seq<Raw>, w: RouteTable, m: seq<Raw>, remaining: set<LinkID>,
                            added: seq<Route>, s: seq<Raw>) {
    && SameIDs(m, o)
    && remaining <= Missing(o, w)
    && Visits(added, Missing(o, w) - remaining, w)
    && s == m[..FallbackAt(o)] + Canons(added) + m[FallbackAt(o)..]
  }

  lemma {:induction false} InsertStart(o: seq<Raw>, w: RouteTable, m: seq<Raw>)
    requires SameIDs(m, o)
    ensures Inserting(o, w, m, Missing(o, w), [], m)
  {
    assert LinksOf([]) == {};
    assert m == m[..FallbackAt(o)] + [] + m[FallbackAt(o)..];
  }

  lemma {:induction false} InsertingFallback(o: seq<Raw>, w: RouteTable, m: seq<Raw>, remaining: set<LinkID>,
                          added: seq<Route>, s: seq<Raw>)
    requires Inserting(o, w, m, remaining, added, s) && Proper(w)
    ensures FallbackAt(s) == FallbackAt(o) + |added| <= |s|
  {
    var f := FallbackAt(o);
    forall j | 0 <= j < f + |added| ensures !IsFallback(s[j]) {
      if j < f {
        assert IDOf(s[j]) == IDOf(o[j]);
      } else {
        assert added[j - f] in added;
        CanonFacts(added[j - f]);
      }
    }
    FallbackAtUnique(s, f + |added|);
  }

  lemma {:induction false} InsertingFresh(o: seq<Raw>, w: RouteTable, m: seq<Raw>, remaining: set<LinkID>,
                       added: seq<Route>, s: seq<Raw>, id: LinkID)
    requires Inserting(o, w, m, remaining, added, s) && Proper(w) && id in remaining
    ensures forall y | y in s :: IDOf(y) != RouteID(id)
  {
    var f := FallbackAt(o);
    RouteIDRoundTrip(id);
    CanonFacts(w[id]);
    forall y | y in s ensures IDOf(y) != RouteID(id) {
      var j :| 0 <= j < |s| && s[j] == y;
      if f <= j < f + |added| {
        assert added[j - f] in added;
        CanonFacts(added[j - f]);
        assert added[j - f].linkID in LinksOf(added);
      } else {
        var k := if j < f then j else j - |added|;
        assert IDOf(y) == IDOf(o[k]);
        assert o[k] in o;
        assert IsOwned(o[k]) ==> Key(o[k]) in OwnedKeys(o);
      }
    }
  }

  lemma {:induction false} VisitsOneMore(added: seq<Route>, ids: set<LinkID>, w: RouteTable, id: LinkID)
    requires Visits(added, ids, w) && Proper(w) && id in w && id !in ids
    ensures Visits(added + [w[id]], ids + {id}, w)
  {
    var more := added + [w[id]];
    forall r | r in added ensures r.linkID in ids {
      assert r.linkID in LinksOf(added);
    }
    forall i, j | 0 <= i < j < |more| ensures more[i].linkID != more[j].linkID {
      assert more[i] in added;
    }
    assert LinksOf(more) == LinksOf(added) + {id} by {
      forall x ensures x in LinksOf(more) <==> x in LinksOf(added) + {id} {
        assert w[id] in more;
        assert forall r :: r in more <==> r in added || r == w[id];
      }
    }
  }

  lemma {:induction false} InsertPrepared(o: seq<Raw>, w: RouteTable, m: seq<Raw>, remaining: set<LinkID>,
                   added: seq<Route>, s: seq<Raw>, id: LinkID)
    requires Inserting(o, w, m, remaining, added, s) && Proper(w) && id in remaining
    ensures Prepared(true, o, w, s, TakeOut(id), Post(FallbackAt(s), Canon(w[id])))
  {
    assert TakeOut(id) in [TakeOut(id)];
    InsertingFresh(o, w, m, remaining, added, s, id);
    CanonFacts(w[id]);
    TakeOutInverts(s, FallbackAt(s), Canon(w[id]), id);
    if Placed(o, w, s) {
      PlacedAdded(o, w, s, Canon(w[id]));
    }
  }

  lemma {:induction false} InsertStep(o: seq<Raw>, w: RouteTable, m: seq<Raw>, remaining: set<LinkID>,
                   added: seq<Route>, s: seq<Raw>, id: LinkID)
    requires Inserting(o, w, m, remaining, added, s) && Proper(w) && id in remaining
    ensures Inserting(o, w, m, remaining - {id}, added + [w[id]], Apply(s, Post(FallbackAt(s), Canon(w[id]))))
  {
    InsertingFallback(o, w, m, remaining, added, s);
    VisitsOneMore(added, Missing(o, w) - remaining, w, id);
    assert Missing(o, w) - remaining + {id} == Missing(o, w) - (remaining - {id});
    InsertAfter(m[..FallbackAt(o)], Canons(added), m[FallbackAt(o)..], Canon(w[id]));
    assert Canons(added + [w[id]]) == Canons(added) + [Canon(w[id])];
  }

  // ---------------------------------------------------------- phase three

  /** Positions from `i` on have been swept; the front is untouched. */
  ghost predicate Sweeping(a: seq<Raw>, w: RouteTable, i: nat, s: seq<Raw>) {
    i <= |a| && s == a[..i] + Kept(a[i..], w)
  }

  /** Only snapshot entries in front of the fallback can be orphans, and those are unchanged. */
  lemma {:induction false} SweptEntry(o: seq<Raw>, w: RouteTable, added: seq<Route>, j: nat)
    requires WellFormed(o) && Proper(w) && Visits(added, Missing(o, w), w) && j < |o| + |added|
    ensures Orphan(Widened(o, w, added)[j], w) ==> j < |o| && Widened(o, w, added)[j] == o[j]
  {
    var f := FallbackAt(o);
    WidenedIDs(o, w, added, j);
    WidenedAt(o, w, added, j);
    if f <= j < f + |added| {
      AddedEntry(o, w, added, j - f);
    } else if j < f {
      RepairKeepsID(o[j], w);
    }
  }

  lemma {:induction false} TailEntry(o: seq<Raw>, w: RouteTable, added: seq<Route>, tail: seq<Raw>, x: Raw)
    requires WellFormed(o) && Proper(w) && Visits(added, Missing(o, w), w)
    requires |Widened(o, w, added)| >= |o| && tail == Widened(o, w, added)[|o|..] && x in tail
    ensures Keeps(w)(x)
  {
    var j :| 0 <= j < |tail| && tail[j] == x;
    SweptEntry(o, w, added, |o| + j);
  }

  /** Behind the snapshot's length there is nothing to sweep. */
  lemma {:induction false} TailKept(o: seq<Raw>, w: RouteTable, added: seq<Route>)
    requires WellFormed(o) && Proper(w) && Visits(added, Missing(o, w), w)
    ensures |Widened(o, w, added)| >= |o|
    ensures var tail := Widened(o, w, added)[|o|..]; Kept(tail, w) == tail
  {
    var tail := Widened(o, w, added)[|o|..];
    forall x | x in tail ensures Keeps(w)(x) {
      TailEntry(o, w, added, tail, x);
    }
    FilterAll(tail, Keeps(w));
  }

  lemma {:induction false} SweepStart(o: seq<Raw>, w: RouteTable, added: seq<Route>)
    requires WellFormed(o) && Proper(w) && Visits(added, Missing(o, w), w)
    ensures Sweeping(Widened(o, w, added), w, |o|, Widened(o, w, added))
  {
    TailKept(o, w, added);
    var a := Widened(o, w, added);
    assert a == a[..|o|] + a[|o|..];
  }

  lemma {:induction false} SweepKeep(a: seq<Raw>, w: RouteTable, i: nat, s: seq<Raw>)
    requires i < |a| && Sweeping(a, w, i + 1, s) && !Orphan(a[i], w)
    ensures Sweeping(a, w, i, s)
  {
    assert a[i..][1..] == a[i + 1..];
    assert a[..i + 1] == a[..i] + [a[i]];
    assert Kept(a[i..], w) == [a[i]] + Kept(a[i + 1..], w);
  }

  lemma {:induction false} OwnedOnce(a: seq<Raw>, i: nat)
    requires UniqueOwned(a) && i < |a| && IsOwned(a[i])
    ensures a[i] !in a[..i] && a[i] !in a[i + 1..]
  {
    forall x | x in a[..i] || x in a[i + 1..] ensures x != a[i] {
      var j :| 0 <= j < |a| && j != i && a[j] == x;
    }
  }

  lemma {:induction false} SweepPrepared(
    o: seq<Raw>, w: RouteTable, added: seq<Route>, a: seq<Raw>, i: nat, s: seq<Raw>)
    requires WellFormed(o) && Proper(w) && Visits(added, Missing(o, w), w) && a == Widened(o, w, added)
    requires WellFormed(a) && i < |o| && Sweeping(a, w, i + 1, s) && i < |a| && Orphan(a[i], w)
    ensures Prepared(true, o, w, s, Reinsert(i, o[i]), Del(i))
    ensures Sweeping(a, w, i, Apply(s, Del(i)))
  {
    SweptEntry(o, w, added, i);
    SweepDelete(a, w, i, s);
    assert Reinsert(i, o[i]) in [Reinsert(i, o[i])];
    assert o[i] in o;
    if Placed(o, w, s) {
      PlacedDelete(o, w, s, i);
    }
  }

  lemma {:induction false} SweepDelete(a: seq<Raw>, w: RouteTable, i: nat, s: seq<Raw>)
    requires WellFormed(a) && i < |a| && Sweeping(a, w, i + 1, s) && Orphan(a[i], w)
    ensures i < |s| && s[i] == a[i]
    ensures Sweeping(a, w, i, Apply(s, Del(i)))
    ensures Inverts(Reinsert(i, a[i]), Del(i), s)
  {
    var back := Kept(a[i + 1..], w);
    assert a[i..][1..] == a[i + 1..];
    assert Kept(a[i..], w) == back;
    assert s[..i] == a[..i] && s[i + 1..] == back;
    OwnedOnce(a, i);
    FilterMember(a[i + 1..], Keeps(w), s[i]);
    ReinsertInverts(s, i);
  }

  // ------------------------------------------ phase three on any array

  /** Of the first `n` positions those from `i` on have been visited. */
  ghost predicate Clearing(a: seq<Raw>, w: RouteTable, n: nat, i: nat, s: seq<Raw>) {
    i <= n <= |a| && s == a[..i] + Kept(a[i..n], w) + a[n..]
  }

  lemma {:induction false} ClearStart(a: seq<Raw>, w: RouteTable, n: nat)
    requires n <= |a|
    ensures Clearing(a, w, n, n, a)
  {
    assert a[n..n] == [];
    assert a == a[..n] + [] + a[n..];
  }

  lemma {:induction false} KeptStep(x: Raw, s: seq<Raw>, w: RouteTable)
    ensures Kept([x] + s, w) == if Orphan(x, w) then Kept(s, w) else [x] + Kept(s, w)
  {
    assert ([x] + s)[1..] == s;
  }

  lemma {:induction false} ClearStep(a: seq<Raw>, w: RouteTable, n: nat, i: nat, s: seq<Raw>)
    requires i < n && Clearing(a, w, n, i + 1, s)
    ensures !Orphan(a[i], w) ==> Clearing(a, w, n, i, s)
    ensures i < |s| && (Orphan(a[i], w) ==> Clearing(a, w, n, i, Apply(s, Del(i))))
  {
    SliceStep(a, i, n);
    KeptStep(a[i], a[i + 1..n], w);
    var kept := Kept(a[i + 1..n], w);
    DeleteAfter(a[..i], a[i], kept, a[n..]);
    assert s == a[..i] + [a[i]] + kept + a[n..];
  }

  lemma {:induction false} ClearDone(a: seq<Raw>, w: RouteTable, n: nat, s: seq<Raw>)
    requires Clearing(a, w, n, 0, s)
    ensures s == SweptTo(a, w, n)
  {
    assert a[0..n] == a[..n];
  }

  lemma {:induction false} KeptTail(a: seq<Raw>, w: RouteTable, n: nat, i: nat)
    requires i <= n <= |a| && Kept(a[n..], w) == a[n..]
    ensures a[..i] + Kept(a[i..n], w) + a[n..] == a[..i] + Kept(a[i..], w)
  {
    SliceSplit(a, i, n);
    FilterConcat(a[i..n], a[n..], Keeps(w));
  }

  /** On a well-formed array nothing is left to sweep behind the visited positions. */
  lemma {:induction false} ClearingSweeps(o: seq<Raw>, w: RouteTable, added: seq<Route>, i: nat, s: seq<Raw>)
    requires WellFormed(o) && Proper(w) && Visits(added, Missing(o, w), w)
    requires Clearing(Widened(o, w, added), w, |o|, i, s)
    ensures Sweeping(Widened(o, w, added), w, i, s)
  {
    TailKept(o, w, added);
    KeptTail(Widened(o, w, added), w, |o|, i);
  }

  /** The client's parsed copy follows the server's array. */
  ghost predicate Aligned(all: seq<CaddyRoute>, s: seq<Raw>) {
    |all| == |s| && forall i :: 0 <= i < |all| ==> all[i].id == IDOf(s[i])
  }

  lemma {:induction false} AlignedFallback(all: seq<CaddyRoute>, s: seq<Raw>, k: nat)
    requires Aligned(all, s) && k <= |all|
    requires forall j :: 0 <= j < k ==> all[j].id != FallbackID
    requires k < |all| ==> all[k].id == FallbackID
    ensures FallbackAt(s) == k
  {
    FallbackAtUnique(s, k);
  }

  lemma {:induction false} AlignedInsert(all: seq<CaddyRoute>, s: seq<Raw>, k: nat, r: Route)
    requires Aligned(all, s) && k <= |all|
    ensures Aligned(all[..k] + [Encode(r)] + all[k..], Apply(s, Post(k, Canon(r))))
  {
  }

  // ------------------------------------------------------------- the whole

  lemma {:induction false} RepairDone(o: seq<Raw>, w: RouteTable, m: seq<Raw>, wanted: RouteTable)
    requires Repairing(o, w, |o|, m, wanted)
    ensures wanted == w - OwnedKeys(o) && SameIDs(m, o)
  {
    assert o[..|o|] == o;
  }

  lemma {:induction false} InsertDone(o: seq<Raw>, w: RouteTable, m: seq<Raw>, added: seq<Route>, s: seq<Raw>)
    requires Repairing(o, w, |o|, m, w - OwnedKeys(o)) && Inserting(o, w, m, {}, added, s)
    ensures Visits(added, Missing(o, w), w) && s == Stretched(o, w, added)
  {
    assert m == Mended(o, w);
    assert Missing(o, w) - {} == Missing(o, w);
  }

  lemma {:induction false} SettledWanted(o: seq<Raw>, w: RouteTable, m: seq<Raw>, wanted: RouteTable)
    requires Settled(o, w) && Repairing(o, w, |o|, m, wanted)
    ensures wanted == map[]
  {
    assert o[..|o|] == o;
  }

  lemma {:induction false} InsertLength(o: seq<Raw>, w: RouteTable, m: seq<Raw>, added: seq<Route>, s: seq<Raw>)
    requires Inserting(o, w, m, {}, added, s)
    ensures |s| >= |o|
  {
  }

  /** The table view of whatever a Reconcile of a well-formed array ends in. */
  lemma {:induction false} ReconcileMeets(o: seq<Raw>, desired: seq<Route>, w: RouteTable, added: seq<Route>,
                                          err: Option<ProxyError>, s: seq<Raw>)
    requires WellFormed(o) && Proper(w) && Tabulates(w, desired) && Sourced(s, o, w)
    requires match err
      case None => Visits(added, Missing(o, w), w) && s == Reconciled(o, w, added)
      case Some(e) => !Unrestored(e) ==> s == o
    ensures ReconcileOutcome(View(o), desired, err, View(s))
    ensures err.None? || !Unrestored(err.value) ==> KeepsShape(o, s)
  {
    match err
    case None =>
      ReconciledWellFormed(o, w, added);
      forall r | r in added ensures Encodable(r) {
      }
      ReconciledForeign(o, w, added);
      ReconciledFaithful(o, w, added);
      FaithfulView(s, w);
    case Some(e) =>
      if Unrestored(e) {
        forall id | id in View(s) ensures id in View(o).Keys + LinksOf(desired) {
          SourcedKey(o, w, s, id);
        }
      }
  }

  lemma {:induction false} SourcedKey(o: seq<Raw>, w: RouteTable, s: seq<Raw>, id: LinkID)
    requires Proper(w) && Sourced(s, o, w) && id in View(s)
    ensures id in View(o) || id in w
  {
    ViewKeys(s, id);
    ViewKeys(o, id);
    var i :| ShownAt(s, i, id);
    assert s[i] in s;
    if s[i] in o {
      var j :| 0 <= j < |o| && o[j] == s[i];
      assert ShownAt(o, j, id);
    } else {
      var k :| k in w && s[i] == Canon(w[k]);
      CanonFacts(w[k]);
    }
  }
}
