/** The converse of CaddyExposure: when a foreign entry is in reach, one run loses
    it. The run writes everything successfully, is stopped in the middle of its
    deletions, and of its compensations only the removals of added routes and one
    PutBack take effect.
 */
module CaddyLoss {
  import opened Ports
  import opened Sequences
  import opened CaddyRoutes
  import opened CaddyUndo
  import opened CaddyPlan
  import opened CaddyExposure
  import opened CaddyPhases
  import opened CaddyFragility

  // ------------------------------------------- the run, write after write

  function PutBacks(o: seq<Raw>, w: RouteTable, n: nat): seq<Undo>
    requires n <= |o|
  {
    if n == 0 then []
    else PutBacks(o, w, n - 1) + if NeedsRepair(o[n - 1], w) then [PutBack(n - 1, o[n - 1])] else []
  }

  function TakeOuts(added: seq<Route>): (undos: seq<Undo>)
    ensures |undos| == |added| && forall j :: 0 <= j < |added| ==> undos[j] == TakeOut(added[j].linkID)
  {
    seq(|added|, j requires 0 <= j < |added| => TakeOut(added[j].linkID))
  }

  /** The array and the stack when phase one has done `n` entries. */
  function RepairedTo(o: seq<Raw>, w: RouteTable, n: nat): seq<Raw>
    requires n <= |o|
  {
    Repaired(o, w)[..n] + o[n..]
  }

  lemma {:induction false} RepairedNext(o: seq<Raw>, w: RouteTable, i: nat)
    requires i < |o|
    ensures RepairedTo(o, w, i + 1) == RepairedTo(o, w, i)[i := RepairOne(o[i], w)]
    ensures RepairedTo(o, w, i)[i] == o[i]
  {
  }

  lemma {:induction false} RepairNext(
    o: seq<Raw>, w: RouteTable, i: nat, s: seq<Raw>, wanted: RouteTable, undos: seq<Undo>)
    requires WellFormed(o) && Proper(w) && i < |o| && NeedsRepair(o[i], w)
    requires Recoverable(true, o, w, s, undos) && OnlyPutBacks(undos)
    requires Repairing(o, w, i, s, wanted) && wanted == w - OwnedKeys(o[..i])
    ensures Recoverable(true, o, w, s[i := RepairOne(o[i], w)], undos + [PutBack(i, o[i])])
    ensures Repairing(o, w, i + 1, s[i := RepairOne(o[i], w)], w - OwnedKeys(o[..i + 1]))
  {
    WantedStep(o, w, i, wanted);
    RepairStep(o, w, i, s, wanted);
    WriteRecoverable(true, o, w, s, undos, PutBack(i, o[i]), Put(i, Canon(w[Key(o[i])])), true);
  }

  lemma {:induction false} SkipNext(o: seq<Raw>, w: RouteTable, i: nat, s: seq<Raw>, wanted: RouteTable)
    requires WellFormed(o) && i < |o| && !NeedsRepair(o[i], w)
    requires Repairing(o, w, i, s, wanted) && wanted == w - OwnedKeys(o[..i])
    ensures Repairing(o, w, i + 1, s, w - OwnedKeys(o[..i + 1]))
  {
    WantedStep(o, w, i, wanted);
    RepairSkip(o, w, i, s, wanted);
  }

  lemma {:induction false} PutBacksNext(o: seq<Raw>, w: RouteTable, i: nat)
    requires i < |o|
    ensures NeedsRepair(o[i], w) ==> PutBacks(o, w, i + 1) == PutBacks(o, w, i) + [PutBack(i, o[i])]
    ensures !NeedsRepair(o[i], w) ==> PutBacks(o, w, i + 1) == PutBacks(o, w, i)
  {
  }

  lemma {:induction false} RunRepairs(o: seq<Raw>, w: RouteTable, n: nat) returns (s: seq<Raw>, undos: seq<Undo>)
    requires WellFormed(o) && Proper(w) && n <= |o|
    ensures s == RepairedTo(o, w, n) && undos == PutBacks(o, w, n)
    ensures Recoverable(true, o, w, s, undos) && OnlyPutBacks(undos)
    ensures Repairing(o, w, n, s, w - OwnedKeys(o[..n]))
  {
    if n == 0 {
      s, undos := o, [];
      assert RepairedTo(o, w, 0) == o;
      RepairStart(o, w);
      assert OwnedKeys(o[..0]) == {};
    } else {
      var i := n - 1;
      s, undos := RunRepairs(o, w, i);
      s, undos := RepairOrSkip(o, w, i, s, undos);
      RepairedNext(o, w, i);
      PutBacksNext(o, w, i);
    }
  }

  lemma {:induction false} RepairOrSkip(o: seq<Raw>, w: RouteTable, i: nat, s: seq<Raw>, undos: seq<Undo>)
    returns (t: seq<Raw>, more: seq<Undo>)
    requires WellFormed(o) && Proper(w) && i < |o| && |s| == |o| && s[i] == o[i]
    requires Recoverable(true, o, w, s, undos) && OnlyPutBacks(undos) && Repairing(o, w, i, s, w - OwnedKeys(o[..i]))
    ensures t == s[i := RepairOne(o[i], w)]
    ensures more == if NeedsRepair(o[i], w) then undos + [PutBack(i, o[i])] else undos
    ensures Recoverable(true, o, w, t, more) && OnlyPutBacks(more)
    ensures Repairing(o, w, i + 1, t, w - OwnedKeys(o[..i + 1]))
  {
    if NeedsRepair(o[i], w) {
      t, more := s[i := RepairOne(o[i], w)], undos + [PutBack(i, o[i])];
      RepairNext(o, w, i, s, w - OwnedKeys(o[..i]), undos);
    } else {
      t, more := s, undos;
      SkipNext(o, w, i, s, w - OwnedKeys(o[..i]));
    }
  }

  /** The array when phase two has inserted the first `n` routes. */
  function InsertedTo(o: seq<Raw>, w: RouteTable, added: seq<Route>, n: nat): seq<Raw>
    requires n <= |added|
  {
    Repaired(o, w)[..FallbackAt(o)] + Canons(added[..n]) + Repaired(o, w)[FallbackAt(o)..]
  }

  lemma {:induction false} NextRoute(added: seq<Route>, ids: set<LinkID>, w: RouteTable, i: nat)
    requires Visits(added, ids, w) && i < |added|
    ensures added[i].linkID in ids && added[i].linkID !in LinksOf(added[..i]) && w[added[i].linkID] == added[i]
    ensures LinksOf(added[..i + 1]) == LinksOf(added[..i]) + {added[i].linkID}
    ensures added[..i + 1] == added[..i] + [added[i]]
  {
    assert added[i] in added && added[i].linkID in LinksOf(added);
    assert added[..i + 1] == added[..i] + [added[i]];
    forall r | r in added[..i] ensures r.linkID != added[i].linkID {
      var j :| 0 <= j < i && added[j] == r;
    }
  }

  lemma {:induction false} RunInserts(o: seq<Raw>, w: RouteTable, added: seq<Route>, n: nat)
    requires WellFormed(o) && Proper(w) && Visits(added, Missing(o, w), w) && n <= |added|
    ensures Recoverable(true, o, w, InsertedTo(o, w, added, n), PutBacks(o, w, |o|) + TakeOuts(added[..n]))
    ensures Inserting(o, w, Repaired(o, w), Missing(o, w) - LinksOf(added[..n]), added[..n], InsertedTo(o, w, added, n))
  {
    var m := Repaired(o, w);
    if n == 0 {
      var s, undos := RunRepairs(o, w, |o|);
      assert RepairedTo(o, w, |o|) == m;
      InsertStart(o, w, m);
      assert added[..0] == [] && LinksOf([]) == {};
      assert Missing(o, w) - {} == Missing(o, w);
      assert InsertedTo(o, w, added, 0) == m;
      assert PutBacks(o, w, |o|) + TakeOuts([]) == PutBacks(o, w, |o|);
    } else {
      var i := n - 1;
      RunInserts(o, w, added, i);
      NextRoute(added, Missing(o, w), w, i);
      InsertOne(o, w, added, i);
    }
  }

  lemma {:induction false} InsertNext(o: seq<Raw>, w: RouteTable, remaining: set<LinkID>, done: seq<Route>,
                                      s: seq<Raw>, undos: seq<Undo>, id: LinkID)
    requires WellFormed(o) && Proper(w) && id in remaining
    requires Recoverable(true, o, w, s, undos) && Inserting(o, w, Repaired(o, w), remaining, done, s)
    ensures var t := Apply(s, Post(FallbackAt(s), Canon(w[id])));
      && Recoverable(true, o, w, t, undos + [TakeOut(id)])
      && Inserting(o, w, Repaired(o, w), remaining - {id}, done + [w[id]], t)
  {
    InsertPrepared(o, w, Repaired(o, w), remaining, done, s, id);
    InsertStep(o, w, Repaired(o, w), remaining, done, s, id);
    WriteRecoverable(true, o, w, s, undos, TakeOut(id), Post(FallbackAt(s), Canon(w[id])), true);
  }

  lemma {:induction false} TakeOutsNext(undos: seq<Undo>, added: seq<Route>, i: nat)
    requires i < |added|
    ensures undos + TakeOuts(added[..i]) + [TakeOut(added[i].linkID)] == undos + TakeOuts(added[..i + 1])
  {
  }

  lemma {:induction false} InsertOne(o: seq<Raw>, w: RouteTable, added: seq<Route>, i: nat)
    requires WellFormed(o) && Proper(w) && Visits(added, Missing(o, w), w) && i < |added|
    requires Recoverable(true, o, w, InsertedTo(o, w, added, i), PutBacks(o, w, |o|) + TakeOuts(added[..i]))
    requires Inserting(o, w, Repaired(o, w), Missing(o, w) - LinksOf(added[..i]), added[..i], InsertedTo(o, w, added, i))
    ensures Recoverable(true, o, w, InsertedTo(o, w, added, i + 1), PutBacks(o, w, |o|) + TakeOuts(added[..i + 1]))
    ensures Inserting(o, w, Repaired(o, w), Missing(o, w) - LinksOf(added[..i + 1]), added[..i + 1],
                      InsertedTo(o, w, added, i + 1))
  {
    var id, remaining := added[i].linkID, Missing(o, w) - LinksOf(added[..i]);
    NextRoute(added, Missing(o, w), w, i);
    RemainingNext(Missing(o, w), added, i);
    var s, undos := InsertedTo(o, w, added, i), PutBacks(o, w, |o|) + TakeOuts(added[..i]);
    InsertNext(o, w, remaining, added[..i], s, undos, id);
    TakeOutsNext(PutBacks(o, w, |o|), added, i);
    InsertedIs(o, w, added, i + 1, remaining - {id}, Apply(s, Post(FallbackAt(s), Canon(w[id]))));
  }

  lemma {:induction false} RemainingNext(ids: set<LinkID>, added: seq<Route>, i: nat)
    requires i < |added| && LinksOf(added[..i + 1]) == LinksOf(added[..i]) + {added[i].linkID}
    ensures ids - LinksOf(added[..i]) - {added[i].linkID} == ids - LinksOf(added[..i + 1])
  {
  }

  lemma {:induction false} InsertedIs(
    o: seq<Raw>, w: RouteTable, added: seq<Route>, n: nat, remaining: set<LinkID>, s: seq<Raw>)
    requires n <= |added| && Inserting(o, w, Repaired(o, w), remaining, added[..n], s)
    ensures s == InsertedTo(o, w, added, n)
  {
  }

  /** The array when phase three has come down to position `c`. */
  function DeletedTo(o: seq<Raw>, w: RouteTable, added: seq<Route>, c: nat): seq<Raw>
    requires c <= |Widened(o, w, added)|
  {
    Widened(o, w, added)[..c] + Kept(Widened(o, w, added)[c..], w)
  }

  function Stack(o: seq<Raw>, w: RouteTable, added: seq<Route>, c: nat): seq<Undo>
    requires c <= |o|
  {
    PutBacks(o, w, |o|) + TakeOuts(added) + Reinserts(o, w, c)
  }

  lemma {:induction false} DeleteNext(
    o: seq<Raw>, w: RouteTable, added: seq<Route>, c: nat, s: seq<Raw>, undos: seq<Undo>)
    requires WellFormed(o) && Proper(w) && Visits(added, Missing(o, w), w) && c < |o|
    requires WellFormed(Widened(o, w, added)) && c < |Widened(o, w, added)| && Orphan(Widened(o, w, added)[c], w)
    requires Recoverable(true, o, w, s, undos) && Sweeping(Widened(o, w, added), w, c + 1, s)
    ensures c < |s| && Sweeping(Widened(o, w, added), w, c, Apply(s, Del(c)))
    ensures Recoverable(true, o, w, Apply(s, Del(c)), undos + [Reinsert(c, o[c])])
  {
    SweepPrepared(o, w, added, Widened(o, w, added), c, s);
    WriteRecoverable(true, o, w, s, undos, Reinsert(c, o[c]), Del(c), true);
  }

  lemma {:induction false} StackNext(o: seq<Raw>, w: RouteTable, added: seq<Route>, c: nat)
    requires c < |o|
    ensures Stack(o, w, added, c) == Stack(o, w, added, c + 1) + ReinsertAt(o, w, c)
  {
  }

  lemma {:induction false} RunDeletesStart(o: seq<Raw>, w: RouteTable, added: seq<Route>)
    requires WellFormed(o) && Proper(w) && Visits(added, Missing(o, w), w)
    ensures |Widened(o, w, added)| == |o| + |added|
    ensures Recoverable(true, o, w, DeletedTo(o, w, added, |o|), Stack(o, w, added, |o|))
    ensures Sweeping(Widened(o, w, added), w, |o|, DeletedTo(o, w, added, |o|))
  {
    RunInserts(o, w, added, |added|);
    assert added[..|added|] == added;
    assert InsertedTo(o, w, added, |added|) == Widened(o, w, added);
    SweepStart(o, w, added);
    assert Stack(o, w, added, |o|) == PutBacks(o, w, |o|) + TakeOuts(added);
  }

  lemma {:induction false} DeleteOrKeep(
    o: seq<Raw>, w: RouteTable, added: seq<Route>, c: nat, s: seq<Raw>, undos: seq<Undo>)
    returns (t: seq<Raw>, more: seq<Undo>)
    requires WellFormed(o) && Proper(w) && Visits(added, Missing(o, w), w) && c < |o|
    requires |o| <= |Widened(o, w, added)|
    requires Recoverable(true, o, w, s, undos) && Sweeping(Widened(o, w, added), w, c + 1, s)
    ensures Recoverable(true, o, w, t, more) && Sweeping(Widened(o, w, added), w, c, t)
    ensures more == undos + ReinsertAt(o, w, c)
  {
    SweptEntry(o, w, added, c);
    WidenedWellFormed(o, w, added);
    if Orphan(Widened(o, w, added)[c], w) {
      DeleteNext(o, w, added, c, s, undos);
      t, more := Apply(s, Del(c)), undos + [Reinsert(c, o[c])];
    } else {
      SweepKeep(Widened(o, w, added), w, c, s);
      NoOrphan(o, w, added, c);
      t, more := s, undos;
    }
  }

  /** The run that has succeeded so far is where every phase's invariant puts it. */
  lemma {:induction false} RunDeletes(o: seq<Raw>, w: RouteTable, added: seq<Route>, c: nat)
    returns (s: seq<Raw>, undos: seq<Undo>)
    requires WellFormed(o) && Proper(w) && Visits(added, Missing(o, w), w) && c <= |o|
    ensures Recoverable(true, o, w, s, undos) && Sweeping(Widened(o, w, added), w, c, s)
    ensures undos == Stack(o, w, added, c)
    decreases |o| - c
  {
    if c == |o| {
      RunDeletesStart(o, w, added);
      s, undos := DeletedTo(o, w, added, c), Stack(o, w, added, c);
    } else {
      s, undos := RunDeletesOne(o, w, added, c);
    }
  }

  lemma {:induction false} RunDeletesOne(o: seq<Raw>, w: RouteTable, added: seq<Route>, c: nat)
    returns (s: seq<Raw>, undos: seq<Undo>)
    requires WellFormed(o) && Proper(w) && Visits(added, Missing(o, w), w) && c < |o|
    ensures Recoverable(true, o, w, s, undos) && Sweeping(Widened(o, w, added), w, c, s)
    ensures undos == Stack(o, w, added, c)
    decreases |o| - c, 0
  {
    var s1, undos1 := RunDeletes(o, w, added, c + 1);
    assert |o| <= |Widened(o, w, added)|;
    s, undos := DeleteOrKeep(o, w, added, c, s1, undos1);
    StackNext(o, w, added, c);
  }

  lemma {:induction false} NoOrphan(o: seq<Raw>, w: RouteTable, added: seq<Route>, c: nat)
    requires WellFormed(o) && Proper(w) && Visits(added, Missing(o, w), w) && c < |o|
    requires !Orphan(Widened(o, w, added)[c], w)
    ensures !Orphan(o[c], w)
  {
    if IsOwned(o[c]) {
      OwnedBeforeFallback(o, c);
      WidenedAt(o, w, added, c);
      RepairKeepsID(o[c], w);
    }
  }

  // ------------------------------------------------------- the rollback

  /** Nothing takes effect above position `p`. */
  lemma {:induction false} Ineffective(undos: seq<Undo>, p: nat, effective: seq<bool>, s: seq<Raw>)
    requires p <= |undos| && |effective| == |undos| - p && forall j :: 0 <= j < |effective| ==> !effective[j]
    ensures UndoSome(undos, p, effective, s) == s
    decreases |undos| - p
  {
    if p < |undos| {
      Ineffective(undos, p + 1, effective[1..], s);
    }
  }

  /** Of the PutBacks between `p` and `n` only `u` takes effect. */
  lemma {:induction false} OnlyOne(
    undos: seq<Undo>, p: nat, n: nat, effective: seq<bool>, s: seq<Raw>, u: Undo, t: seq<Raw>)
    requires p <= n <= |undos| && |effective| == |undos| && u.PutBack?
    requires forall j :: p <= j < n ==> (effective[j] <==> undos[j] == u)
    requires t == UndoSome(undos, n, effective[n..], s)
    ensures UndoSome(undos, p, effective[p..], s) == if u in undos[p..n] then UndoEffect(u, t) else t
    decreases n - p
  {
    if p < n {
      DropMore(effective, p);
      OnlyOne(undos, p + 1, n, effective, s, u, t);
      assert undos[p..n] == [undos[p]] + undos[p + 1..n];
      Twice(u, t);
    }
  }

  lemma {:induction false} Twice(u: Undo, t: seq<Raw>)
    requires u.PutBack?
    ensures UndoEffect(u, UndoEffect(u, t)) == UndoEffect(u, t)
  {
    if u.index < |t| {
      assert t[u.index := u.before][u.index := u.before] == t[u.index := u.before];
    }
  }

  /** Every identity of `s` is one of the snapshot's. */
  ghost predicate Known(s: seq<Raw>, o: seq<Raw>) {
    forall y | y in s :: exists x :: x in o && IDOf(x) == IDOf(y)
  }

  /** No entry outside the added ones carries the identity of a missing link. */
  lemma {:induction false} Unclaimed(
    front: seq<Raw>, back: seq<Raw>, o: seq<Raw>, w: RouteTable, added: seq<Route>, n: nat)
    requires Proper(w) && Visits(added, Missing(o, w), w) && n < |added|
    requires Known(front, o) && Known(back, o)
    ensures forall y | y in front + Canons(added[..n]) + back :: IDOf(y) != RouteID(added[n].linkID)
  {
    var id := added[n].linkID;
    NextRoute(added, Missing(o, w), w, n);
    CanonFacts(added[n]);
    RouteIDRoundTrip(id);
    forall y | y in front || y in back ensures IDOf(y) != RouteID(id) {
      var x :| x in o && IDOf(x) == IDOf(y);
      assert IsOwned(x) ==> Key(x) in OwnedKeys(o);
    }
    forall y | y in Canons(added[..n]) ensures IDOf(y) != RouteID(id) {
      var j :| 0 <= j < n && Canons(added[..n])[j] == y;
      CanonFacts(added[j]);
      assert added[j] in added[..n];
      assert added[j].linkID in LinksOf(added[..n]);
    }
  }

  lemma {:induction false} CanonLast(front: seq<Raw>, back: seq<Raw>, added: seq<Route>, n: nat)
    requires n < |added|
    ensures var rest := front + Canons(added[..n]) + back;
      front + Canons(added[..n + 1]) + back == rest[..|front| + n] + [Canon(added[n])] + rest[|front| + n..]
  {
    assert Canons(added[..n + 1]) == Canons(added[..n]) + [Canon(added[n])];
  }

  lemma {:induction false} TakeOne(
    front: seq<Raw>, back: seq<Raw>, o: seq<Raw>, w: RouteTable, added: seq<Route>, n: nat)
    requires Proper(w) && Visits(added, Missing(o, w), w) && n < |added|
    requires Known(front, o) && Known(back, o)
    ensures UndoEffect(TakeOut(added[n].linkID), front + Canons(added[..n + 1]) + back) == front + Canons(added[..n]) + back
  {
    var rest := front + Canons(added[..n]) + back;
    Unclaimed(front, back, o, w, added, n);
    NextRoute(added, Missing(o, w), w, n);
    CanonFacts(added[n]);
    TakeOutInverts(rest, |front| + n, Canon(added[n]), added[n].linkID);
    CanonLast(front, back, added, n);
  }

  /** From position `b` on the stack removes the added routes. */
  ghost predicate TakesOut(undos: seq<Undo>, b: nat, added: seq<Route>) {
    b + |added| <= |undos| && forall j :: 0 <= j < |added| ==> undos[b + j] == TakeOut(added[j].linkID)
  }

  /** The added routes are taken out again. */
  lemma {:induction false} TakenOut(
    undos: seq<Undo>, b: nat, n: nat, effective: seq<bool>, s: seq<Raw>,
    front: seq<Raw>, back: seq<Raw>, o: seq<Raw>, w: RouteTable, added: seq<Route>)
    requires Proper(w) && Visits(added, Missing(o, w), w) && n <= |added|
    requires Known(front, o) && Known(back, o)
    requires TakesOut(undos, b, added) && |effective| == |undos|
    requires forall p :: b <= p < b + |added| ==> effective[p]
    requires UndoSome(undos, b + |added|, effective[b + |added|..], s) == front + Canons(added) + back
    ensures UndoSome(undos, b + n, effective[b + n..], s) == front + Canons(added[..n]) + back
    decreases |added| - n
  {
    if n == |added| {
      assert added[..n] == added;
    } else {
      DropMore(effective, b + n);
      TakenOut(undos, b, n + 1, effective, s, front, back, o, w, added);
      TakeOne(front, back, o, w, added, n);
      assert undos[b + n] == TakeOut(added[n].linkID);
    }
  }

  // --------------------------------------------------- where to stop the run

  lemma {:induction false} CutFrom(o: seq<Raw>, w: RouteTable, k: nat, g: nat, d: nat) returns (c: nat)
    requires d <= k <= |o| && Orphans(o[d..k], w) < g <= Orphans(o[..k], w)
    ensures c < d && Orphan(o[c], w) && Orphans(o[c..k], w) == g
  {
    assert o[0..k] == o[..k];
    c := d - 1;
    OneMore(o, w, c, k);
    if Orphans(o[c..k], w) < g {
      c := CutFrom(o, w, k, g, c);
    }
  }

  /** The deletion after which the foreign entry `k` has come forward to slot `i`. */
  lemma {:induction false} Cut(o: seq<Raw>, w: RouteTable, i: nat, k: nat) returns (c: nat)
    requires Shot(o, w, i, k)
    ensures c < k && Orphan(o[c], w) && Orphans(o[c..k], w) == k - i
  {
    assert o[k..k] == [];
    c := CutFrom(o, w, k, k - i, k);
  }

  lemma {:induction false} OrphansRepaired(o: seq<Raw>, w: RouteTable, c: nat, k: nat)
    requires Proper(w) && c <= k <= |o|
    ensures Orphans(Repaired(o, w)[c..k], w) == Orphans(o[c..k], w)
  {
    forall i | 0 <= i < k - c ensures Orphan(Repaired(o, w)[c..k][i], w) <==> Orphan(o[c..k][i], w) {
      RepairKeepsID(o[c + i], w);
    }
    SameOrphans(Repaired(o, w)[c..k], o[c..k], w);
  }

  /** The array once the added routes are out again. */
  function Stranded(o: seq<Raw>, w: RouteTable, c: nat): seq<Raw>
    requires c <= |o|
  {
    Repaired(o, w)[..c] + Kept(Repaired(o, w)[c..], w)
  }

  lemma {:induction false} KeptAround(m: seq<Raw>, w: RouteTable, c: nat, k: nat)
    requires c <= k < |m| && !Orphan(m[k], w)
    ensures Kept(m[c..], w) == Kept(m[c..k], w) + [m[k]] + Kept(m[k + 1..], w)
  {
    assert m[c..] == m[c..k] + [m[k]] + m[k + 1..];
    FilterMid(m[c..k], m[k], m[k + 1..], Keeps(w));
  }

  /** Then the foreign entry is in the slot. */
  lemma {:induction false} InTheSlot(o: seq<Raw>, w: RouteTable, c: nat, i: nat, k: nat)
    requires Proper(w) && c <= k < |o| && i < k && IsForeign(o[k]) && Orphans(o[c..k], w) == k - i
    ensures i < |Stranded(o, w, c)| && IsForeign(Stranded(o, w, c)[i])
  {
    var m := Repaired(o, w);
    OrphansRepaired(o, w, c, k);
    KeptLength(m[c..k], w);
    RepairKeepsID(o[k], w);
    KeptAround(m, w, c, k);
    InTheMiddle(m[..c], Kept(m[c..k], w), m[k], Kept(m[k + 1..], w));
  }

  lemma {:induction false} BackIsKept(o: seq<Raw>, w: RouteTable)
    requires WellFormed(o) && Proper(w)
    ensures var back := Repaired(o, w)[FallbackAt(o)..]; Kept(back, w) == back
  {
    var m, f := Repaired(o, w), FallbackAt(o);
    forall x | x in m[f..] ensures Keeps(w)(x) {
      var j :| 0 <= j < |m[f..]| && m[f..][j] == x;
      RepairKeepsID(o[f + j], w);
      if IsOwned(o[f + j]) {
        OwnedBeforeFallback(o, f + j);
      }
    }
    FilterAll(m[f..], Keeps(w));
  }

  lemma {:induction false} CanonsAreKept(w: RouteTable, added: seq<Route>, ids: set<LinkID>)
    requires Proper(w) && Visits(added, ids, w)
    ensures Kept(Canons(added), w) == Canons(added)
  {
    forall x | x in Canons(added) ensures Keeps(w)(x) {
      var j :| 0 <= j < |added| && Canons(added)[j] == x;
      assert added[j] in added;
      CanonFacts(added[j]);
    }
    FilterAll(Canons(added), Keeps(w));
  }

  function Front(o: seq<Raw>, w: RouteTable, c: nat): seq<Raw>
    requires c <= FallbackAt(o)
  {
    Repaired(o, w)[..c] + Kept(Repaired(o, w)[c..FallbackAt(o)], w)
  }

  function Back(o: seq<Raw>, w: RouteTable): seq<Raw> {
    Repaired(o, w)[FallbackAt(o)..]
  }

  lemma {:induction false} KeptParts(x: seq<Raw>, y: seq<Raw>, z: seq<Raw>, w: RouteTable)
    requires Kept(y, w) == y && Kept(z, w) == z
    ensures Kept(x + y + z, w) == Kept(x, w) + y + z && Kept(x + z, w) == Kept(x, w) + z
  {
    FilterConcat(x + y, z, Keeps(w));
    FilterConcat(x, y, Keeps(w));
    FilterConcat(x, z, Keeps(w));
  }

  lemma {:induction false} WidenedParts(o: seq<Raw>, w: RouteTable, added: seq<Route>, c: nat)
    requires c <= FallbackAt(o)
    ensures c <= |Widened(o, w, added)| && Widened(o, w, added)[..c] == Repaired(o, w)[..c]
    ensures Widened(o, w, added)[c..] == Repaired(o, w)[c..FallbackAt(o)] + Canons(added) + Back(o, w)
    ensures Repaired(o, w)[c..] == Repaired(o, w)[c..FallbackAt(o)] + Back(o, w)
  {
    var m, f := Repaired(o, w), FallbackAt(o);
    CutFirst(m[..f], Canons(added), m[f..], c);
    CutTwice(m, c, f);
  }

  lemma {:induction false} Joined(a: seq<Raw>, x: seq<Raw>, y: seq<Raw>, z: seq<Raw>)
    ensures a + (x + y + z) == a + x + y + z && a + (x + z) == a + x + z
  {
  }

  /** The array where the run is stopped, and the same without the added routes. */
  lemma {:induction false} StoppedShape(o: seq<Raw>, w: RouteTable, added: seq<Route>, c: nat)
    requires WellFormed(o) && Proper(w) && Visits(added, Missing(o, w), w) && c <= FallbackAt(o)
    ensures c <= |Widened(o, w, added)|
    ensures DeletedTo(o, w, added, c) == Front(o, w, c) + Canons(added) + Back(o, w)
    ensures Stranded(o, w, c) == Front(o, w, c) + Back(o, w)
  {
    WidenedParts(o, w, added, c);
    CanonsAreKept(w, added, Missing(o, w));
    BackIsKept(o, w);
    var x := Repaired(o, w)[c..FallbackAt(o)];
    KeptParts(x, Canons(added), Back(o, w), w);
    Joined(Repaired(o, w)[..c], Kept(x, w), Canons(added), Back(o, w));
  }

  lemma {:induction false} KnownIDs(o: seq<Raw>, w: RouteTable, c: nat)
    requires Proper(w) && c <= FallbackAt(o)
    ensures Known(Front(o, w, c), o) && Known(Back(o, w), o)
  {
    var m, f := Repaired(o, w), FallbackAt(o);
    forall y | y in Front(o, w, c) || y in Back(o, w) ensures exists x :: x in o && IDOf(x) == IDOf(y) {
      FilterMember(m[c..f], Keeps(w), y);
      assert y in m[..c] || y in m[c..f] || y in m[f..];
      var j :| 0 <= j < |m| && m[j] == y;
      RepairKeepsID(o[j], w);
      assert o[j] in o && IDOf(o[j]) == IDOf(y);
    }
  }

  // ------------------------------------------------------- main results

  lemma {:induction false} RepairStacked(o: seq<Raw>, w: RouteTable, n: nat, i: nat)
    requires i < n <= |o| && NeedsRepair(o[i], w)
    ensures PutBack(i, o[i]) in PutBacks(o, w, n)
  {
    if i < n - 1 {
      RepairStacked(o, w, n - 1, i);
    }
  }

  lemma {:induction false} OnlyRepairs(o: seq<Raw>, w: RouteTable, n: nat)
    requires n <= |o|
    ensures OnlyPutBacks(PutBacks(o, w, n))
  {
    if n > 0 {
      OnlyRepairs(o, w, n - 1);
    }
  }

  /** Only the removals and one PutBack take effect. */
  function Adverse(undos: seq<Undo>, u: Undo): (effective: seq<bool>)
    ensures |effective| == |undos|
    ensures forall p :: 0 <= p < |undos| ==> (effective[p] <==> undos[p].TakeOut? || undos[p] == u)
  {
    seq(|undos|, p requires 0 <= p < |undos| => undos[p].TakeOut? || undos[p] == u)
  }

  /** What is where on the stack. */
  lemma {:induction false} StackParts(o: seq<Raw>, w: RouteTable, added: seq<Route>, c: nat)
    requires c <= |o|
    ensures var undos, b, n := Stack(o, w, added, c), |PutBacks(o, w, |o|)|, |added|;
      && b + n <= |undos| && undos[0..b] == PutBacks(o, w, |o|)
      && (forall j :: 0 <= j < b ==> undos[j].PutBack?)
      && TakesOut(undos, b, added)
      && (forall p :: b + n <= p < |undos| ==> undos[p].Reinsert?)
  {
    var undos, b, n := Stack(o, w, added, c), |PutBacks(o, w, |o|)|, |added|;
    OnlyRepairs(o, w, |o|);
    AllReinserts(o, w, c);
    forall j | 0 <= j < b ensures undos[j].PutBack? {
      assert undos[j] in PutBacks(o, w, |o|);
    }
    forall p | b + n <= p < |undos| ensures undos[p].Reinsert? {
      assert undos[p] in Reinserts(o, w, c);
    }
  }

  lemma {:induction false} NothingReinserted(undos: seq<Undo>, p: nat, u: Undo, s: seq<Raw>)
    requires p <= |undos| && u.PutBack? && forall j :: p <= j < |undos| ==> undos[j].Reinsert?
    ensures UndoSome(undos, p, Adverse(undos, u)[p..], s) == s
  {
    Ineffective(undos, p, Adverse(undos, u)[p..], s);
  }

  /** The replay down to the removals leaves the array as the run was stopped. */
  lemma {:induction false} ReplayToRemovals(o: seq<Raw>, w: RouteTable, added: seq<Route>, c: nat, u: Undo, s: seq<Raw>)
    requires c <= |o| && u.PutBack?
    ensures var undos, b := Stack(o, w, added, c), |PutBacks(o, w, |o|)|;
      TakesOut(undos, b, added) && UndoSome(undos, b + |added|, Adverse(undos, u)[b + |added|..], s) == s
  {
    StackParts(o, w, added, c);
    NothingReinserted(Stack(o, w, added, c), |PutBacks(o, w, |o|)| + |added|, u, s);
  }

  lemma {:induction false} TakenOutAll(
    undos: seq<Undo>, b: nat, u: Undo, s: seq<Raw>, front: seq<Raw>, back: seq<Raw>,
    o: seq<Raw>, w: RouteTable, added: seq<Route>)
    requires Proper(w) && Visits(added, Missing(o, w), w)
    requires Known(front, o) && Known(back, o)
    requires TakesOut(undos, b, added)
    requires UndoSome(undos, b + |added|, Adverse(undos, u)[b + |added|..], s) == s
    requires s == front + Canons(added) + back
    ensures UndoSome(undos, b, Adverse(undos, u)[b..], s) == front + back
  {
    forall p | b <= p < b + |added| ensures Adverse(undos, u)[p] {
      assert undos[b + (p - b)] == TakeOut(added[p - b].linkID);
    }
    TakenOut(undos, b, 0, Adverse(undos, u), s, front, back, o, w, added);
    NoneTakenOut(front, back, added);
  }

  lemma {:induction false} NoneTakenOut(front: seq<Raw>, back: seq<Raw>, added: seq<Route>)
    ensures front + Canons(added[..0]) + back == front + back
  {
    assert Canons(added[..0]) == [];
    assert front + [] == front;
  }

  /** The replay down to the first PutBack leaves the array stranded. */
  lemma {:induction false} ReplayToRepairs(
    o: seq<Raw>, w: RouteTable, added: seq<Route>, c: nat, u: Undo, undos: seq<Undo>, b: nat, s: seq<Raw>)
    requires WellFormed(o) && Proper(w) && Visits(added, Missing(o, w), w) && c <= FallbackAt(o)
    requires TakesOut(undos, b, added) && UndoSome(undos, b + |added|, Adverse(undos, u)[b + |added|..], s) == s
    requires s == Front(o, w, c) + Canons(added) + Back(o, w)
    ensures UndoSome(undos, b, Adverse(undos, u)[b..], s) == Front(o, w, c) + Back(o, w)
  {
    KnownIDs(o, w, c);
    TakenOutAll(undos, b, u, s, Front(o, w, c), Back(o, w), o, w, added);
  }

  /** One PutBack into a slot that holds a foreign entry. */
  lemma {:induction false} PutBackLoses(t: seq<Raw>, i: nat, x: Raw)
    requires i < |t| && IsForeign(t[i]) && IsOwned(x)
    ensures |Foreign(UndoEffect(PutBack(i, x), t))| < |Foreign(t)|
  {
    PutForeign(t, i, x);
  }

  lemma {:induction false} ReplayRepairs(undos: seq<Undo>, b: nat, u: Undo, s: seq<Raw>, t: seq<Raw>)
    requires b <= |undos| && u.PutBack? && (forall j :: 0 <= j < b ==> undos[j].PutBack?) && u in undos[0..b]
    requires t == UndoSome(undos, b, Adverse(undos, u)[b..], s)
    ensures UndoSome(undos, 0, Adverse(undos, u), s) == UndoEffect(u, t)
  {
    OnlyOne(undos, 0, b, Adverse(undos, u), s, u, t);
    assert Adverse(undos, u)[0..] == Adverse(undos, u);
  }

  /** All but the repairs are replayed. */
  lemma {:induction false} Replayed(
    o: seq<Raw>, w: RouteTable, added: seq<Route>, c: nat, u: Undo, undos: seq<Undo>, b: nat, s: seq<Raw>)
    requires WellFormed(o) && Proper(w) && Visits(added, Missing(o, w), w) && c <= FallbackAt(o) && u.PutBack?
    requires undos == Stack(o, w, added, c) && b == |PutBacks(o, w, |o|)|
    requires s == Front(o, w, c) + Canons(added) + Back(o, w)
    ensures b <= |undos| && UndoSome(undos, b, Adverse(undos, u)[b..], s) == Front(o, w, c) + Back(o, w)
  {
    assert TakesOut(undos, b, added) && UndoSome(undos, b + |added|, Adverse(undos, u)[b + |added|..], s) == s by {
      ReplayToRemovals(o, w, added, c, u, s);
    }
    ReplayToRepairs(o, w, added, c, u, undos, b, s);
  }

  /** The run stopped there loses the entry. */
  lemma {:induction false} StoppedRunLoses(
    o: seq<Raw>, w: RouteTable, c: nat, i: nat, undos: seq<Undo>, b: nat, s: seq<Raw>)
    requires c <= |o| && i < |o| && NeedsRepair(o[i], w) && Proper(w)
    requires b <= |undos| && undos[0..b] == PutBacks(o, w, |o|) && (forall j :: 0 <= j < b ==> undos[j].PutBack?)
    requires UndoSome(undos, b, Adverse(undos, PutBack(i, o[i]))[b..], s) == Stranded(o, w, c)
    requires i < |Stranded(o, w, c)| && IsForeign(Stranded(o, w, c)[i])
    ensures |Foreign(UndoSome(undos, 0, Adverse(undos, PutBack(i, o[i])), s))| < |Foreign(o)|
  {
    RepairStacked(o, w, |o|, i);
    ReplayRepairs(undos, b, PutBack(i, o[i]), s, Stranded(o, w, c));
    PutBackLoses(Stranded(o, w, c), i, o[i]);
    StrandedForeign(o, w, c);
  }

  /** When a foreign entry is in reach, some run of Reconcile loses one. */
  lemma {:induction false} ExposedRollbackLoses(o: seq<Raw>, w: RouteTable, added: seq<Route>)
    returns (c: nat, effective: seq<bool>)
    requires WellFormed(o) && Proper(w) && Visits(added, Missing(o, w), w) && Exposed(o, w)
    ensures c <= |o| && c <= |Widened(o, w, added)| && |effective| == |Stack(o, w, added, c)|
    ensures |Foreign(UndoSome(Stack(o, w, added, c), 0, effective, DeletedTo(o, w, added, c)))| < |Foreign(o)|
  {
    var i, k :| 0 <= i < |o| && 0 <= k < |o| && Shot(o, w, i, k);
    c := Cut(o, w, i, k);
    OwnedBeforeFallback(o, c);
    var u, undos := PutBack(i, o[i]), Stack(o, w, added, c);
    effective := Adverse(undos, u);
    StoppedShape(o, w, added, c);
    Replayed(o, w, added, c, u, undos, |PutBacks(o, w, |o|)|, DeletedTo(o, w, added, c));
    InTheSlot(o, w, c, i, k);
    StackParts(o, w, added, c);
    StoppedRunLoses(o, w, c, i, undos, |PutBacks(o, w, |o|)|, DeletedTo(o, w, added, c));
  }

  lemma {:induction false} StrandedForeign(o: seq<Raw>, w: RouteTable, c: nat)
    requires Proper(w) && c <= |o|
    ensures Foreign(Stranded(o, w, c)) == Foreign(o)
  {
    var m := Repaired(o, w);
    RepairedForeign(o, w);
    KeptForeign(m[c..], w);
    FilterConcat(m[..c], Kept(m[c..], w), IsForeign);
    FilterSplit(m, c, IsForeign);
  }

  /** The run stopped at `c` loses a foreign entry to compensations that behave like this. */
  ghost predicate LostAt(o: seq<Raw>, w: RouteTable, added: seq<Route>, c: nat, effective: seq<bool>) {
    && c <= |o| && c <= |Widened(o, w, added)| && |effective| == |Stack(o, w, added, c)|
    && Foreign(UndoSome(Stack(o, w, added, c), 0, effective, DeletedTo(o, w, added, c))) != Foreign(o)
  }

  /** A partly failing rollback can lose an entry of another controller if and
      only if the snapshot and the desired routes put one in reach. */
  lemma {:induction false} LossIffExposed(o: seq<Raw>, w: RouteTable, added: seq<Route>)
    requires WellFormed(o) && Proper(w) && Visits(added, Missing(o, w), w)
    ensures (exists c, effective :: LostAt(o, w, added, c, effective)) <==> Exposed(o, w)
  {
    if Exposed(o, w) {
      var c, effective := ExposedRollbackLoses(o, w, added);
      assert LostAt(o, w, added, c, effective);
    } else {
      forall c: nat, effective ensures !LostAt(o, w, added, c, effective) {
        if c <= |o| && |effective| == |Stack(o, w, added, c)| {
          var s, undos := RunDeletes(o, w, added, c);
          UnexposedRollbackIsSafe(o, w, undos, effective, s);
        }
      }
    }
  }
}
