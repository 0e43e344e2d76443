/** When a rollback that partly fails can leave an array that is no longer
    well-formed (caddy.go:282-303, 338-341, 395-407): two entries with one owned
    identity, or an owned entry behind the fallback. Like CaddyExposure.Exposed
    the condition can be read off the snapshot and the desired routes.
 */
module CaddyFragility {
  import opened Ports
  import opened Sequences
  import opened CaddyRoutes
  import opened CaddyUndo
  import opened CaddyPlan
  import opened CaddyEdits
  import opened CaddyAdmin
  import opened CaddyExposure
  import opened CaddyRecovery
  import opened CaddyPhases

  /** Something that Reconcile does not delete stands, or will stand, behind entry `i`. */
  ghost predicate Followed(o: seq<Raw>, w: RouteTable, i: int) {
    Missing(o, w) != {} || exists k :: i < k < |o| && 0 <= k && !Orphan(o[k], w)
  }

  /** Entry `i` needs repair, and deleting the orphan `j` in front of it brings
      something else into its slot. */
  ghost predicate Doubles(o: seq<Raw>, w: RouteTable, j: int, i: int) {
    0 <= j < i < |o| && Orphan(o[j], w) && NeedsRepair(o[i], w) && Followed(o, w, i)
  }

  ghost predicate MayDouble(o: seq<Raw>, w: RouteTable) {
    exists j, i :: Doubles(o, w, j, i)
  }

  /** With every orphan deleted the fallback stands in front of the slot of the orphan `k`. */
  ghost predicate Buries(o: seq<Raw>, w: RouteTable, k: int) {
    && 0 <= k < FallbackAt(o) < |o| && Orphan(o[k], w)
    && FallbackAt(o) + |Missing(o, w)| < k + Orphans(o, w)
  }

  ghost predicate MayBury(o: seq<Raw>, w: RouteTable) {
    exists k :: Buries(o, w, k)
  }

  /** A partly failing rollback may leave an array that is not well-formed. */
  ghost predicate Fragile(o: seq<Raw>, w: RouteTable) {
    MayDouble(o, w) || MayBury(o, w)
  }

  // ------------------------------------------- where a run may be stopped

  function ReinsertAt(o: seq<Raw>, w: RouteTable, c: nat): seq<Undo>
    requires c < |o|
  {
    if Orphan(o[c], w) then [Reinsert(c, o[c])] else []
  }

  /** The compensations of the deletions from the end of the snapshot down to position `c`. */
  function Reinserts(o: seq<Raw>, w: RouteTable, c: nat): seq<Undo>
    requires c <= |o|
    decreases |o| - c
  {
    if c == |o| then []
    else Reinserts(o, w, c + 1) + ReinsertAt(o, w, c)
  }

  predicate NoReinserts(undos: seq<Undo>) {
    forall u | u in undos :: !u.Reinsert?
  }

  /** The first `n` identities are the snapshot's. */
  predicate SameFront(o: seq<Raw>, s: seq<Raw>, n: nat) {
    n <= |o| && n <= |s| && forall j :: 0 <= j < n ==> IDOf(s[j]) == IDOf(o[j])
  }

  /** The array when phase three begins. */
  ghost predicate Base(o: seq<Raw>, w: RouteTable, a: seq<Raw>) {
    && |a| == |o| + |Missing(o, w)| && SameFront(o, a, FallbackAt(o)) && WellFormed(a)
    && (forall j :: 0 <= j < |a| && Orphan(a[j], w) ==> j < FallbackAt(o) && a[j] == o[j])
    && (forall j :: 0 <= j < FallbackAt(o) && Orphan(o[j], w) ==> a[j] == o[j])
    && w.Keys <= OwnedKeys(a)
  }

  /** The deletions have come down to position `c`; the last may not have taken effect. */
  ghost predicate Sunk(o: seq<Raw>, w: RouteTable, a: seq<Raw>, c: nat, s: seq<Raw>) {
    && c <= |o| && Base(o, w, a)
    && (Sweeping(a, w, c, s) || (c < |o| && Orphan(o[c], w) && Sweeping(a, w, c + 1, s)))
  }

  ghost predicate HaltedSweep(o: seq<Raw>, w: RouteTable, s: seq<Raw>, undos: seq<Undo>, n: nat, a: seq<Raw>, c: nat) {
    && n <= |undos| && NoReinserts(undos[..n])
    && Sunk(o, w, a, c, s) && undos[n..] == Reinserts(o, w, c)
  }

  /** Where a run of Reconcile may be when it gives up: among its repairs and
      insertions, or among its deletions. */
  ghost predicate Halted(o: seq<Raw>, w: RouteTable, s: seq<Raw>, undos: seq<Undo>) {
    || (NoReinserts(undos) && SameFront(o, s, FallbackAt(o)) && FallbackLast(s))
    || (exists n: nat, a, c: nat :: HaltedSweep(o, w, s, undos, n, a, c))
  }

  // ----------------------------------------- what a safe array looks like

  /** The slot of entry `i` is still its own, or is beyond the end. */
  ghost predicate Held(o: seq<Raw>, w: RouteTable, t: seq<Raw>, i: nat) {
    SameFront(o, t, i + 1) || (|t| <= i && Missing(o, w) == {})
  }

  ghost predicate Steady(o: seq<Raw>, w: RouteTable, t: seq<Raw>) {
    UniqueOwned(t) && forall i | 0 <= i < |o| && NeedsRepair(o[i], w) :: Held(o, w, t, i)
  }

  lemma {:induction false} RepairedInFront(o: seq<Raw>, w: RouteTable, t: seq<Raw>, i: nat)
    requires FallbackLast(o) && i < |o| && NeedsRepair(o[i], w) && SameFront(o, t, FallbackAt(o))
    ensures SameFront(o, t, i + 1)
  {
    OwnedBeforeFallback(o, i);
  }

  lemma {:induction false} DeleteFallbackLast(t: seq<Raw>, k: nat)
    requires k < |t|
    ensures FallbackLast(t) ==> FallbackLast(t[..k] + t[k + 1..])
  {
    var s := t[..k] + t[k + 1..];
    forall p, q | 0 <= p < q < |s| && IsFallback(s[p]) && FallbackLast(t) ensures !IsOwned(s[q]) {
      assert s[p] == t[if p < k then p else p + 1] && s[q] == t[if q < k then q else q + 1];
    }
  }

  lemma {:induction false} SteadyTakeOut(o: seq<Raw>, w: RouteTable, t: seq<Raw>, id: LinkID)
    requires Steady(o, w, t) && Staged(o, w, TakeOut(id))
    ensures Steady(o, w, UndoEffect(TakeOut(id), t))
    ensures FallbackLast(t) ==> FallbackLast(UndoEffect(TakeOut(id), t))
  {
    var k := IndexOf(t, RouteID(id));
    if k < |t| {
      var s := t[..k] + t[k + 1..];
      RouteIDRoundTrip(id);
      DeleteUnique(t, k);
      DeleteFallbackLast(t, k);
      forall i | 0 <= i < |o| && NeedsRepair(o[i], w) ensures Held(o, w, s, i) {
        TakeOutHolds(o, w, t, id, k, i);
      }
    }
  }

  lemma {:induction false} TakeOutHolds(o: seq<Raw>, w: RouteTable, t: seq<Raw>, id: LinkID, k: nat, i: nat)
    requires Held(o, w, t, i) && Staged(o, w, TakeOut(id)) && k < |t| && IDOf(t[k]) == RouteID(id)
    ensures Held(o, w, t[..k] + t[k + 1..], i)
  {
    RouteIDRoundTrip(id);
    forall j | 0 <= j < |o| ensures IDOf(o[j]) != RouteID(id) {
      assert o[j] in o;
    }
  }

  lemma {:induction false} SteadyPutBack(o: seq<Raw>, w: RouteTable, t: seq<Raw>, i: nat)
    requires Steady(o, w, t) && i < |o| && NeedsRepair(o[i], w)
    ensures Steady(o, w, UndoEffect(PutBack(i, o[i]), t))
    ensures FallbackLast(t) ==> FallbackLast(UndoEffect(PutBack(i, o[i]), t))
  {
    assert Held(o, w, t, i);
    if i < |t| {
      var s := t[i := o[i]];
      assert forall p :: 0 <= p < |s| ==> IDOf(s[p]) == IDOf(t[p]);
      forall p, q | 0 <= p < q < |s|
        ensures IsOwned(s[p]) && IsOwned(s[q]) ==> IDOf(s[p]) != IDOf(s[q])
        ensures IsFallback(s[p]) && FallbackLast(t) ==> !IsOwned(s[q])
      {
        assert IDOf(s[p]) == IDOf(t[p]) && IDOf(s[q]) == IDOf(t[q]);
      }
      forall k | 0 <= k < |o| && NeedsRepair(o[k], w) ensures Held(o, w, s, k) {
        assert Held(o, w, t, k);
      }
    }
  }

  lemma {:induction false} SteadyUndo(o: seq<Raw>, w: RouteTable, t: seq<Raw>, u: Undo)
    requires Steady(o, w, t) && Staged(o, w, u) && !u.Reinsert?
    ensures Steady(o, w, UndoEffect(u, t))
    ensures FallbackLast(t) ==> FallbackLast(UndoEffect(u, t))
  {
    if u.PutBack? {
      SteadyPutBack(o, w, t, u.index);
    } else {
      SteadyTakeOut(o, w, t, u.id);
    }
  }

  /** Removals and repairs undone keep a steady array steady. */
  lemma {:induction false} SteadyRollback(
    o: seq<Raw>, w: RouteTable, undos: seq<Undo>, i: nat, n: nat, effective: seq<bool>, s: seq<Raw>, t: seq<Raw>)
    requires Stacked(o, w, undos) && i <= n <= |undos| && |effective| == |undos| - i
    requires NoReinserts(undos[..n]) && t == UndoSome(undos, n, effective[n - i..], s) && Steady(o, w, t)
    ensures Steady(o, w, UndoSome(undos, i, effective, s))
    ensures FallbackLast(t) ==> FallbackLast(UndoSome(undos, i, effective, s))
    decreases n - i
  {
    if i < n {
      assert effective[1..][n - (i + 1)..] == effective[n - i..];
      SteadyRollback(o, w, undos, i + 1, n, effective[1..], s, t);
      assert undos[i] in undos && undos[i] in undos[..n];
      SteadyUndo(o, w, UndoSome(undos, i + 1, effective[1..], s), undos[i]);
    } else {
      assert effective[n - i..] == effective;
    }
  }

  // -------------------------------------- the fallback stays behind the owned

  lemma {:induction false} InsertBeforeFallback(s: seq<Raw>, k: nat, x: Raw)
    requires FallbackLast(s) && k <= FallbackAt(s) && IsOwned(x)
    ensures FallbackLast(s[..k] + [x] + s[k..])
  {
    var t := s[..k] + [x] + s[k..];
    OwnedIsNotFallback(x);
    forall p, q | 0 <= p < q < |t| && IsFallback(t[p]) ensures !IsOwned(t[q]) {
      InsertedAt(s, k, x, p);
      InsertedAt(s, k, x, q);
      assert p > k && IsFallback(s[p - 1]);
    }
  }

  lemma {:induction false} OwnedUpToFallback(s: seq<Raw>)
    requires FallbackLast(s)
    ensures OwnedKeys(s[..FallbackAt(s)]) == OwnedKeys(s)
  {
    var f := FallbackAt(s);
    assert s == s[..f] + s[f..];
    OwnedKeysConcat(s[..f], s[f..]);
    forall x | x in s[f..] ensures !IsOwned(x) {
      var j :| 0 <= j < |s[f..]| && s[f..][j] == x;
      if IsOwned(s[f + j]) {
        OwnedBeforeFallback(s, f + j);
      }
    }
    assert OwnedKeys(s[f..]) == {};
  }

  /** Where the fallback stands: behind the foreign entries in front of it and every owned one. */
  lemma {:induction false} FallbackCounted(s: seq<Raw>)
    requires UniqueOwned(s) && FallbackLast(s)
    ensures FallbackAt(s) == FallbackAt(Foreign(s)) + |OwnedKeys(s)|
  {
    UniquePrefix(s, FallbackAt(s));
    Counted(s[..FallbackAt(s)], map[]);
    FallbackRank(s);
    OwnedUpToFallback(s);
  }

  lemma {:induction false} DesiredCounted(o: seq<Raw>, w: RouteTable)
    ensures |w.Keys| == |WantedKeys(o, w)| + |Missing(o, w)|
  {
    assert w.Keys == WantedKeys(o, w) + Missing(o, w);
    assert WantedKeys(o, w) !! Missing(o, w);
  }

  /** While every desired link is shown the fallback stands behind every orphan's slot. */
  lemma {:induction false} FallbackBehindSlot(o: seq<Raw>, w: RouteTable, t: seq<Raw>, k: nat)
    requires WellFormed(o) && !MayBury(o, w) && k < |o| && Orphan(o[k], w)
    requires UniqueOwned(t) && FallbackLast(t) && Foreign(t) == Foreign(o) && w.Keys <= OwnedKeys(t)
    ensures FallbackAt(o) < |o| ==> k <= FallbackAt(t)
  {
    FallbackCounted(o);
    FallbackCounted(t);
    DesiredCounted(o, w);
    Counted(o, w);
    Cardinality(w.Keys, OwnedKeys(t));
    OwnedBeforeFallback(o, k);
    assert FallbackAt(o) < |o| ==> !Buries(o, w, k);
  }

  /** Without a fallback in the snapshot there never is one. */
  lemma {:induction false} NoFallback(o: seq<Raw>, t: seq<Raw>)
    requires FallbackAt(o) == |o| && Foreign(t) == Foreign(o)
    ensures FallbackLast(t)
  {
    assert forall x :: x in o ==> !IsFallback(x);
    forall x | x in t ensures !IsFallback(x) {
      if IsFallback(x) {
        FallbackIsForeign(x);
        FilterMember(t, IsForeign, x);
        FilterMember(o, IsForeign, x);
      }
    }
  }

  lemma {:induction false} FallbackIsForeign(x: Raw)
    requires IsFallback(x)
    ensures IsForeign(x)
  {
    if IsOwned(x) {
      OwnedIsNotFallback(x);
    }
  }

  /** What the re-insertions keep. */
  ghost predicate Upright(o: seq<Raw>, w: RouteTable, t: seq<Raw>) {
    Placed(o, w, t) && Sourced(t, o, w) && FallbackLast(t) && w.Keys <= OwnedKeys(t)
  }

  lemma {:induction false} UprightReinsert(o: seq<Raw>, w: RouteTable, t: seq<Raw>, u: Undo)
    requires WellFormed(o) && Proper(w) && !MayBury(o, w) && Upright(o, w, t)
    requires Staged(o, w, u) && u.Reinsert? && u.before in o
    ensures Upright(o, w, UndoEffect(u, t))
  {
    var k := u.index;
    UndoPlaced(o, w, u, t);
    assert UndosFrom([u], o);
    SourcedUndo(u, t, o, w);
    if u.before !in t && k <= |t| {
      MoreKeys(t, k, u.before);
      if FallbackAt(o) == |o| {
        NoFallback(o, t[..k] + [u.before] + t[k..]);
      } else {
        FallbackBehindSlot(o, w, t, k);
        InsertBeforeFallback(t, k, u.before);
      }
    }
  }

  lemma {:induction false} MoreKeys(t: seq<Raw>, k: nat, x: Raw)
    requires k <= |t| && IsOwned(x)
    ensures OwnedKeys(t) <= OwnedKeys(t[..k] + [x] + t[k..])
  {
    MidKeys(t[..k], x, t[k..]);
    assert t[..k] + t[k..] == t;
  }

  /** However the re-insertions behave, no owned entry ends up behind the fallback. */
  lemma {:induction false} UprightReplay(
    o: seq<Raw>, w: RouteTable, undos: seq<Undo>, n: nat, effective: seq<bool>, s: seq<Raw>)
    requires WellFormed(o) && Proper(w) && !MayBury(o, w) && Stacked(o, w, undos) && UndosFrom(undos, o)
    requires n <= |undos| && |effective| == |undos| - n && (forall p :: n <= p < |undos| ==> undos[p].Reinsert?)
    requires Upright(o, w, s)
    ensures Upright(o, w, UndoSome(undos, n, effective, s))
    decreases |undos| - n
  {
    if n < |undos| {
      UprightReplay(o, w, undos, n + 1, effective[1..], s);
      assert undos[n] in undos;
      UprightReinsert(o, w, UndoSome(undos, n + 1, effective[1..], s), undos[n]);
    }
  }

  // ----------------------------------------------- the slots stay their own

  /** The orphans from `d` up to `i`. */
  function Left(o: seq<Raw>, w: RouteTable, d: nat, i: nat): nat
    requires i <= |o|
  {
    if d < i then Orphans(o[d..i], w) else 0
  }

  lemma {:induction false} LeftStep(o: seq<Raw>, w: RouteTable, d: nat, i: nat)
    requires d < |o| && i <= |o|
    ensures Left(o, w, d, i) == Left(o, w, d + 1, i) + if d < i && Orphan(o[d], w) then 1 else 0
  {
    if d < i {
      assert o[d..i] == [o[d]] + o[d + 1..i];
      OrphansConcat([o[d]], o[d + 1..i], w);
      assert [o[d]][..0] == [];
    }
  }

  lemma {:induction false} OrphansConcat(a: seq<Raw>, b: seq<Raw>, w: RouteTable)
    ensures Orphans(a + b, w) == Orphans(a, w) + Orphans(b, w)
  {
    if b == [] {
      assert a + b == a;
    } else {
      assert (a + b)[..|a + b| - 1] == a + b[..|b| - 1];
      OrphansConcat(a, b[..|b| - 1], w);
    }
  }

  lemma {:induction false} OneMore(o: seq<Raw>, w: RouteTable, c: nat, f: nat)
    requires c < f <= |o|
    ensures Orphans(o[c..f], w) == Orphans(o[c + 1..f], w) + if Orphan(o[c], w) then 1 else 0
  {
    assert o[c..f] == [o[c]] + o[c + 1..f];
    OrphansConcat([o[c]], o[c + 1..f], w);
    assert [o[c]][..0] == [];
  }

  /** The slot of entry `i` with the re-insertions from `d` on still to come. */
  ghost predicate Holding(o: seq<Raw>, w: RouteTable, d: nat, t: seq<Raw>, i: nat)
    requires i < |o|
  {
    SameFront(o, t, i + 1) || (Missing(o, w) == {} && !Followed(o, w, i) && |t| + Left(o, w, d, i) <= i)
  }

  /** Every re-insertion below `d` took effect, or those slots are held regardless. */
  ghost predicate Rising(o: seq<Raw>, w: RouteTable, a: seq<Raw>, d: nat, t: seq<Raw>) {
    || Sweeping(a, w, d, t)
    || (forall i | 0 <= i < |o| && NeedsRepair(o[i], w) :: Holding(o, w, d, t, i))
  }

  lemma {:induction false} OrphanStands(o: seq<Raw>, w: RouteTable, t: seq<Raw>, d: nat, n: nat)
    requires UniqueOwned(o) && Proper(w) && Sourced(t, o, w) && SameFront(o, t, n) && d < n && Orphan(o[d], w)
    ensures o[d] in t
  {
    assert t[d] in t;
    forall id | id in w ensures t[d] != Canon(w[id]) {
      CanonFacts(w[id]);
    }
    var j :| 0 <= j < |o| && o[j] == t[d];
  }

  /** One more re-insertion below the slot, or one beyond the end. */
  lemma {:induction false} HoldingReinsert(o: seq<Raw>, w: RouteTable, d: nat, t: seq<Raw>, i: nat)
    requires UniqueOwned(o) && Proper(w) && Sourced(t, o, w)
    requires d < |o| && Orphan(o[d], w) && i < |o| && NeedsRepair(o[i], w) && Holding(o, w, d, t, i)
    ensures Holding(o, w, d + 1, UndoEffect(Reinsert(d, o[d]), t), i)
    ensures Holding(o, w, d + 1, t, i)
  {
    LeftStep(o, w, d, i);
    if SameFront(o, t, i + 1) {
      if d < i {
        OrphanStands(o, w, t, d, i + 1);
      }
    }
  }

  /** The first re-insertion that does not take effect: everything behind it has come forward. */
  lemma {:induction false} HoldingLost(o: seq<Raw>, w: RouteTable, a: seq<Raw>, d: nat, t: seq<Raw>, i: nat)
    requires WellFormed(o) && !MayDouble(o, w) && Base(o, w, a) && d < |o| && Orphan(o[d], w) && Sweeping(a, w, d, t)
    requires i < |o| && NeedsRepair(o[i], w)
    ensures Holding(o, w, d + 1, t, i)
  {
    OwnedBeforeFallback(o, i);
    if d < i {
      assert !Doubles(o, w, d, i);
      LostLength(o, w, a, d, t, i);
    } else {
      SweptFront(o, w, a, d, t, i);
    }
  }

  lemma {:induction false} SweptFront(o: seq<Raw>, w: RouteTable, a: seq<Raw>, d: nat, t: seq<Raw>, i: nat)
    requires i < d <= |t| && Sweeping(a, w, d, t) && SameFront(o, a, FallbackAt(o)) && i < FallbackAt(o)
    ensures SameFront(o, t, i + 1)
  {
    assert forall j :: 0 <= j < d ==> t[j] == a[j];
  }

  lemma {:induction false} LostLength(o: seq<Raw>, w: RouteTable, a: seq<Raw>, d: nat, t: seq<Raw>, i: nat)
    requires WellFormed(o) && Base(o, w, a) && d < i < |o| && Orphan(o[d], w) && Sweeping(a, w, d, t)
    requires NeedsRepair(o[i], w) && !Followed(o, w, i)
    ensures |t| + Left(o, w, d + 1, i) == i
  {
    KeptLength(a[d..], w);
    BaseOrphans(o, w, a, d);
    LeftStep(o, w, d, i);
    OrphansBehind(o, w, d, i);
  }

  lemma {:induction false} OrphansParts(a: seq<Raw>, x: Raw, b: seq<Raw>, w: RouteTable)
    requires !Orphan(x, w)
    ensures Orphans(a + [x] + b, w) == Orphans(a, w) + Orphans(b, w)
  {
    OrphansConcat(a + [x], b, w);
    assert (a + [x])[..|a|] == a;
  }

  lemma {:induction false} OrphansBehind(o: seq<Raw>, w: RouteTable, d: nat, i: nat)
    requires d <= i < |o| && !Orphan(o[i], w) && forall k :: i < k < |o| ==> Orphan(o[k], w)
    ensures Orphans(o[d..], w) == Left(o, w, d, i) + |o| - i - 1
  {
    AllOrphans(o[i + 1..], w);
    OrphansParts(o[d..i], o[i], o[i + 1..], w);
    SliceParts(o, d, i);
  }

  lemma {:induction false} AllOrphans(s: seq<Raw>, w: RouteTable)
    requires forall i :: 0 <= i < |s| ==> Orphan(s[i], w)
    ensures Orphans(s, w) == |s|
  {
    if s != [] {
      AllOrphans(s[..|s| - 1], w);
    }
  }

  lemma {:induction false} KeptLength(s: seq<Raw>, w: RouteTable)
    ensures |Kept(s, w)| == |s| - Orphans(s, w)
  {
    if s != [] {
      var n := |s| - 1;
      KeptLength(s[..n], w);
      assert s == s[..n] + [s[n]] + [];
      FilterMid(s[..n], s[n], [], Keeps(w));
    }
  }

  lemma {:induction false} SameOrphans(s: seq<Raw>, t: seq<Raw>, w: RouteTable)
    requires |s| == |t| && forall i :: 0 <= i < |s| ==> (Orphan(s[i], w) <==> Orphan(t[i], w))
    ensures Orphans(s, w) == Orphans(t, w)
  {
    if s != [] {
      SameOrphans(s[..|s| - 1], t[..|t| - 1], w);
    }
  }

  lemma {:induction false} BaseOrphan(o: seq<Raw>, w: RouteTable, a: seq<Raw>, i: nat)
    requires FallbackLast(o) && Base(o, w, a) && Missing(o, w) == {} && i < |o|
    ensures Orphan(a[i], w) <==> Orphan(o[i], w)
  {
    if Orphan(o[i], w) {
      OwnedBeforeFallback(o, i);
    }
  }

  lemma {:induction false} BaseOrphans(o: seq<Raw>, w: RouteTable, a: seq<Raw>, d: nat)
    requires FallbackLast(o) && Base(o, w, a) && Missing(o, w) == {} && d <= |o|
    ensures |a| == |o| && Orphans(a[d..], w) == Orphans(o[d..], w)
  {
    forall i | 0 <= i < |o| - d ensures Orphan(a[d..][i], w) <==> Orphan(o[d..][i], w) {
      BaseOrphan(o, w, a, d + i);
    }
    SameOrphans(a[d..], o[d..], w);
  }

  lemma {:induction false} SweepUp(a: seq<Raw>, w: RouteTable, d: nat, t: seq<Raw>)
    requires d < |a| && Sweeping(a, w, d, t) && !Orphan(a[d], w)
    ensures Sweeping(a, w, d + 1, t)
  {
    assert a[d..][1..] == a[d + 1..] && a[d..][0] == a[d];
    assert a[..d + 1] == a[..d] + [a[d]];
  }

  lemma {:induction false} SweepRestored(a: seq<Raw>, w: RouteTable, d: nat, t: seq<Raw>)
    requires UniqueOwned(a) && d < |a| && Sweeping(a, w, d, t) && Orphan(a[d], w)
    ensures Sweeping(a, w, d + 1, UndoEffect(Reinsert(d, a[d]), t))
  {
    var back := Kept(a[d + 1..], w);
    SliceStep(a, d, |a|);
    KeptStep(a[d], a[d + 1..], w);
    assert a[d..] == a[d..|a|] && a[d + 1..] == a[d + 1..|a|];
    OwnedOnce(a, d);
    FilterMember(a[d + 1..], Keeps(w), a[d]);
    PutBetween(a[..d], a[d], back);
  }

  lemma {:induction false} SweptBack(o: seq<Raw>, w: RouteTable, a: seq<Raw>, d: nat, t: seq<Raw>)
    requires Base(o, w, a) && d < FallbackAt(o) && Orphan(o[d], w) && Sweeping(a, w, d, t)
    ensures Sweeping(a, w, d + 1, UndoEffect(Reinsert(d, o[d]), t))
  {
    SweepRestored(a, w, d, t);
  }

  lemma {:induction false} SweptOn(o: seq<Raw>, w: RouteTable, a: seq<Raw>, d: nat, t: seq<Raw>)
    requires Base(o, w, a) && d < |o| && !Orphan(o[d], w) && Sweeping(a, w, d, t)
    ensures Sweeping(a, w, d + 1, t)
  {
    SweepUp(a, w, d, t);
  }

  /** One position further up, whether or not its re-insertion took effect. */
  lemma {:induction false} RisingStep(o: seq<Raw>, w: RouteTable, a: seq<Raw>, d: nat, t: seq<Raw>)
    requires WellFormed(o) && Proper(w) && !MayDouble(o, w) && Base(o, w, a) && d < |o|
    requires Sourced(t, o, w) && Rising(o, w, a, d, t)
    ensures Orphan(o[d], w) ==> Rising(o, w, a, d + 1, UndoEffect(Reinsert(d, o[d]), t))
    ensures Rising(o, w, a, d + 1, t)
  {
    if Sweeping(a, w, d, t) {
      SweepingStep(o, w, a, d, t);
    } else {
      forall i | 0 <= i < |o| && NeedsRepair(o[i], w)
        ensures Orphan(o[d], w) ==> Holding(o, w, d + 1, UndoEffect(Reinsert(d, o[d]), t), i)
        ensures Holding(o, w, d + 1, t, i)
      {
        LeftStep(o, w, d, i);
        if Orphan(o[d], w) {
          HoldingReinsert(o, w, d, t, i);
        }
      }
    }
  }

  lemma {:induction false} SweepingStep(o: seq<Raw>, w: RouteTable, a: seq<Raw>, d: nat, t: seq<Raw>)
    requires WellFormed(o) && !MayDouble(o, w) && Base(o, w, a) && d < |o| && Sweeping(a, w, d, t)
    ensures Orphan(o[d], w) ==> Rising(o, w, a, d + 1, UndoEffect(Reinsert(d, o[d]), t))
    ensures Rising(o, w, a, d + 1, t)
  {
    if Orphan(o[d], w) {
      OwnedBeforeFallback(o, d);
      SweptBack(o, w, a, d, t);
      forall i | 0 <= i < |o| && NeedsRepair(o[i], w) ensures Holding(o, w, d + 1, t, i) {
        HoldingLost(o, w, a, d, t, i);
      }
    } else {
      SweptOn(o, w, a, d, t);
    }
  }

  /** A stack replayed from the top, on its own. */
  function Replay(undos: seq<Undo>, effective: seq<bool>, s: seq<Raw>): seq<Raw>
    requires |effective| == |undos|
  {
    if undos == [] then s
    else
      var top := |undos| - 1;
      Replay(undos[..top], effective[..top], if effective[top] then UndoEffect(undos[top], s) else s)
  }

  lemma {:induction false} ReplayBottom(undos: seq<Undo>, effective: seq<bool>, s: seq<Raw>)
    requires |effective| == |undos| > 0
    ensures var t := Replay(undos[1..], effective[1..], s);
      Replay(undos, effective, s) == if effective[0] then UndoEffect(undos[0], t) else t
  {
    var top := |undos| - 1;
    if top > 0 {
      var t := if effective[top] then UndoEffect(undos[top], s) else s;
      ReplayBottom(undos[..top], effective[..top], t);
      assert undos[..top][1..] == undos[1..][..top - 1] && effective[..top][1..] == effective[1..][..top - 1];
    }
  }

  lemma {:induction false} SomeIsReplay(undos: seq<Undo>, n: nat, effective: seq<bool>, s: seq<Raw>)
    requires n <= |undos| && |effective| == |undos| - n
    ensures UndoSome(undos, n, effective, s) == Replay(undos[n..], effective, s)
    decreases |undos| - n
  {
    if n < |undos| {
      SomeIsReplay(undos, n + 1, effective[1..], s);
      ReplayBottom(undos[n..], effective, s);
      assert undos[n..][1..] == undos[n + 1..];
    }
  }

  lemma {:induction false} ReplayTop(o: seq<Raw>, w: RouteTable, c: nat, effective: seq<bool>, s: seq<Raw>)
    requires c < |o| && Orphan(o[c], w) && |effective| == |Reinserts(o, w, c)|
    ensures |effective| == |Reinserts(o, w, c + 1)| + 1
    ensures var top := |effective| - 1;
      Replay(Reinserts(o, w, c), effective, s)
      == Replay(Reinserts(o, w, c + 1), effective[..top], if effective[top] then UndoEffect(Reinsert(c, o[c]), s) else s)
  {
    var r := Reinserts(o, w, c);
    assert r[..|r| - 1] == Reinserts(o, w, c + 1) && r[|r| - 1] == Reinsert(c, o[c]);
  }

  lemma {:induction false} NoReinsertAt(o: seq<Raw>, w: RouteTable, c: nat)
    requires c < |o| && !Orphan(o[c], w)
    ensures Reinserts(o, w, c) == Reinserts(o, w, c + 1)
  {
  }

  lemma {:induction false} ReplayNone(o: seq<Raw>, w: RouteTable, effective: seq<bool>, s: seq<Raw>)
    requires |effective| == |Reinserts(o, w, |o|)|
    ensures Replay(Reinserts(o, w, |o|), effective, s) == s
  {
  }

  lemma {:induction false} RisingTop(o: seq<Raw>, w: RouteTable, a: seq<Raw>, c: nat, took: bool, s: seq<Raw>)
    returns (t: seq<Raw>)
    requires WellFormed(o) && Proper(w) && !MayDouble(o, w) && Base(o, w, a) && c < |o| && Orphan(o[c], w)
    requires Sourced(s, o, w) && Rising(o, w, a, c, s)
    ensures t == if took then UndoEffect(Reinsert(c, o[c]), s) else s
    ensures Sourced(t, o, w) && Rising(o, w, a, c + 1, t)
  {
    t := if took then UndoEffect(Reinsert(c, o[c]), s) else s;
    RisingStep(o, w, a, c, s);
    SourcedUndo(Reinsert(c, o[c]), s, o, w);
  }

  /** However the re-insertions from `c` on behave. */
  lemma {:induction false} RisingReplay(
    o: seq<Raw>, w: RouteTable, a: seq<Raw>, c: nat, effective: seq<bool>, s: seq<Raw>)
    requires WellFormed(o) && Proper(w) && !MayDouble(o, w) && Base(o, w, a) && c <= |o|
    requires |effective| == |Reinserts(o, w, c)| && Sourced(s, o, w) && Rising(o, w, a, c, s)
    ensures Rising(o, w, a, |o|, Replay(Reinserts(o, w, c), effective, s))
    decreases |o| - c
  {
    if c == |o| {
      ReplayNone(o, w, effective, s);
    } else if Orphan(o[c], w) {
      var top := |effective| - 1;
      ReplayTop(o, w, c, effective, s);
      var t := RisingTop(o, w, a, c, effective[top], s);
      RisingReplay(o, w, a, c + 1, effective[..top], t);
    } else {
      RisingStep(o, w, a, c, s);
      NoReinsertAt(o, w, c);
      RisingReplay(o, w, a, c + 1, effective, s);
    }
  }

  /** A deletion that did not take effect needs no re-insertion. */
  lemma {:induction false} SweptTop(a: seq<Raw>, w: RouteTable, c: nat, s: seq<Raw>)
    requires c < |a| && Sweeping(a, w, c + 1, s)
    ensures UndoEffect(Reinsert(c, a[c]), s) == s
  {
    assert s[c] == a[c];
  }

  /** The array once the re-insertions have been replayed, however they behaved. */
  lemma {:induction false} RisenAfterReinserts(
    o: seq<Raw>, w: RouteTable, a: seq<Raw>, c: nat, effective: seq<bool>, s: seq<Raw>)
    requires WellFormed(o) && Proper(w) && !MayDouble(o, w) && Sunk(o, w, a, c, s)
    requires |effective| == |Reinserts(o, w, c)| && Sourced(s, o, w)
    ensures Rising(o, w, a, |o|, Replay(Reinserts(o, w, c), effective, s))
  {
    if Sweeping(a, w, c, s) {
      RisingReplay(o, w, a, c, effective, s);
    } else {
      OwnedBeforeFallback(o, c);
      SweptTop(a, w, c, s);
      ReplayTop(o, w, c, effective, s);
      RisingReplay(o, w, a, c + 1, effective[..|effective| - 1], s);
    }
  }

  /** Then every repaired entry's slot is held. */
  lemma {:induction false} RisenHolds(o: seq<Raw>, w: RouteTable, a: seq<Raw>, t: seq<Raw>, i: nat)
    requires WellFormed(o) && Base(o, w, a) && Rising(o, w, a, |o|, t) && i < |o| && NeedsRepair(o[i], w)
    ensures Held(o, w, t, i)
  {
    if Sweeping(a, w, |o|, t) {
      OwnedBeforeFallback(o, i);
      assert forall j :: 0 <= j < |o| ==> t[j] == a[j];
    }
  }

  // ------------------------------------------------------------- main result

  lemma {:induction false} StillThere(a: seq<Raw>, w: RouteTable, c: nat, s: seq<Raw>, x: Raw)
    requires Sweeping(a, w, c, s) && x in a && !Orphan(x, w)
    ensures x in s
  {
    FilterMember(a[c..], Keeps(w), x);
    var j :| 0 <= j < |a| && a[j] == x;
    if j < c {
      assert s[j] == x;
    } else {
      assert a[c..][j - c] == x;
    }
  }

  lemma {:induction false} BaseShows(a: seq<Raw>, w: RouteTable, c: nat, s: seq<Raw>)
    requires Sweeping(a, w, c, s) && w.Keys <= OwnedKeys(a)
    ensures w.Keys <= OwnedKeys(s)
  {
    forall id | id in w ensures id in OwnedKeys(s) {
      var x :| x in a && IsOwned(x) && Key(x) == id;
      StillThere(a, w, c, s, x);
    }
  }

  lemma {:induction false} SweptFallbackLast(a: seq<Raw>, w: RouteTable, c: nat, s: seq<Raw>)
    requires Sweeping(a, w, c, s) && FallbackLast(a)
    ensures FallbackLast(s)
  {
    forall i, j | 0 <= i < j < |s| && IsFallback(s[i]) ensures !IsOwned(s[j]) {
      if c <= i {
        var i', j' := FilterOrder(a[c..], Keeps(w), i - c, j - c);
      } else if c <= j {
        FilterMember(a[c..], Keeps(w), s[j]);
      }
    }
  }

  lemma {:induction false} SunkUpright(o: seq<Raw>, w: RouteTable, a: seq<Raw>, c: nat, s: seq<Raw>)
    requires Sunk(o, w, a, c, s) && Placed(o, w, s) && Sourced(s, o, w)
    ensures Upright(o, w, s)
  {
    var d := if Sweeping(a, w, c, s) then c else c + 1;
    BaseShows(a, w, d, s);
    SweptFallbackLast(a, w, d, s);
  }

  lemma {:induction false} AllReinserts(o: seq<Raw>, w: RouteTable, c: nat)
    requires c <= |o|
    ensures forall u | u in Reinserts(o, w, c) :: u.Reinsert?
    decreases |o| - c
  {
    if c < |o| {
      AllReinserts(o, w, c + 1);
    }
  }

  lemma {:induction false} OnlyReinsertsFrom(o: seq<Raw>, w: RouteTable, undos: seq<Undo>, n: nat, c: nat)
    requires n <= |undos| && c <= |o| && undos[n..] == Reinserts(o, w, c)
    ensures forall p :: n <= p < |undos| ==> undos[p].Reinsert?
  {
    AllReinserts(o, w, c);
    forall p | n <= p < |undos| ensures undos[p].Reinsert? {
      assert undos[p] == undos[n..][p - n];
    }
  }

  lemma {:induction false} SweepSteady(
    o: seq<Raw>, w: RouteTable, undos: seq<Undo>, n: nat, a: seq<Raw>, c: nat, effective: seq<bool>, s: seq<Raw>)
    requires WellFormed(o) && Proper(w) && !MayDouble(o, w) && Stacked(o, w, undos) && UndosFrom(undos, o)
    requires HaltedSweep(o, w, s, undos, n, a, c) && Placed(o, w, s) && Sourced(s, o, w) && |effective| == |undos| - n
    ensures Steady(o, w, UndoSome(undos, n, effective, s))
    ensures !MayBury(o, w) ==> FallbackLast(UndoSome(undos, n, effective, s))
  {
    SomeIsReplay(undos, n, effective, s);
    RisenAfterReinserts(o, w, a, c, effective, s);
    OnlyReinsertsFrom(o, w, undos, n, c);
    RollbackPlaced(o, w, undos, n, effective, s);
    if !MayBury(o, w) {
      SunkUpright(o, w, a, c, s);
      UprightReplay(o, w, undos, n, effective, s);
    }
    forall i | 0 <= i < |o| && NeedsRepair(o[i], w) ensures Held(o, w, UndoSome(undos, n, effective, s), i) {
      RisenHolds(o, w, a, UndoSome(undos, n, effective, s), i);
    }
  }

  /** Unless an entry may be doubled no rollback doubles one, however its
      compensations behave; unless one may be buried none is put behind the fallback. */
  lemma {:induction false} SturdyRollback(
    o: seq<Raw>, w: RouteTable, undos: seq<Undo>, effective: seq<bool>, s: seq<Raw>)
    requires WellFormed(o) && Proper(w) && !MayDouble(o, w) && Stacked(o, w, undos) && UndosFrom(undos, o)
    requires Halted(o, w, s, undos) && Placed(o, w, s) && Sourced(s, o, w) && |effective| == |undos|
    ensures UniqueOwned(UndoSome(undos, 0, effective, s))
    ensures !MayBury(o, w) ==> FallbackLast(UndoSome(undos, 0, effective, s))
  {
    if NoReinserts(undos) && SameFront(o, s, FallbackAt(o)) && FallbackLast(s) {
      forall i | 0 <= i < |o| && NeedsRepair(o[i], w) ensures Held(o, w, s, i) {
        RepairedInFront(o, w, s, i);
      }
      assert undos[..|undos|] == undos && effective[|undos|..] == [];
      SteadyRollback(o, w, undos, 0, |undos|, effective, s, s);
    } else {
      var n: nat, a, c: nat :| HaltedSweep(o, w, s, undos, n, a, c);
      SweepSteady(o, w, undos, n, a, c, effective[n..], s);
      SteadyRollback(o, w, undos, 0, n, effective, s, UndoSome(undos, n, effective[n..], s));
    }
  }

  // ------------------------------------------- every stop is one of these

  lemma {:induction false} RepairsHalt(o: seq<Raw>, w: RouteTable, s: seq<Raw>, undos: seq<Undo>)
    requires WellFormed(o) && SameIDs(s, o) && OnlyPutBacks(undos)
    ensures Halted(o, w, s, undos)
  {
    forall i, j | 0 <= i < j < |s| && IsFallback(s[i]) ensures !IsOwned(s[j]) {
      assert IDOf(s[i]) == IDOf(o[i]) && IDOf(s[j]) == IDOf(o[j]);
    }
  }

  lemma {:induction false} InsertsHalt(
    o: seq<Raw>, w: RouteTable, m: seq<Raw>, remaining: set<LinkID>, added: seq<Route>, s: seq<Raw>, undos: seq<Undo>)
    requires WellFormed(o) && Proper(w) && Inserting(o, w, m, remaining, added, s) && NoReinserts(undos)
    ensures Halted(o, w, s, undos)
  {
    InsertingShape(o, w, m, remaining, added, s);
  }

  lemma {:induction false} InsertingShape(
    o: seq<Raw>, w: RouteTable, m: seq<Raw>, remaining: set<LinkID>, added: seq<Route>, s: seq<Raw>)
    requires FallbackLast(o) && Proper(w) && Inserting(o, w, m, remaining, added, s)
    ensures SameFront(o, s, FallbackAt(o)) && FallbackLast(s)
  {
    var f := FallbackAt(o);
    InsertingFallback(o, w, m, remaining, added, s);
    forall j | f + |added| <= j < |s| ensures !IsOwned(s[j]) {
      InsertingTail(o, w, m, remaining, added, s, j);
    }
  }

  lemma {:induction false} InsertingTail(
    o: seq<Raw>, w: RouteTable, m: seq<Raw>, remaining: set<LinkID>, added: seq<Route>, s: seq<Raw>, j: nat)
    requires FallbackLast(o) && Inserting(o, w, m, remaining, added, s) && FallbackAt(o) + |added| <= j < |s|
    ensures !IsOwned(s[j])
  {
    assert IDOf(s[j]) == IDOf(o[j - |added|]);
    if IsOwned(o[j - |added|]) {
      OwnedBeforeFallback(o, j - |added|);
    }
  }

  lemma {:induction false} BaseEntry(o: seq<Raw>, w: RouteTable, added: seq<Route>, j: nat)
    requires WellFormed(o) && Proper(w) && Visits(added, Missing(o, w), w) && j < |o| + |added|
    requires Orphan(Widened(o, w, added)[j], w)
    ensures j < FallbackAt(o) && Widened(o, w, added)[j] == o[j]
  {
    SweptEntry(o, w, added, j);
    OwnedBeforeFallback(o, j);
  }

  /** Phase three begins with such an array. */
  lemma {:induction false} BaseWidened(o: seq<Raw>, w: RouteTable, added: seq<Route>)
    requires WellFormed(o) && Proper(w) && Visits(added, Missing(o, w), w)
    ensures Base(o, w, Widened(o, w, added))
  {
    var a, f := Widened(o, w, added), FallbackAt(o);
    VisitCount(added, Missing(o, w), w);
    WidenedWellFormed(o, w, added);
    forall j | 0 <= j < f ensures IDOf(a[j]) == IDOf(o[j]) && (Orphan(o[j], w) ==> a[j] == o[j]) {
      WidenedIDs(o, w, added, j);
      WidenedAt(o, w, added, j);
    }
    forall j | 0 <= j < |a| && Orphan(a[j], w) ensures j < f && a[j] == o[j] {
      BaseEntry(o, w, added, j);
    }
    forall id | id in w ensures id in OwnedKeys(a) {
      var j := WidenedHolds(o, w, added, id);
      assert a[j] in a;
    }
  }

  lemma {:induction false} SweepHalts(
    o: seq<Raw>, w: RouteTable, added: seq<Route>, c: nat, s: seq<Raw>, first: seq<Undo>, undos: seq<Undo>)
    requires WellFormed(o) && Proper(w) && Visits(added, Missing(o, w), w) && NoReinserts(first) && c <= |o|
    requires undos == first + Reinserts(o, w, c)
    requires var a := Widened(o, w, added);
      Sweeping(a, w, c, s) || (c < |o| && Orphan(o[c], w) && Sweeping(a, w, c + 1, s))
    ensures Halted(o, w, s, undos)
  {
    var a, n := Widened(o, w, added), |first|;
    BaseWidened(o, w, added);
    assert undos[..n] == first && undos[n..] == Reinserts(o, w, c);
    assert HaltedSweep(o, w, s, undos, n, a, c);
  }

  lemma {:induction false} SourcedParsed(s: seq<Raw>, o: seq<Raw>, w: RouteTable)
    requires AllParsed(o) && Sourced(s, o, w)
    ensures AllParsed(s)
  {
    forall i | 0 <= i < |s| ensures s[i].Object? {
      assert s[i] in s;
    }
  }

  /** An insertion failed, whether or not it took effect. */
  lemma {:induction false} GivesUpInserting(
    o: seq<Raw>, w: RouteTable, m: seq<Raw>, remaining: set<LinkID>, added: seq<Route>, before: seq<Raw>, id: LinkID,
    s: seq<Raw>, undos: seq<Undo>)
    requires WellFormed(o) && Proper(w) && Inserting(o, w, m, remaining, added, before) && id in remaining
    requires s == before || s == Apply(before, Post(FallbackAt(before), Canon(w[id])))
    requires NoReinserts(undos)
    ensures Halted(o, w, s, undos)
  {
    if s == before {
      InsertsHalt(o, w, m, remaining, added, s, undos);
    } else {
      InsertStep(o, w, m, remaining, added, before, id);
      InsertsHalt(o, w, m, remaining - {id}, added + [w[id]], s, undos);
    }
  }

  /** What one position of the deleting loop needs on a well-formed snapshot. */
  lemma {:induction false} SweepOne(o: seq<Raw>, w: RouteTable, added: seq<Route>, i: nat, s: seq<Raw>)
    requires WellFormed(o) && Proper(w) && Visits(added, Missing(o, w), w) && i < |o| <= |Widened(o, w, added)|
    requires Clearing(Widened(o, w, added), w, |o|, i + 1, s)
    ensures Orphan(Widened(o, w, added)[i], w) <==> Orphan(o[i], w)
    ensures Orphan(o[i], w) ==> Prepared(true, o, w, s, Reinsert(i, o[i]), Del(i))
    ensures Reinserts(o, w, i) == Reinserts(o, w, i + 1) + ReinsertAt(o, w, i)
  {
    ClearingSweeps(o, w, added, i + 1, s);
    WidenedWellFormed(o, w, added);
    OrphanAt(o, w, added, i);
    if Orphan(o[i], w) {
      SweepPrepared(o, w, added, Widened(o, w, added), i, s);
    }
  }

  lemma {:induction false} OrphanAt(o: seq<Raw>, w: RouteTable, added: seq<Route>, i: nat)
    requires WellFormed(o) && Proper(w) && Visits(added, Missing(o, w), w) && i < |o|
    ensures Orphan(Widened(o, w, added)[i], w) <==> Orphan(o[i], w)
  {
    BaseWidened(o, w, added);
    if Orphan(o[i], w) {
      OwnedBeforeFallback(o, i);
    }
  }

  /** A deletion failed, whether or not it took effect. */
  lemma {:induction false} GivesUpSweeping(
    o: seq<Raw>, w: RouteTable, added: seq<Route>, i: nat, before: seq<Raw>, s: seq<Raw>, first: seq<Undo>, undos: seq<Undo>)
    requires WellFormed(o) && Proper(w) && Visits(added, Missing(o, w), w) && i < |o| <= |Widened(o, w, added)|
    requires Orphan(o[i], w) && Clearing(Widened(o, w, added), w, |o|, i + 1, before)
    requires s == before || (i < |before| && s == Apply(before, Del(i)))
    requires NoReinserts(first) && undos == first + Reinserts(o, w, i)
    ensures Halted(o, w, s, undos)
  {
    ClearStep(Widened(o, w, added), w, |o|, i, before);
    OrphanAt(o, w, added, i);
    ClearingSweeps(o, w, added, if s == before then i + 1 else i, s);
    SweepHalts(o, w, added, i, s, first, undos);
  }

  /** The deleting loop has come down to position `i`. */
  ghost predicate Deleting(
    o: seq<Raw>, w: RouteTable, added: seq<Route>, first: seq<Undo>, i: nat, s: seq<Raw>, undos: seq<Undo>)
  {
    && i <= |o| <= |Stretched(o, w, added)| && Clearing(Stretched(o, w, added), w, |o|, i, s)
    && Recoverable(WellFormed(o), o, w, s, undos)
    && (WellFormed(o) ==> undos == first + Reinserts(o, w, i))
  }

  lemma {:induction false} DeletingStart(
    o: seq<Raw>, w: RouteTable, added: seq<Route>, s: seq<Raw>, undos: seq<Undo>)
    requires s == Stretched(o, w, added) && |o| <= |s| && Recoverable(WellFormed(o), o, w, s, undos)
    ensures Deleting(o, w, added, undos, |o|, s, undos)
  {
    ClearStart(s, w, |o|);
  }

  /** Before a position of the deleting loop. */
  lemma {:induction false} DeleteReady(o: seq<Raw>, w: RouteTable, added: seq<Route>, i: nat, s: seq<Raw>)
    requires Proper(w) && Visits(added, Missing(o, w), w) && i < |o| <= |Stretched(o, w, added)|
    requires Clearing(Stretched(o, w, added), w, |o|, i + 1, s)
    ensures Orphan(Stretched(o, w, added)[i], w) ==> Prepared(WellFormed(o), o, w, s, Reinsert(i, o[i]), Del(i))
    ensures !Orphan(Stretched(o, w, added)[i], w) ==> Clearing(Stretched(o, w, added), w, |o|, i, s)
    ensures WellFormed(o) && !Orphan(Stretched(o, w, added)[i], w) ==> Reinserts(o, w, i) == Reinserts(o, w, i + 1)
  {
    ClearStep(Stretched(o, w, added), w, |o|, i, s);
    if WellFormed(o) {
      ClearedWellFormed(o, w, added);
      SweepOne(o, w, added, i, s);
    } else {
      assert Reinsert(i, o[i]) in [Reinsert(i, o[i])];
      assert o[i] in o;
    }
  }

  /** After a deletion that was answered or not, applied or not. */
  lemma {:induction false} DeleteAnswered(
    o: seq<Raw>, w: RouteTable, added: seq<Route>, i: nat, before: seq<Raw>, ok: bool, s: seq<Raw>,
    first: seq<Undo>, undos: seq<Undo>)
    requires Proper(w) && Visits(added, Missing(o, w), w) && i < |o| <= |Stretched(o, w, added)|
    requires Clearing(Stretched(o, w, added), w, |o|, i + 1, before) && Orphan(Stretched(o, w, added)[i], w)
    requires i < |before| && (s == Apply(before, Del(i)) || (!ok && s == before))
    requires NoReinserts(first) && (WellFormed(o) ==> undos == first + Reinserts(o, w, i + 1))
    ensures ok ==> Clearing(Stretched(o, w, added), w, |o|, i, s)
    ensures WellFormed(o) ==> undos + [Reinsert(i, o[i])] == first + Reinserts(o, w, i)
    ensures WellFormed(o) ==> Halted(o, w, s, undos + [Reinsert(i, o[i])])
  {
    ClearStep(Stretched(o, w, added), w, |o|, i, before);
    if WellFormed(o) {
      ClearedWellFormed(o, w, added);
      SweepOne(o, w, added, i, before);
      assert undos + [Reinsert(i, o[i])] == first + (Reinserts(o, w, i + 1) + [Reinsert(i, o[i])]);
      GivesUpSweeping(o, w, added, i, before, s, first, undos + [Reinsert(i, o[i])]);
    }
  }

  /** What is left of the snapshot after a rollback, however its compensations behave. */
  lemma {:induction false} RollbackWorth(
    exact: bool, o: seq<Raw>, w: RouteTable, undos: seq<Undo>, effective: seq<bool>, s: seq<Raw>)
    requires Recoverable(exact, o, w, s, undos) && Proper(w) && |effective| == |undos|
    requires WellFormed(o) ==> Halted(o, w, s, undos)
    ensures var t := UndoSome(undos, 0, effective, s);
      && Sourced(t, o, w)
      && (WellFormed(o) && !Exposed(o, w) ==> Foreign(t) == Foreign(o))
      && (WellFormed(o) && !MayDouble(o, w) ==> UniqueOwned(t))
      && (WellFormed(o) && !Fragile(o, w) ==> WellFormed(t))
  {
    SourcedRollback(undos, 0, effective, s, o, w);
    if WellFormed(o) {
      SourcedParsed(UndoSome(undos, 0, effective, s), o, w);
      if !Exposed(o, w) {
        UnexposedRollbackIsSafe(o, w, undos, effective, s);
      }
      if !MayDouble(o, w) {
        SturdyRollback(o, w, undos, effective, s);
      }
    }
  }

  /** What the answer of a Reconcile of a well-formed array is worth: its meaning
      on the table of owned routes, the exact array on success, the shape on every
      answer but the report of an unrestored array, and on that report whatever the
      snapshot was not exposed or fragile for. */
  ghost predicate Worth(
    o: seq<Raw>, desired: seq<Route>, w: RouteTable, added: seq<Route>, err: Option<ProxyError>, t: seq<Raw>)
  {
    && ReconcileOutcome(View(o), desired, err, View(t))
    && (err.None? ==> t == Reconciled(o, w, added))
    && (err.None? || !Unrestored(err.value) ==> KeepsShape(o, t))
    && (!Exposed(o, w) ==> Foreign(t) == Foreign(o))
    && (!MayDouble(o, w) ==> UniqueOwned(t))
    && (!Fragile(o, w) ==> WellFormed(t))
  }

  lemma {:induction false} Judge(
    o: seq<Raw>, desired: seq<Route>, w: RouteTable, added: seq<Route>, err: Option<ProxyError>, t: seq<Raw>)
    requires WellFormed(o) && Proper(w) && Tabulates(w, desired) && Sourced(t, o, w)
    requires err.None? ==> Visits(added, Missing(o, w), w) && t == Cleared(o, w, added)
    requires err.Some? && !Unrestored(err.value) ==> t == o
    requires err.Some? && Unrestored(err.value) ==>
      && (!Exposed(o, w) ==> Foreign(t) == Foreign(o))
      && (!MayDouble(o, w) ==> UniqueOwned(t))
      && (!Fragile(o, w) ==> WellFormed(t))
    ensures Worth(o, desired, w, added, err, t)
  {
    if err.None? {
      ClearedWellFormed(o, w, added);
    }
    ReconcileMeets(o, desired, w, added, err, t);
  }

  /** A read that failed. */
  lemma {:induction false} KeptAsItWas(o: seq<Raw>, desired: seq<Route>, w: RouteTable, e: ProxyError)
    requires Proper(w) && Tabulates(w, desired) && Transport(e)
    ensures Sourced(o, o, w)
    ensures WellFormed(o) ==> Worth(o, desired, w, [], Some(e), o)
  {
    if WellFormed(o) {
      Judge(o, desired, w, [], Some(e), o);
    }
  }
}
