/** The converse of CaddyFragility, after the fashion of CaddyLoss: on a fragile
    snapshot one run leaves an array that is not well-formed. It writes everything
    successfully, is stopped in the middle of its deletions, and one compensation
    takes effect. What such an array is good for afterwards is shown at two inputs.
 */
module CaddyBreak {
  import opened Ports
  import opened Sequences
  import opened CaddyRoutes
  import opened CaddyUndo
  import opened CaddyPlan
  import opened CaddyExposure
  import opened CaddyPhases
  import opened CaddyRecovery
  import opened CaddyFragility
  import opened CaddyLoss

  // ------------------------------------------- one compensation takes effect

  /** Only the compensation at position `q` takes effect. */
  function Solo(n: nat, q: nat): (effective: seq<bool>)
    ensures |effective| == n && forall p :: 0 <= p < n ==> (effective[p] <==> p == q)
  {
    seq(n, p => p == q)
  }

  lemma {:induction false} SoloReplay(undos: seq<Undo>, p: nat, q: nat, s: seq<Raw>)
    requires p <= q < |undos|
    ensures UndoSome(undos, p, Solo(|undos|, q)[p..], s) == UndoEffect(undos[q], s)
    decreases q - p
  {
    DropMore(Solo(|undos|, q), p);
    if p < q {
      SoloReplay(undos, p + 1, q, s);
    } else {
      Ineffective(undos, p + 1, Solo(|undos|, q)[p + 1..], s);
    }
  }

  lemma {:induction false} OnlyThis(undos: seq<Undo>, u: Undo, s: seq<Raw>) returns (effective: seq<bool>)
    requires u in undos
    ensures |effective| == |undos| && UndoSome(undos, 0, effective, s) == UndoEffect(u, s)
  {
    var q :| 0 <= q < |undos| && undos[q] == u;
    effective := Solo(|undos|, q);
    SoloReplay(undos, 0, q, s);
    assert effective[0..] == effective;
  }

  // -------------------------------------------------------- a doubled entry

  /** The last orphan in front of entry `i`. */
  lemma {:induction false} LastOrphan(o: seq<Raw>, w: RouteTable, j: nat, i: nat) returns (c: nat)
    requires j < i <= |o| && Orphan(o[j], w)
    ensures c < i && Orphan(o[c], w) && forall k :: c < k < i ==> !Orphan(o[k], w)
  {
    c := i - 1;
    while !Orphan(o[c], w)
      invariant j <= c < i && forall k :: c < k < i ==> !Orphan(o[k], w)
      decreases c
    {
      c := c - 1;
    }
  }

  lemma {:induction false} KeptPast(m: seq<Raw>, w: RouteTable, c: nat, i: nat, f: nat)
    requires c < i < f <= |m| && Orphan(m[c], w) && forall k :: c < k <= i ==> !Orphan(m[k], w)
    ensures Kept(m[c..f], w) == m[c + 1..i] + [m[i]] + Kept(m[i + 1..f], w)
  {
    SlicePast(m, c, i, f);
    KeptStep(m[c], m[c + 1..f], w);
    FilterMid(m[c + 1..i], m[i], m[i + 1..f], Keeps(w));
    FilterAll(m[c + 1..i], Keeps(w));
  }

  lemma {:induction false} RepairedKeys(o: seq<Raw>, w: RouteTable, i: nat)
    requires Proper(w) && i < |o|
    ensures Orphan(Repaired(o, w)[i], w) <==> Orphan(o[i], w)
    ensures IDOf(Repaired(o, w)[i]) == IDOf(o[i])
  {
    RepairKeepsID(o[i], w);
  }

  /** Entry `i` has come forward by one. */
  lemma {:induction false} CameForward(o: seq<Raw>, w: RouteTable, c: nat, i: nat)
    requires Proper(w) && c < i < FallbackAt(o) && NeedsRepair(o[i], w)
    requires Orphan(o[c], w) && forall k :: c < k < i ==> !Orphan(o[k], w)
    ensures |Front(o, w, c)| == i + |Kept(Repaired(o, w)[i + 1..FallbackAt(o)], w)|
    ensures IDOf(Front(o, w, c)[i - 1]) == IDOf(o[i])
  {
    var m, f := Repaired(o, w), FallbackAt(o);
    OrphanThere(o, w, c, i);
    KeptPast(m, w, c, i, f);
    RepairedKeys(o, w, i);
    CloseUp(m[..c], m[c + 1..i], m[i], Kept(m[i + 1..f], w));
  }

  lemma {:induction false} OrphanThere(o: seq<Raw>, w: RouteTable, c: nat, i: nat)
    requires Proper(w) && c < i < |o| && NeedsRepair(o[i], w)
    requires Orphan(o[c], w) && forall k :: c < k < i ==> !Orphan(o[k], w)
    ensures Orphan(Repaired(o, w)[c], w) && forall k :: c < k <= i ==> !Orphan(Repaired(o, w)[k], w)
  {
    RepairedKeys(o, w, c);
    forall k | c < k <= i ensures !Orphan(Repaired(o, w)[k], w) {
      RepairedKeys(o, w, k);
    }
  }

  lemma {:induction false} CloseUp<T>(a: seq<T>, b: seq<T>, x: T, d: seq<T>)
    ensures var s := a + (b + [x] + d); |s| == |a| + |b| + 1 + |d| && s[|a| + |b|] == x
  {
  }

  lemma {:induction false} KeptSome(m: seq<Raw>, w: RouteTable, i: nat, f: nat, k: nat)
    requires i <= k < f <= |m| && !Orphan(m[k], w)
    ensures |Kept(m[i..f], w)| > 0
  {
    assert m[i..f][k - i] == m[k];
    FilterMember(m[i..f], Keeps(w), m[k]);
  }

  /** Something stands in its slot. */
  lemma {:induction false} SlotTaken(o: seq<Raw>, w: RouteTable, added: seq<Route>, i: nat)
    requires WellFormed(o) && Proper(w) && Visits(added, Missing(o, w), w) && i < FallbackAt(o) && Followed(o, w, i)
    ensures |Kept(Repaired(o, w)[i + 1..FallbackAt(o)], w)| + |added| + |Back(o, w)| > 0
  {
    var m, f := Repaired(o, w), FallbackAt(o);
    VisitCount(added, Missing(o, w), w);
    if Missing(o, w) == {} && f == |o| {
      var k :| i < k < |o| && !Orphan(o[k], w);
      RepairedKeys(o, w, k);
      KeptSome(m, w, i + 1, f, k);
    }
  }

  lemma {:induction false} DoubledBy(s: seq<Raw>, i: nat, x: Raw)
    requires 0 < i < |s| && IsOwned(x) && IDOf(s[i - 1]) == IDOf(x)
    ensures !UniqueOwned(UndoEffect(PutBack(i, x), s))
  {
    var t := s[i := x];
    assert IsOwned(t[i - 1]) && IsOwned(t[i]) && IDOf(t[i - 1]) == IDOf(t[i]);
  }

  lemma {:induction false} PutBackStacked(o: seq<Raw>, w: RouteTable, added: seq<Route>, c: nat, i: nat)
    requires c <= |o| && i < |o| && NeedsRepair(o[i], w)
    ensures PutBack(i, o[i]) in Stack(o, w, added, c)
  {
    RepairStacked(o, w, |o|, i);
  }

  /** When an entry may be doubled, some run of Reconcile doubles one. */
  lemma {:induction false} Doubling(o: seq<Raw>, w: RouteTable, added: seq<Route>, j: nat, i: nat)
    returns (c: nat, effective: seq<bool>)
    requires WellFormed(o) && Proper(w) && Visits(added, Missing(o, w), w) && Doubles(o, w, j, i)
    ensures c <= |o| && c <= |Widened(o, w, added)| && |effective| == |Stack(o, w, added, c)|
    ensures !UniqueOwned(UndoSome(Stack(o, w, added, c), 0, effective, DeletedTo(o, w, added, c)))
  {
    c := LastOrphan(o, w, j, i);
    OwnedBeforeFallback(o, i);
    StoppedShape(o, w, added, c);
    CameForward(o, w, c, i);
    SlotTaken(o, w, added, i);
    PutBackStacked(o, w, added, c, i);
    effective := OnlyThis(Stack(o, w, added, c), PutBack(i, o[i]), DeletedTo(o, w, added, c));
    DoubledBy(DeletedTo(o, w, added, c), i, o[i]);
  }

  // --------------------------------------------------------- a buried entry

  lemma {:induction false} NoOrphans(s: seq<Raw>, w: RouteTable)
    requires forall i :: 0 <= i < |s| ==> !Orphan(s[i], w)
    ensures Orphans(s, w) == 0
  {
    if s != [] {
      NoOrphans(s[..|s| - 1], w);
    }
  }

  lemma {:induction false} OrphansInFront(o: seq<Raw>, w: RouteTable)
    requires FallbackLast(o)
    ensures Orphans(o[..FallbackAt(o)], w) == Orphans(o, w)
  {
    var f := FallbackAt(o);
    assert o == o[..f] + o[f..];
    OrphansConcat(o[..f], o[f..], w);
    forall i | 0 <= i < |o[f..]| ensures !Orphan(o[f..][i], w) {
      if IsOwned(o[f + i]) {
        OwnedBeforeFallback(o, f + i);
      }
    }
    NoOrphans(o[f..], w);
  }

  lemma {:induction false} OrphansAtMost(s: seq<Raw>, w: RouteTable)
    ensures Orphans(s, w) <= |s|
  {
    if s != [] {
      OrphansAtMost(s[..|s| - 1], w);
    }
  }

  lemma {:induction false} DepthFrom(o: seq<Raw>, w: RouteTable, k: nat, f: nat, g: nat) returns (c: nat)
    requires k < f <= |o| && Orphans(o[k..f], w) <= g <= Orphans(o[..f], w)
    ensures c <= k && Orphans(o[c..f], w) == g
  {
    assert o[0..f] == o[..f];
    if Orphans(o[k..f], w) == g {
      c := k;
    } else {
      OneMore(o, w, k - 1, f);
      c := DepthFrom(o, w, k - 1, f, g);
    }
  }

  /** The deletion after which exactly `g` orphans in front of the fallback are gone. */
  lemma {:induction false} Depth(o: seq<Raw>, w: RouteTable, k: nat, g: nat) returns (c: nat)
    requires FallbackLast(o) && k < FallbackAt(o) && FallbackAt(o) - k < g <= Orphans(o, w)
    ensures c <= k && Orphans(o[c..FallbackAt(o)], w) == g
  {
    OrphansAtMost(o[k..FallbackAt(o)], w);
    OrphansInFront(o, w);
    c := DepthFrom(o, w, k, FallbackAt(o), g);
  }

  /** Where the fallback stands when the run is stopped. */
  lemma {:induction false} FallbackCame(o: seq<Raw>, w: RouteTable, added: seq<Route>, c: nat, at: int)
    requires WellFormed(o) && Proper(w) && Visits(added, Missing(o, w), w) && c <= FallbackAt(o) < |o|
    requires at == FallbackAt(o) + |added| - Orphans(o[c..FallbackAt(o)], w)
    ensures c <= |Widened(o, w, added)|
    ensures 0 <= at < |DeletedTo(o, w, added, c)| && IsFallback(DeletedTo(o, w, added, c)[at])
  {
    var m, f := Repaired(o, w), FallbackAt(o);
    StoppedShape(o, w, added, c);
    KeptLength(m[c..f], w);
    OrphansRepaired(o, w, c, f);
    RepairedKeys(o, w, f);
    assert Back(o, w)[0] == m[f];
    ConcatAt(Front(o, w, c), Canons(added), Back(o, w), |Front(o, w, c)| + |added|);
  }

  lemma {:induction false} SweptAway(a: seq<Raw>, w: RouteTable, c: nat, k: nat)
    requires UniqueOwned(a) && c <= k < |a| && Orphan(a[k], w)
    ensures a[k] !in a[..c] + Kept(a[c..], w)
  {
    FilterMember(a[c..], Keeps(w), a[k]);
    forall j | 0 <= j < c ensures a[j] != a[k] {
    }
  }

  /** The orphan is gone from the stopped array. */
  lemma {:induction false} OrphanGone(o: seq<Raw>, w: RouteTable, added: seq<Route>, c: nat, k: nat)
    requires WellFormed(o) && Proper(w) && Visits(added, Missing(o, w), w) && c <= k < FallbackAt(o) && Orphan(o[k], w)
    requires c <= |Widened(o, w, added)|
    ensures o[k] !in DeletedTo(o, w, added, c)
  {
    BaseWidened(o, w, added);
    SweptAway(Widened(o, w, added), w, c, k);
  }

  lemma {:induction false} BuriedBy(s: seq<Raw>, k: nat, x: Raw)
    requires 0 < k <= |s| && IsFallback(s[k - 1]) && IsOwned(x) && x !in s
    ensures !FallbackLast(UndoEffect(Reinsert(k, x), s))
  {
    var t := s[..k] + [x] + s[k..];
    assert t[k - 1] == s[k - 1] && t[k] == x;
  }

  lemma {:induction false} ReinsertStacked(o: seq<Raw>, w: RouteTable, c: nat, k: nat)
    requires c <= k < |o| && Orphan(o[k], w)
    ensures Reinsert(k, o[k]) in Reinserts(o, w, c)
    decreases k - c
  {
    if c < k {
      ReinsertStacked(o, w, c + 1, k);
    }
  }

  lemma {:induction false} ReinsertInStack(o: seq<Raw>, w: RouteTable, added: seq<Route>, c: nat, k: nat)
    requires c <= k < |o| && Orphan(o[k], w)
    ensures Reinsert(k, o[k]) in Stack(o, w, added, c)
  {
    ReinsertStacked(o, w, c, k);
  }

  /** A stop that brings the fallback right in front of the orphan's slot. */
  lemma {:induction false} FallbackAhead(o: seq<Raw>, w: RouteTable, added: seq<Route>, k: nat) returns (c: nat)
    requires WellFormed(o) && Proper(w) && Visits(added, Missing(o, w), w) && Buries(o, w, k)
    ensures c <= k && c <= |Widened(o, w, added)|
    ensures var s := DeletedTo(o, w, added, c); 0 < k <= |s| && IsFallback(s[k - 1])
  {
    VisitCount(added, Missing(o, w), w);
    c := Depth(o, w, k, FallbackAt(o) + |added| - k + 1);
    FallbackCame(o, w, added, c, k - 1);
  }

  /** When an entry may be buried, some run of Reconcile puts one behind the fallback. */
  lemma {:induction false} Burying(o: seq<Raw>, w: RouteTable, added: seq<Route>, k: nat)
    returns (c: nat, effective: seq<bool>)
    requires WellFormed(o) && Proper(w) && Visits(added, Missing(o, w), w) && Buries(o, w, k)
    ensures c <= |o| && c <= |Widened(o, w, added)| && |effective| == |Stack(o, w, added, c)|
    ensures !FallbackLast(UndoSome(Stack(o, w, added, c), 0, effective, DeletedTo(o, w, added, c)))
  {
    c := FallbackAhead(o, w, added, k);
    OrphanGone(o, w, added, c, k);
    ReinsertInStack(o, w, added, c, k);
    effective := OnlyThis(Stack(o, w, added, c), Reinsert(k, o[k]), DeletedTo(o, w, added, c));
    BuriedBy(DeletedTo(o, w, added, c), k, o[k]);
  }

  // ------------------------------------------------------------- main results

  /** What the run stopped at `c` leaves, its compensations behaving like this. */
  function LeftAt(o: seq<Raw>, w: RouteTable, added: seq<Route>, c: nat, effective: seq<bool>): seq<Raw>
    requires c <= |o| && c <= |Widened(o, w, added)| && |effective| == |Stack(o, w, added, c)|
  {
    UndoSome(Stack(o, w, added, c), 0, effective, DeletedTo(o, w, added, c))
  }

  ghost predicate DoubledAt(o: seq<Raw>, w: RouteTable, added: seq<Route>, c: nat, effective: seq<bool>) {
    && c <= |o| && c <= |Widened(o, w, added)| && |effective| == |Stack(o, w, added, c)|
    && !UniqueOwned(LeftAt(o, w, added, c, effective))
  }

  ghost predicate BrokenAt(o: seq<Raw>, w: RouteTable, added: seq<Route>, c: nat, effective: seq<bool>) {
    && c <= |o| && c <= |Widened(o, w, added)| && |effective| == |Stack(o, w, added, c)|
    && !WellFormed(LeftAt(o, w, added, c, effective))
  }

  lemma {:induction false} FirstPart(o: seq<Raw>, w: RouteTable, added: seq<Route>)
    ensures NoReinserts(PutBacks(o, w, |o|) + TakeOuts(added))
  {
    OnlyRepairs(o, w, |o|);
    forall u | u in PutBacks(o, w, |o|) + TakeOuts(added) ensures !u.Reinsert? {
      assert u in PutBacks(o, w, |o|) || u in TakeOuts(added);
    }
  }

  /** A stopped run is where the client may give up. */
  lemma {:induction false} StoppedIsHalted(o: seq<Raw>, w: RouteTable, added: seq<Route>, c: nat)
    returns (s: seq<Raw>, undos: seq<Undo>)
    requires WellFormed(o) && Proper(w) && Visits(added, Missing(o, w), w) && c <= |o|
    ensures c <= |Widened(o, w, added)| && s == DeletedTo(o, w, added, c) && undos == Stack(o, w, added, c)
    ensures Recoverable(true, o, w, s, undos) && Halted(o, w, s, undos)
  {
    s, undos := RunDeletes(o, w, added, c);
    FirstPart(o, w, added);
    SweepHalts(o, w, added, c, s, PutBacks(o, w, |o|) + TakeOuts(added), undos);
  }

  /** A partly failing rollback can leave two entries of one link if and only if an
      orphan precedes an entry to repair that something kept or missing is behind. */
  lemma {:induction false} DoubledIffMayDouble(o: seq<Raw>, w: RouteTable, added: seq<Route>)
    requires WellFormed(o) && Proper(w) && Visits(added, Missing(o, w), w)
    ensures (exists c, effective :: DoubledAt(o, w, added, c, effective)) <==> MayDouble(o, w)
  {
    if MayDouble(o, w) {
      var j, i :| Doubles(o, w, j, i);
      var c, effective := Doubling(o, w, added, j, i);
      assert DoubledAt(o, w, added, c, effective);
    } else {
      forall c: nat, effective ensures !DoubledAt(o, w, added, c, effective) {
        if c <= |o| && |effective| == |Stack(o, w, added, c)| {
          var s, undos := StoppedIsHalted(o, w, added, c);
          RollbackWorth(true, o, w, undos, effective, s);
        }
      }
    }
  }

  lemma {:induction false} Breaking(o: seq<Raw>, w: RouteTable, added: seq<Route>)
    returns (c: nat, effective: seq<bool>)
    requires WellFormed(o) && Proper(w) && Visits(added, Missing(o, w), w) && Fragile(o, w)
    ensures BrokenAt(o, w, added, c, effective)
  {
    if MayDouble(o, w) {
      var j, i :| Doubles(o, w, j, i);
      c, effective := Doubling(o, w, added, j, i);
    } else {
      var k :| Buries(o, w, k);
      c, effective := Burying(o, w, added, k);
    }
  }

  lemma {:induction false} Unbreakable(o: seq<Raw>, w: RouteTable, added: seq<Route>, c: nat, effective: seq<bool>)
    requires WellFormed(o) && Proper(w) && Visits(added, Missing(o, w), w) && !Fragile(o, w)
    ensures !BrokenAt(o, w, added, c, effective)
  {
    if c <= |o| && |effective| == |Stack(o, w, added, c)| {
      var s, undos := StoppedIsHalted(o, w, added, c);
      RollbackWorth(true, o, w, undos, effective, s);
    }
  }

  /** A partly failing rollback can leave an array that is not well-formed if and
      only if the snapshot and the desired routes are fragile. */
  lemma {:induction false} BrokenIffFragile(o: seq<Raw>, w: RouteTable, added: seq<Route>)
    requires WellFormed(o) && Proper(w) && Visits(added, Missing(o, w), w)
    ensures (exists c, effective :: BrokenAt(o, w, added, c, effective)) <==> Fragile(o, w)
  {
    if Fragile(o, w) {
      var c, effective := Breaking(o, w, added);
    } else {
      forall c: nat, effective ensures !BrokenAt(o, w, added, c, effective) {
        Unbreakable(o, w, added, c, effective);
      }
    }
  }
}
