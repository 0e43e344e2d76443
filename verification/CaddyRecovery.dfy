/** What a successful Reconcile makes of any array that parses (caddy.go:322-413),
    well-formed or not, and when it restores a well-formed one. Only the first
    entry of a desired link is repaired, and the deleting loop only visits as many
    positions as the snapshot had.
 */
module CaddyRecovery {
  import opened Ports
  import opened Sequences
  import opened CaddyRoutes
  import opened CaddyPlan

  /** No entry in front of this one is of the same link. */
  ghost predicate Leads(o: seq<Raw>, j: nat)
    requires j < |o|
  {
    IsOwned(o[j]) ==> Key(o[j]) !in OwnedKeys(o[..j])
  }

  ghost function MendOne(o: seq<Raw>, w: RouteTable, j: nat): Raw
    requires j < |o|
  {
    if Leads(o, j) then RepairOne(o[j], w) else o[j]
  }

  ghost function Mended(o: seq<Raw>, w: RouteTable): (m: seq<Raw>)
    ensures |m| == |o| && forall j :: 0 <= j < |o| ==> m[j] == MendOne(o, w, j)
  {
    seq(|o|, j requires 0 <= j < |o| => MendOne(o, w, j))
  }

  ghost function Stretched(o: seq<Raw>, w: RouteTable, added: seq<Route>): seq<Raw> {
    Mended(o, w)[..FallbackAt(o)] + Canons(added) + Mended(o, w)[FallbackAt(o)..]
  }

  /** The first `n` positions were visited. */
  function SweptTo(a: seq<Raw>, w: RouteTable, n: nat): seq<Raw>
    requires n <= |a|
  {
    Kept(a[..n], w) + a[n..]
  }

  /** The array a successful Reconcile ends in. */
  ghost function Cleared(o: seq<Raw>, w: RouteTable, added: seq<Route>): seq<Raw> {
    SweptTo(Stretched(o, w, added), w, |o|)
  }

  /** With unique identities every entry leads. */
  lemma {:induction false} MendedUnique(o: seq<Raw>, w: RouteTable)
    requires UniqueOwned(o)
    ensures Mended(o, w) == Repaired(o, w)
  {
    forall j | 0 <= j < |o| ensures Leads(o, j) {
      OwnedKeysStep(o, j);
    }
  }

  /** On a well-formed array this is the plan of CaddyPlan. */
  lemma {:induction false} ClearedWellFormed(o: seq<Raw>, w: RouteTable, added: seq<Route>)
    requires WellFormed(o) && Proper(w) && Visits(added, Missing(o, w), w)
    ensures Stretched(o, w, added) == Widened(o, w, added)
    ensures Cleared(o, w, added) == Reconciled(o, w, added)
  {
    MendedUnique(o, w);
    var a := Widened(o, w, added);
    assert |a| == |o| + |added|;
    forall j | |o| <= j < |a| ensures !Orphan(a[j], w) {
      WidenedTail(o, w, added, j);
    }
    SweptWhole(a, w, |o|);
  }

  lemma {:induction false} WidenedTail(o: seq<Raw>, w: RouteTable, added: seq<Route>, j: nat)
    requires WellFormed(o) && Proper(w) && Visits(added, Missing(o, w), w) && |o| <= j < |o| + |added|
    ensures !Orphan(Widened(o, w, added)[j], w)
  {
    WidenedIDs(o, w, added, j);
    if j < FallbackAt(o) + |added| {
      AddedEntry(o, w, added, j - FallbackAt(o));
    }
  }

  // ------------------------------------------------------ what stays wrong

  /** An orphan behind the fallback that insertions push beyond the visited positions. */
  ghost predicate OutOfReach(o: seq<Raw>, w: RouteTable) {
    exists i :: FallbackAt(o) <= i < |o| && |o| - |Missing(o, w)| <= i && Orphan(o[i], w)
  }

  predicate Desired(x: Raw, w: RouteTable) {
    IsOwned(x) && Key(x) in w
  }

  /** A desired link has two entries. */
  ghost predicate DesiredTwice(o: seq<Raw>, w: RouteTable) {
    exists i, j :: 0 <= i < j < |o| && Desired(o[i], w) && Desired(o[j], w) && IDOf(o[i]) == IDOf(o[j])
  }

  /** An entry of a desired link is behind a fallback. */
  ghost predicate DesiredBehind(o: seq<Raw>, w: RouteTable) {
    exists i, j :: 0 <= i < j < |o| && IsFallback(o[i]) && Desired(o[j], w)
  }

  /** A successful Reconcile does not put the array right. */
  ghost predicate Stuck(o: seq<Raw>, w: RouteTable) {
    OutOfReach(o, w) || DesiredTwice(o, w) || DesiredBehind(o, w)
  }

  lemma {:induction false} WellFormedIsNotStuck(o: seq<Raw>, w: RouteTable)
    requires WellFormed(o)
    ensures !Stuck(o, w)
  {
    forall i | 0 <= i < |o| && IsOwned(o[i]) ensures i < FallbackAt(o) {
      OwnedBeforeFallback(o, i);
    }
  }

  /** Sending the empty list puts any array right that parses. */
  lemma {:induction false} EmptyListUnsticks(o: seq<Raw>)
    ensures !Stuck(o, map[])
  {
    assert Missing(o, map[]) == {};
  }

  // ---------------------------------------------- where entries come from

  lemma {:induction false} MendKeepsID(o: seq<Raw>, w: RouteTable, j: nat)
    requires Proper(w) && j < |o|
    ensures IDOf(Mended(o, w)[j]) == IDOf(o[j])
    ensures o[j].Object? ==> Mended(o, w)[j].Object?
  {
    RepairKeepsID(o[j], w);
  }

  /** Where snapshot entry `i` stands once `n` routes were inserted. */
  function Moved(o: seq<Raw>, n: nat, i: nat): nat {
    if i < FallbackAt(o) then i else i + n
  }

  lemma {:induction false} StretchedOld(o: seq<Raw>, w: RouteTable, added: seq<Route>, i: nat)
    requires Proper(w) && i < |o|
    ensures var j, a := Moved(o, |added|, i), Stretched(o, w, added);
      && |a| == |o| + |added| && j < |a| && a[j] == Mended(o, w)[i] && IDOf(a[j]) == IDOf(o[i])
      && (o[i].Object? ==> a[j].Object?)
  {
    MendKeepsID(o, w, i);
    AroundMiddle(Mended(o, w), FallbackAt(o), Canons(added), i);
  }

  lemma {:induction false} StretchedNew(o: seq<Raw>, w: RouteTable, added: seq<Route>, i: nat)
    requires i < |added|
    ensures var j, a := FallbackAt(o) + i, Stretched(o, w, added); |a| == |o| + |added| && a[j] == Canon(added[i])
  {
    var m, f := Mended(o, w), FallbackAt(o);
    MiddleAt(m[..f], Canons(added), m[f..], i);
  }

  /** A position of the stretched array: an entry that was there, or a route that was added. */
  lemma {:induction false} StretchedFrom(o: seq<Raw>, w: RouteTable, added: seq<Route>, j: nat)
    returns (was: bool, i: nat)
    requires Proper(w) && Visits(added, Missing(o, w), w) && j < |o| + |added|
    ensures |Stretched(o, w, added)| == |o| + |added|
    ensures was ==> i < |o| && j == Moved(o, |added|, i) && IDOf(Stretched(o, w, added)[j]) == IDOf(o[i])
                    && Stretched(o, w, added)[j] == Mended(o, w)[i]
    ensures !was ==> i < |added| && j == FallbackAt(o) + i && Stretched(o, w, added)[j] == Canon(added[i])
    ensures !was ==>
      var x := Canon(added[i]);
      Desired(x, w) && !IsFallback(x) && Key(x) !in OwnedKeys(o) && DecodeRaw(x) == Some(w[Key(x)])
  {
    var f := FallbackAt(o);
    was, i := !(f <= j < f + |added|), if j < f then j else if j < f + |added| then j - f else j - |added|;
    if was {
      StretchedOld(o, w, added, i);
    } else {
      StretchedNew(o, w, added, i);
      AddedEntry(o, w, added, i);
    }
  }

  // -------------------------------------------------- where entries end up

  /** Where position `j` ends up. */
  function Landing(a: seq<Raw>, w: RouteTable, n: nat, j: nat): nat
    requires n <= |a| && j < |a|
  {
    if j < n then |Kept(a[..j], w)| else |Kept(a[..n], w)| + (j - n)
  }

  lemma {:induction false} Lands(a: seq<Raw>, w: RouteTable, n: nat, j: nat)
    requires n <= |a| && j < |a| && (n <= j || !Orphan(a[j], w))
    ensures Landing(a, w, n, j) < |SweptTo(a, w, n)| && SweptTo(a, w, n)[Landing(a, w, n, j)] == a[j]
  {
    if j < n {
      FilterAround(a[..n], j, Keeps(w));
      assert a[..n][..j] == a[..j];
    }
  }

  lemma {:induction false} KeptGrows(a: seq<Raw>, w: RouteTable, i: nat, j: nat)
    requires i < j <= |a| && !Orphan(a[i], w)
    ensures |Kept(a[..i], w)| < |Kept(a[..j], w)|
  {
    FilterAround(a[..j], i, Keeps(w));
    assert a[..j][..i] == a[..i];
  }

  lemma {:induction false} LandsInOrder(a: seq<Raw>, w: RouteTable, n: nat, i: nat, j: nat)
    requires n <= |a| && i < j < |a| && (n <= i || !Orphan(a[i], w))
    ensures Landing(a, w, n, i) < Landing(a, w, n, j)
  {
    if i < n {
      KeptGrows(a, w, i, if j < n then j else n);
    }
  }

  lemma {:induction false} MovesInOrder(o: seq<Raw>, n: nat, i: nat, j: nat)
    requires i < j
    ensures Moved(o, n, i) < Moved(o, n, j)
  {
  }

  /** Two snapshot entries that stay, in the order they stood. */
  lemma {:induction false} StayInOrder(o: seq<Raw>, w: RouteTable, added: seq<Route>, i: nat, j: nat)
    returns (p: nat, q: nat)
    requires Proper(w) && i < j < |o|
    requires !Orphan(o[i], w) && (!Orphan(o[j], w) || |o| <= Moved(o, |added|, j))
    ensures p < q < |Cleared(o, w, added)|
    ensures IDOf(Cleared(o, w, added)[p]) == IDOf(o[i]) && IDOf(Cleared(o, w, added)[q]) == IDOf(o[j])
  {
    var a := Stretched(o, w, added);
    var i', j' := Moved(o, |added|, i), Moved(o, |added|, j);
    StretchedOld(o, w, added, i);
    StretchedOld(o, w, added, j);
    MovesInOrder(o, |added|, i, j);
    Lands(a, w, |o|, i');
    Lands(a, w, |o|, j');
    LandsInOrder(a, w, |o|, i', j');
    p, q := Landing(a, w, |o|, i'), Landing(a, w, |o|, j');
  }

  // ------------------------------------------------------------- main results

  lemma {:induction false} InReach(o: seq<Raw>, w: RouteTable, added: seq<Route>)
    requires Proper(w) && Visits(added, Missing(o, w), w) && !OutOfReach(o, w)
    ensures |Stretched(o, w, added)| == |o| + |added|
    ensures Cleared(o, w, added) == Kept(Stretched(o, w, added), w)
  {
    var a := Stretched(o, w, added);
    VisitCount(added, Missing(o, w), w);
    StretchedLength(o, w, added);
    forall j | |o| <= j < |a| ensures !Orphan(a[j], w) {
      TailInReach(o, w, added, j);
    }
    SweptWhole(a, w, |o|);
  }

  lemma {:induction false} StretchedLength(o: seq<Raw>, w: RouteTable, added: seq<Route>)
    ensures |Stretched(o, w, added)| == |o| + |added|
  {
  }

  lemma {:induction false} SweptWhole(a: seq<Raw>, w: RouteTable, n: nat)
    requires n <= |a| && forall j :: n <= j < |a| ==> !Orphan(a[j], w)
    ensures SweptTo(a, w, n) == Kept(a, w)
  {
    FilterAll(a[n..], Keeps(w));
    FilterSplit(a, n, Keeps(w));
  }

  lemma {:induction false} VisitCount(added: seq<Route>, ids: set<LinkID>, w: RouteTable)
    requires Visits(added, ids, w)
    ensures |added| == |ids|
  {
    LinksCount(added);
  }

  lemma {:induction false} LinksCount(added: seq<Route>)
    requires DistinctLinks(added)
    ensures |LinksOf(added)| == |added|
  {
    if added != [] {
      var n := |added| - 1;
      LinksCount(added[..n]);
      assert added == added[..n] + [added[n]];
      assert LinksOf(added) == LinksOf(added[..n]) + {added[n].linkID};
      forall r | r in added[..n] ensures r.linkID != added[n].linkID {
        var j :| 0 <= j < n && added[j] == r;
      }
    }
  }

  lemma {:induction false} TailInReach(o: seq<Raw>, w: RouteTable, added: seq<Route>, j: nat)
    requires Proper(w) && Visits(added, Missing(o, w), w) && !OutOfReach(o, w)
    requires |added| == |Missing(o, w)| && |o| <= j < |o| + |added|
    ensures j < |Stretched(o, w, added)| && !Orphan(Stretched(o, w, added)[j], w)
  {
    var was, i := StretchedFrom(o, w, added, j);
    if was {
      assert FallbackAt(o) <= i && |o| - |Missing(o, w)| <= i;
    }
  }

  lemma {:induction false} KeptOnce(o: seq<Raw>, w: RouteTable, added: seq<Route>, p: nat, q: nat)
    requires Proper(w) && Visits(added, Missing(o, w), w) && !DesiredTwice(o, w) && p < q < |o| + |added|
    requires |Stretched(o, w, added)| == |o| + |added|
    requires Desired(Stretched(o, w, added)[p], w) && Desired(Stretched(o, w, added)[q], w)
    ensures IDOf(Stretched(o, w, added)[p]) != IDOf(Stretched(o, w, added)[q])
  {
    var was, i := StretchedFrom(o, w, added, p);
    var was', j := StretchedFrom(o, w, added, q);
    if was && was' {
      assert i < j;
      assert Desired(o[i], w) && Desired(o[j], w);
    } else if was {
      assert o[i] in o;
      assert IsOwned(o[i]) ==> Key(o[i]) in OwnedKeys(o);
    } else if was' {
      assert o[j] in o;
      assert IsOwned(o[j]) ==> Key(o[j]) in OwnedKeys(o);
    } else {
      assert added[i].linkID != added[j].linkID;
      CanonFacts(added[i]);
      CanonFacts(added[j]);
    }
  }

  lemma {:induction false} KeptInFront(o: seq<Raw>, w: RouteTable, added: seq<Route>, p: nat, q: nat)
    requires Proper(w) && Visits(added, Missing(o, w), w) && !DesiredBehind(o, w) && p < q < |o| + |added|
    requires |Stretched(o, w, added)| == |o| + |added|
    requires IsFallback(Stretched(o, w, added)[p])
    ensures !Desired(Stretched(o, w, added)[q], w)
  {
    var was, i := StretchedFrom(o, w, added, p);
    var was', j := StretchedFrom(o, w, added, q);
    assert was && FallbackAt(o) <= i;
    assert was' && i < j;
    assert Desired(Stretched(o, w, added)[q], w) <==> Desired(o[j], w);
  }

  lemma {:induction false} StretchedParsed(o: seq<Raw>, w: RouteTable, added: seq<Route>, j: nat)
    requires AllParsed(o) && Proper(w) && Visits(added, Missing(o, w), w) && j < |o| + |added|
    ensures |Stretched(o, w, added)| == |o| + |added| && Stretched(o, w, added)[j].Object?
  {
    var was, i := StretchedFrom(o, w, added, j);
    if was {
      MendKeepsID(o, w, i);
    }
  }

  /** Nothing stands in the way: the array is put right. */
  lemma {:induction false} PutRight(o: seq<Raw>, w: RouteTable, added: seq<Route>)
    requires AllParsed(o) && Proper(w) && Visits(added, Missing(o, w), w) && !Stuck(o, w)
    ensures WellFormed(Cleared(o, w, added))
  {
    var a, t := Stretched(o, w, added), Cleared(o, w, added);
    InReach(o, w, added);
    forall i | 0 <= i < |t| ensures t[i].Object? {
      FilterMember(a, Keeps(w), t[i]);
      var j :| 0 <= j < |a| && a[j] == t[i];
      StretchedParsed(o, w, added, j);
    }
    forall i, j | 0 <= i < j < |t|
      ensures IsOwned(t[i]) && IsOwned(t[j]) ==> IDOf(t[i]) != IDOf(t[j])
      ensures IsFallback(t[i]) ==> !IsOwned(t[j])
    {
      var p, q := FilterOrder(a, Keeps(w), i, j);
      FilterMember(a, Keeps(w), t[i]);
      FilterMember(a, Keeps(w), t[j]);
      if Desired(t[i], w) && Desired(t[j], w) {
        KeptOnce(o, w, added, p, q);
      }
      if IsFallback(t[i]) {
        KeptInFront(o, w, added, p, q);
      }
    }
  }

  lemma {:induction false} OutOfReachStays(o: seq<Raw>, w: RouteTable, added: seq<Route>)
    requires Proper(w) && Visits(added, Missing(o, w), w) && OutOfReach(o, w)
    ensures !FallbackLast(Cleared(o, w, added))
  {
    var i :| FallbackAt(o) <= i < |o| && |o| - |Missing(o, w)| <= i && Orphan(o[i], w);
    VisitCount(added, Missing(o, w), w);
    OrphanStays(o, w, added, i);
  }

  lemma {:induction false} OrphanStays(o: seq<Raw>, w: RouteTable, added: seq<Route>, i: nat)
    requires Proper(w) && FallbackAt(o) <= i < |o| && |o| <= i + |added| && Orphan(o[i], w)
    ensures !FallbackLast(Cleared(o, w, added))
  {
    var f := FallbackAt(o);
    OwnedIsNotFallback(o[i]);
    if IsOwned(o[f]) {
      OwnedIsNotFallback(o[f]);
    }
    var p, q := StayInOrder(o, w, added, f, i);
  }

  lemma {:induction false} TwiceStays(o: seq<Raw>, w: RouteTable, added: seq<Route>)
    requires Proper(w) && Visits(added, Missing(o, w), w) && DesiredTwice(o, w)
    ensures !UniqueOwned(Cleared(o, w, added))
  {
    var i, j :| 0 <= i < j < |o| && Desired(o[i], w) && Desired(o[j], w) && IDOf(o[i]) == IDOf(o[j]);
    var p, q := StayInOrder(o, w, added, i, j);
  }

  lemma {:induction false} BehindStays(o: seq<Raw>, w: RouteTable, added: seq<Route>)
    requires Proper(w) && Visits(added, Missing(o, w), w) && DesiredBehind(o, w)
    ensures !FallbackLast(Cleared(o, w, added))
  {
    var i, j :| 0 <= i < j < |o| && IsFallback(o[i]) && Desired(o[j], w);
    if IsOwned(o[i]) {
      OwnedIsNotFallback(o[i]);
    }
    var p, q := StayInOrder(o, w, added, i, j);
  }

  /** A successful Reconcile leaves a well-formed array if and only if no desired
      link was doubled or behind the fallback and no orphan was out of reach. */
  lemma {:induction false} RestoredIffNotStuck(o: seq<Raw>, w: RouteTable, added: seq<Route>)
    requires AllParsed(o) && Proper(w) && Visits(added, Missing(o, w), w)
    ensures WellFormed(Cleared(o, w, added)) <==> !Stuck(o, w)
  {
    if !Stuck(o, w) {
      PutRight(o, w, added);
    } else if OutOfReach(o, w) {
      OutOfReachStays(o, w, added);
    } else if DesiredTwice(o, w) {
      TwiceStays(o, w, added);
    } else {
      BehindStays(o, w, added);
    }
  }

  lemma {:induction false} FirstOwned(o: seq<Raw>, id: LinkID) returns (i: nat)
    requires id in OwnedKeys(o)
    ensures i < |o| && IsOwned(o[i]) && Key(o[i]) == id && Leads(o, i)
  {
    i := OwnedIndex(o, id);
    while !Leads(o, i)
      invariant i < |o| && IsOwned(o[i]) && Key(o[i]) == id
      decreases i
    {
      i := OwnedIndex(o[..i], id);
    }
  }

  lemma {:induction false} MendedShows(o: seq<Raw>, w: RouteTable, i: nat)
    requires Proper(w) && i < |o| && Desired(o[i], w) && !DesiredTwice(o, w)
    ensures DecodeRaw(Mended(o, w)[i]) == Some(w[Key(o[i])])
  {
    KeyListed(o, i);
    var j := FirstOwned(o, Key(o[i]));
    OwnedIDIsRouteID(IDOf(o[i]));
    OwnedIDIsRouteID(IDOf(o[j]));
    assert j == i;
    CanonFacts(w[Key(o[i])]);
  }

  lemma {:induction false} KeyListed(o: seq<Raw>, i: nat)
    requires i < |o| && IsOwned(o[i])
    ensures Key(o[i]) in OwnedKeys(o)
  {
    assert o[i] in o;
  }

  /** Then the owned entries decode to exactly the desired routes, as on a well-formed array. */
  lemma {:induction false} RestoredFaithful(o: seq<Raw>, w: RouteTable, added: seq<Route>)
    requires AllParsed(o) && Proper(w) && Visits(added, Missing(o, w), w) && !Stuck(o, w)
    ensures Faithful(Cleared(o, w, added), w) && View(Cleared(o, w, added)) == w
  {
    var a, t := Stretched(o, w, added), Cleared(o, w, added);
    InReach(o, w, added);
    forall x | x in t && IsOwned(x) ensures Key(x) in w && DecodeRaw(x) == Some(w[Key(x)]) {
      FilterMember(a, Keeps(w), x);
      var j :| 0 <= j < |a| && a[j] == x;
      StretchedDecodes(o, w, added, j);
    }
    forall id | id in w ensures id in OwnedKeys(t) {
      var j := StretchedHolds(o, w, added, id);
      FilterMember(a, Keeps(w), a[j]);
    }
    PutRight(o, w, added);
    FaithfulView(t, w);
  }

  lemma {:induction false} StretchedDecodes(o: seq<Raw>, w: RouteTable, added: seq<Route>, j: nat)
    requires Proper(w) && Visits(added, Missing(o, w), w) && !DesiredTwice(o, w) && j < |o| + |added|
    requires |Stretched(o, w, added)| == |o| + |added| && Desired(Stretched(o, w, added)[j], w)
    ensures var x := Stretched(o, w, added)[j]; DecodeRaw(x) == Some(w[Key(x)])
  {
    var was, i := StretchedFrom(o, w, added, j);
    if was {
      MendedShows(o, w, i);
    }
  }

  lemma {:induction false} StretchedHolds(o: seq<Raw>, w: RouteTable, added: seq<Route>, id: LinkID) returns (j: nat)
    requires Proper(w) && Visits(added, Missing(o, w), w) && id in w
    ensures j < |Stretched(o, w, added)| && Desired(Stretched(o, w, added)[j], w) && Key(Stretched(o, w, added)[j]) == id
  {
    if id in OwnedKeys(o) {
      var i := OwnedIndex(o, id);
      j := Moved(o, |added|, i);
      StretchedOld(o, w, added, i);
    } else {
      var i := VisitedIndex(added, Missing(o, w), w, id);
      j := FallbackAt(o) + i;
      StretchedNew(o, w, added, i);
      AddedEntry(o, w, added, i);
    }
  }

  lemma {:induction false} DesiredStays(o: seq<Raw>, w: RouteTable, added: seq<Route>, id: LinkID)
    requires Proper(w) && Visits(added, Missing(o, w), w) && id in w && |Stretched(o, w, added)| >= |o|
    ensures id in OwnedKeys(Cleared(o, w, added))
  {
    var a := Stretched(o, w, added);
    var j := StretchedHolds(o, w, added, id);
    Lands(a, w, |o|, j);
    assert a[j] in Cleared(o, w, added);
  }

  /** An orphan out of reach is gone after one more successful Reconcile: then
      nothing is left to insert. */
  lemma {:induction false} SecondRunReaches(o: seq<Raw>, w: RouteTable, added: seq<Route>, again: seq<Route>)
    requires Proper(w) && Visits(added, Missing(o, w), w)
    requires Visits(again, Missing(Cleared(o, w, added), w), w)
    ensures Missing(Cleared(o, w, added), w) == {} && !OutOfReach(Cleared(o, w, added), w)
    ensures OwnedKeys(Cleared(Cleared(o, w, added), w, again)) == w.Keys
  {
    var t := Cleared(o, w, added);
    forall id | id in w ensures id in OwnedKeys(t) {
      DesiredStays(o, w, added, id);
    }
    InReach(t, w, again);
    var u := Cleared(t, w, again);
    forall id | id in w ensures id in OwnedKeys(u) {
      DesiredStays(t, w, again, id);
    }
    forall x | x in u && IsOwned(x) ensures Key(x) in w {
      FilterMember(Stretched(t, w, again), Keeps(w), x);
    }
  }
}
