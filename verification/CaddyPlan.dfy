/** What a successful Reconcile leaves in the route array (caddy.go:322-413),
    as a function of the snapshot, the wanted routes and the order in which the
    missing ones were visited; and what that result is worth.
 */
module CaddyPlan {
  import opened Ports
  import opened Sequences
  import opened CaddyRoutes

  /** A wanted table holds each route under its own link, and each can be encoded. */
  ghost predicate Proper(w: RouteTable) {
    forall id | id in w :: w[id].linkID == id && Encodable(w[id])
  }

  // ------------------------------------------------------------ phase one

  predicate NeedsRepair(x: Raw, w: RouteTable) {
    IsOwned(x) && Key(x) in w && DecodeRaw(x) != Some(w[Key(x)])
  }

  function RepairOne(x: Raw, w: RouteTable): Raw {
    if NeedsRepair(x, w) then Canon(w[Key(x)]) else x
  }

  function Repaired(s: seq<Raw>, w: RouteTable): (r: seq<Raw>)
    ensures |r| == |s| && forall i :: 0 <= i < |s| ==> r[i] == RepairOne(s[i], w)
  {
    seq(|s|, i requires 0 <= i < |s| => RepairOne(s[i], w))
  }

  lemma {:induction false} RepairKeepsID(x: Raw, w: RouteTable)
    requires Proper(w)
    ensures IDOf(RepairOne(x, w)) == IDOf(x)
    ensures x.Object? ==> RepairOne(x, w).Object?
  {
    if NeedsRepair(x, w) {
      OwnedIDIsRouteID(IDOf(x));
    }
  }

  // ------------------------------------------------------------ phase two

  ghost function Missing(s: seq<Raw>, w: RouteTable): set<LinkID> {
    w.Keys - OwnedKeys(s)
  }

  /** `added` lists each of `ids` once, in some order. */
  ghost predicate Visits(added: seq<Route>, ids: set<LinkID>, w: RouteTable) {
    && DistinctLinks(added)
    && LinksOf(added) == ids
    && forall r | r in added :: r.linkID in w && w[r.linkID] == r
  }

  function Canons(added: seq<Route>): (r: seq<Raw>)
    ensures |r| == |added| && forall i :: 0 <= i < |added| ==> r[i] == Canon(added[i])
  {
    seq(|added|, i requires 0 <= i < |added| => Canon(added[i]))
  }

  function Widened(s: seq<Raw>, w: RouteTable, added: seq<Route>): seq<Raw> {
    var m, f := Repaired(s, w), FallbackAt(s);
    m[..f] + Canons(added) + m[f..]
  }

  // ---------------------------------------------------------- phase three

  predicate Orphan(x: Raw, w: RouteTable) {
    IsOwned(x) && Key(x) !in w
  }

  function Keeps(w: RouteTable): Raw -> bool {
    x => !Orphan(x, w)
  }

  function Kept(s: seq<Raw>, w: RouteTable): seq<Raw> {
    Filter(s, Keeps(w))
  }

  /** The array a successful Reconcile of snapshot `s` ends in. */
  function Reconciled(s: seq<Raw>, w: RouteTable, added: seq<Route>): seq<Raw> {
    Kept(Widened(s, w, added), w)
  }

  // -------------------------------------------------------- what it means

  /** The owned entries of `t` decode to exactly the wanted routes. */
  ghost predicate Faithful(t: seq<Raw>, w: RouteTable) {
    && (forall x | x in t && IsOwned(x) :: Key(x) in w && DecodeRaw(x) == Some(w[Key(x)]))
    && w.Keys <= OwnedKeys(t)
  }

  /** Nothing in `t` is left for Reconcile to write. */
  ghost predicate Settled(t: seq<Raw>, w: RouteTable) {
    && (forall x | x in t :: !NeedsRepair(x, w) && !Orphan(x, w))
    && Missing(t, w) == {}
  }

  /** The widened array is the repaired front, the added routes, and the part
      from the fallback on, which is untouched. */
  lemma {:induction false} WidenedAt(s: seq<Raw>, w: RouteTable, added: seq<Route>, i: nat)
    requires i < |s| + |added|
    ensures var f, a := FallbackAt(s), Widened(s, w, added);
      && |a| == |s| + |added|
      && (i < f ==> a[i] == RepairOne(s[i], w))
      && (f <= i < f + |added| ==> a[i] == Canon(added[i - f]))
      && (f + |added| <= i ==> a[i] == RepairOne(s[i - |added|], w))
  {
    var m, f := Repaired(s, w), FallbackAt(s);
    ConcatAt(m[..f], Canons(added), m[f..], i);
  }

  lemma {:induction false} OwnedBeforeFallback(s: seq<Raw>, i: nat)
    requires FallbackLast(s) && i < |s| && IsOwned(s[i])
    ensures i < FallbackAt(s)
  {
    OwnedIsNotFallback(s[i]);
  }

  lemma {:induction false} AddedEntry(s: seq<Raw>, w: RouteTable, added: seq<Route>, j: nat)
    requires Proper(w) && Visits(added, Missing(s, w), w) && j < |added|
    ensures var x, id := Canon(added[j]), added[j].linkID;
      && x.Object? && IsOwned(x) && IDOf(x) == RouteID(id) && !IsFallback(x) && Key(x) == id
      && id !in OwnedKeys(s) && id in w && DecodeRaw(x) == Some(w[id])
  {
    assert added[j] in added;
    assert added[j].linkID in LinksOf(added);
    CanonFacts(added[j]);
  }

  /** Where an identity of the widened array comes from. */
  lemma {:induction false} WidenedIDs(s: seq<Raw>, w: RouteTable, added: seq<Route>, i: nat)
    requires WellFormed(s) && Proper(w) && Visits(added, Missing(s, w), w) && i < |s| + |added|
    ensures var f, a := FallbackAt(s), Widened(s, w, added);
      && a[i].Object?
      && (i < f ==> IDOf(a[i]) == IDOf(s[i]))
      && (f <= i < f + |added| ==> a[i] == Canon(added[i - f]))
      && (f + |added| <= i ==> a[i] == s[i - |added|] && !IsOwned(a[i]))
  {
    WidenedAt(s, w, added, i);
    var f := FallbackAt(s);
    if i < f {
      RepairKeepsID(s[i], w);
    } else if f + |added| <= i {
      if IsOwned(s[i - |added|]) {
        OwnedBeforeFallback(s, i - |added|);
      }
    }
  }

  lemma {:induction false} WidenedUnique(s: seq<Raw>, w: RouteTable, added: seq<Route>, i: nat, j: nat)
    requires WellFormed(s) && Proper(w) && Visits(added, Missing(s, w), w) && i < j < |s| + |added|
    requires IsOwned(Widened(s, w, added)[i]) && IsOwned(Widened(s, w, added)[j])
    ensures IDOf(Widened(s, w, added)[i]) != IDOf(Widened(s, w, added)[j])
  {
    var f := FallbackAt(s);
    WidenedIDs(s, w, added, i);
    WidenedIDs(s, w, added, j);
    if f <= j {
      AddedEntry(s, w, added, j - f);
      if i < f {
        assert s[i] in s;
        assert Key(s[i]) in OwnedKeys(s);
      } else {
        AddedEntry(s, w, added, i - f);
      }
    }
  }

  lemma {:induction false} WidenedFallbackLast(s: seq<Raw>, w: RouteTable, added: seq<Route>, i: nat, j: nat)
    requires WellFormed(s) && Proper(w) && Visits(added, Missing(s, w), w) && i < j < |s| + |added|
    requires IsFallback(Widened(s, w, added)[i])
    ensures !IsOwned(Widened(s, w, added)[j])
  {
    var f := FallbackAt(s);
    WidenedIDs(s, w, added, i);
    WidenedIDs(s, w, added, j);
    if f <= i < f + |added| {
      AddedEntry(s, w, added, i - f);
    }
  }

  lemma {:induction false} WidenedWellFormed(s: seq<Raw>, w: RouteTable, added: seq<Route>)
    requires WellFormed(s) && Proper(w) && Visits(added, Missing(s, w), w)
    ensures WellFormed(Widened(s, w, added))
  {
    var a := Widened(s, w, added);
    forall i | 0 <= i < |a| ensures a[i].Object? {
      WidenedIDs(s, w, added, i);
    }
    forall i, j | 0 <= i < j < |a| && IsOwned(a[i]) && IsOwned(a[j]) ensures IDOf(a[i]) != IDOf(a[j]) {
      WidenedUnique(s, w, added, i, j);
    }
    forall i, j | 0 <= i < j < |a| && IsFallback(a[i]) ensures !IsOwned(a[j]) {
      WidenedFallbackLast(s, w, added, i, j);
    }
  }

  lemma {:induction false} KeptWellFormed(s: seq<Raw>, w: RouteTable)
    requires WellFormed(s)
    ensures WellFormed(Kept(s, w))
  {
    var k, p := Kept(s, w), Keeps(w);
    forall i | 0 <= i < |k| ensures k[i].Object? {
      FilterMember(s, p, k[i]);
    }
    forall i, j | 0 <= i < j < |k|
      ensures IsOwned(k[i]) && IsOwned(k[j]) ==> IDOf(k[i]) != IDOf(k[j])
      ensures IsFallback(k[i]) ==> !IsOwned(k[j])
    {
      var i', j' := FilterOrder(s, p, i, j);
    }
  }

  /** Whatever Reconcile leaves behind is again an array it is designed for. */
  lemma {:induction false} ReconciledWellFormed(s: seq<Raw>, w: RouteTable, added: seq<Route>)
    requires WellFormed(s) && Proper(w) && Visits(added, Missing(s, w), w)
    ensures WellFormed(Reconciled(s, w, added))
  {
    WidenedWellFormed(s, w, added);
    KeptWellFormed(Widened(s, w, added), w);
  }

  // --------------------------------------------------- foreign entries stay

  lemma {:induction false} RepairedForeign(s: seq<Raw>, w: RouteTable)
    requires Proper(w)
    ensures Foreign(Repaired(s, w)) == Foreign(s)
  {
    if s != [] {
      RepairedForeign(s[1..], w);
      assert Repaired(s, w)[1..] == Repaired(s[1..], w);
      RepairKeepsID(s[0], w);
    }
  }

  lemma {:induction false} KeptForeign(s: seq<Raw>, w: RouteTable)
    ensures Foreign(Kept(s, w)) == Foreign(s)
  {
    if s != [] {
      KeptForeign(s[1..], w);
      FilterConcat(One(s[0], Keeps(w)), Kept(s[1..], w), IsForeign);
    }
  }

  lemma {:induction false} CanonsForeign(added: seq<Route>)
    requires forall r | r in added :: Encodable(r)
    ensures Foreign(Canons(added)) == []
  {
    forall x | x in Canons(added) ensures !IsForeign(x) {
      var i :| 0 <= i < |added| && Canons(added)[i] == x;
      assert added[i] in added;
      CanonFacts(added[i]);
    }
    FilterNone(Canons(added), IsForeign);
  }

  /** Every entry of another controller keeps its bytes and its relative order. */
  lemma {:induction false} ReconciledForeign(s: seq<Raw>, w: RouteTable, added: seq<Route>)
    requires Proper(w) && (forall r | r in added :: Encodable(r))
    ensures Foreign(Reconciled(s, w, added)) == Foreign(s)
  {
    KeptForeign(Widened(s, w, added), w);
    var m, f, c := Repaired(s, w), FallbackAt(s), Canons(added);
    var front, back := m[..f], m[f..];
    FilterConcat(front + c, back, IsForeign);
    FilterConcat(front, c, IsForeign);
    CanonsForeign(added);
    FilterSplit(m, f, IsForeign);
    RepairedForeign(s, w);
  }

  // ------------------------------------------------- owned entries are exact

  lemma {:induction false} OwnedIndex(s: seq<Raw>, id: LinkID) returns (i: nat)
    requires id in OwnedKeys(s)
    ensures i < |s| && IsOwned(s[i]) && Key(s[i]) == id
  {
    var x :| x in s && IsOwned(x) && Key(x) == id;
    i :| 0 <= i < |s| && s[i] == x;
  }

  lemma {:induction false} VisitedIndex(added: seq<Route>, ids: set<LinkID>, w: RouteTable, id: LinkID) returns (j: nat)
    requires Visits(added, ids, w) && id in ids
    ensures j < |added| && added[j].linkID == id
  {
    assert id in LinksOf(added);
    var r :| r in added && r.linkID == id;
    j :| 0 <= j < |added| && added[j] == r;
  }

  lemma {:induction false} WidenedKeepsOwned(s: seq<Raw>, w: RouteTable, added: seq<Route>, i: nat)
    requires WellFormed(s) && Proper(w) && Visits(added, Missing(s, w), w) && i < |s| && IsOwned(s[i])
    ensures IDOf(Widened(s, w, added)[i]) == IDOf(s[i])
  {
    OwnedBeforeFallback(s, i);
    WidenedIDs(s, w, added, i);
  }

  lemma {:induction false} WidenedShowsAdded(s: seq<Raw>, w: RouteTable, added: seq<Route>, i: nat)
    requires WellFormed(s) && Proper(w) && Visits(added, Missing(s, w), w)
    requires FallbackAt(s) <= i < FallbackAt(s) + |added|
    ensures i < |Widened(s, w, added)| && Widened(s, w, added)[i] == Canon(added[i - FallbackAt(s)])
    ensures IsOwned(Widened(s, w, added)[i]) && Key(Widened(s, w, added)[i]) == added[i - FallbackAt(s)].linkID
  {
    WidenedIDs(s, w, added, i);
    AddedEntry(s, w, added, i - FallbackAt(s));
  }

  lemma {:induction false} WidenedHolds(s: seq<Raw>, w: RouteTable, added: seq<Route>, id: LinkID) returns (i: nat)
    requires WellFormed(s) && Proper(w) && Visits(added, Missing(s, w), w) && id in w
    ensures i < |Widened(s, w, added)|
    ensures IsOwned(Widened(s, w, added)[i]) && Key(Widened(s, w, added)[i]) == id
  {
    if id in OwnedKeys(s) {
      i := OwnedIndex(s, id);
      WidenedKeepsOwned(s, w, added, i);
    } else {
      var j := VisitedIndex(added, Missing(s, w), w, id);
      i := FallbackAt(s) + j;
      WidenedShowsAdded(s, w, added, i);
    }
  }

  lemma {:induction false} WidenedDecodes(s: seq<Raw>, w: RouteTable, added: seq<Route>, i: nat)
    requires WellFormed(s) && Proper(w) && Visits(added, Missing(s, w), w) && i < |s| + |added|
    ensures var x := Widened(s, w, added)[i];
      IsOwned(x) && Key(x) in w ==> DecodeRaw(x) == Some(w[Key(x)])
  {
    WidenedIDs(s, w, added, i);
    WidenedAt(s, w, added, i);
    var f := FallbackAt(s);
    if i < f {
      var x := s[i];
      RepairKeepsID(x, w);
      if NeedsRepair(x, w) {
        CanonFacts(w[Key(x)]);
      }
    } else if i < f + |added| {
      AddedEntry(s, w, added, i - f);
    }
  }

  /** The owned entries decode to exactly the wanted routes. */
  lemma {:induction false} ReconciledFaithful(s: seq<Raw>, w: RouteTable, added: seq<Route>)
    requires WellFormed(s) && Proper(w) && Visits(added, Missing(s, w), w)
    ensures Faithful(Reconciled(s, w, added), w)
  {
    var a, t := Widened(s, w, added), Reconciled(s, w, added);
    forall x | x in t && IsOwned(x) ensures Key(x) in w && DecodeRaw(x) == Some(w[Key(x)]) {
      FilterMember(a, Keeps(w), x);
      var i :| 0 <= i < |a| && a[i] == x;
      WidenedDecodes(s, w, added, i);
    }
    forall id | id in w ensures id in OwnedKeys(t) {
      var i := WidenedHolds(s, w, added, id);
      FilterMember(a, Keeps(w), a[i]);
    }
  }

  /** A faithful array shows exactly the wanted table, one entry per link. */
  lemma {:induction false} FaithfulView(t: seq<Raw>, w: RouteTable)
    requires UniqueOwned(t) && Faithful(t, w) && Proper(w)
    ensures View(t) == w
  {
    forall id | id in View(t) ensures id in w {
      ViewKeys(t, id);
      var i :| ShownAt(t, i, id);
      DecodedIsEncodable(t[i].route);
      RouteIDRoundTrip(id);
      assert t[i] in t;
    }
    forall id | id in w ensures id in View(t) && View(t)[id] == w[id] {
      var i := OwnedIndex(t, id);
      assert t[i] in t;
      ViewAt(t, i);
    }
  }

  /** A faithful array needs no write: Reconcile is idempotent. The converse
      holds too, so Settled is exactly the fixed-point condition. */
  lemma {:induction false} FaithfulIffSettled(t: seq<Raw>, w: RouteTable)
    requires AllParsed(t)
    ensures Faithful(t, w) <==> Settled(t, w)
  {
    if Settled(t, w) {
      forall x | x in t && IsOwned(x) ensures Key(x) in w && DecodeRaw(x) == Some(w[Key(x)]) {
        assert !NeedsRepair(x, w) && !Orphan(x, w);
      }
      forall id | id in w ensures id in OwnedKeys(t) {
        assert id !in Missing(t, w);
      }
    }
    if Faithful(t, w) {
      forall x | x in t ensures !NeedsRepair(x, w) && !Orphan(x, w) {
      }
    }
  }

  lemma {:induction false} NoLinks(rs: seq<Route>)
    ensures LinksOf(rs) == {} ==> rs == []
  {
    if rs != [] {
      assert rs[0].linkID in LinksOf(rs);
    }
  }

  lemma {:induction false} NothingToWiden(s: seq<Raw>, w: RouteTable)
    requires Repaired(s, w) == s
    ensures Widened(s, w, []) == s
  {
    assert Canons([]) == [];
    assert s[..FallbackAt(s)] + [] + s[FallbackAt(s)..] == s;
  }

  /** A settled snapshot gives no phase anything to write. */
  lemma {:induction false} SettledPhases(s: seq<Raw>, w: RouteTable, added: seq<Route>)
    requires Settled(s, w) && Visits(added, Missing(s, w), w)
    ensures w - OwnedKeys(s) == map[] && Widened(s, w, added) == s
  {
    NoLinks(added);
    assert forall i :: 0 <= i < |s| ==> s[i] in s;
    assert Repaired(s, w) == s;
    NothingToWiden(s, w);
  }

  /** A settled array is left as it is. */
  lemma {:induction false} SettledResult(s: seq<Raw>, w: RouteTable, added: seq<Route>)
    requires Settled(s, w) && Visits(added, Missing(s, w), w)
    ensures Reconciled(s, w, added) == s
  {
    SettledPhases(s, w, added);
    FilterAll(s, Keeps(w));
  }

  lemma {:induction false} ListedMember(t: seq<Raw>, r: Route)
    ensures r in Listed(t) <==> exists x :: x in t && DecodeRaw(x) == Some(r)
  {
    if t != [] {
      ListedMember(t[1..], r);
      assert forall x :: x in t <==> x == t[0] || x in t[1..];
    }
  }

  lemma {:induction false} ListedOnce(t: seq<Raw>)
    requires UniqueOwned(t)
    ensures NoDuplicates(Listed(t))
  {
    if t != [] {
      ListedOnce(t[1..]);
      if DecodeRaw(t[0]).Some? {
        var r := DecodeRaw(t[0]).value;
        ListedMember(t[1..], r);
        DecodedIsEncodable(t[0].route);
        forall x | x in t[1..] && DecodeRaw(x) == Some(r) ensures false {
          var i :| 0 <= i < |t[1..]| && t[1..][i] == x;
          assert t[i + 1] == x;
          DecodedIsEncodable(x.route);
        }
      }
    }
  }

  /** List then returns the desired list, reordered. */
  lemma {:induction false} FaithfulListed(t: seq<Raw>, w: RouteTable, desired: seq<Route>)
    requires UniqueOwned(t) && Faithful(t, w) && Proper(w)
    requires DistinctLinks(desired) && Tabulates(w, desired)
    ensures multiset(Listed(t)) == multiset(desired)
  {
    ListedOnce(t);
    forall r ensures r in Listed(t) <==> r in desired {
      ListedMember(t, r);
      if r in desired {
        var i := OwnedIndex(t, r.linkID);
        assert t[i] in t;
      }
      if x :| x in t && DecodeRaw(x) == Some(r) {
        DecodedIsEncodable(x.route);
        assert r.linkID in LinksOf(desired);
      }
    }
    SameElementsPermute(Listed(t), desired);
  }
}
