/** When a rollback that partly fails can reach an entry of another controller
    (caddy.go:282-303, 338-341, 395-407). A PutBack addresses a fixed slot; deletions
    that were not undone shift later entries into it. Whether a foreign entry can
    be shifted into the slot of an entry that needed repair can be read off the
    snapshot and the desired routes.
 */
module CaddyExposure {
  import opened Ports
  import opened Sequences
  import opened CaddyRoutes
  import opened CaddyUndo
  import opened CaddyPlan
  import opened CaddyAdmin

  /** The number of entries Reconcile would delete. */
  function Orphans(s: seq<Raw>, w: RouteTable): nat {
    if s == [] then 0 else Orphans(s[..|s| - 1], w) + if Orphan(s[|s| - 1], w) then 1 else 0
  }

  /** Entry `i` needs repair, and deleting enough of the entries before `k` brings
      the foreign entry `k` into its slot. */
  predicate Shot(o: seq<Raw>, w: RouteTable, i: int, k: int) {
    0 <= i < k < |o| && NeedsRepair(o[i], w) && IsForeign(o[k]) && k - i <= Orphans(o[..k], w)
  }

  /** Some entry of another controller is in reach of a partly failing rollback. */
  predicate Exposed(o: seq<Raw>, w: RouteTable) {
    exists i, k | 0 <= i < |o| && 0 <= k < |o| :: Shot(o, w, i, k)
  }

  // -------------------------------------------------------------- counting

  /** The links of the array that are desired. */
  ghost function WantedKeys(o: seq<Raw>, w: RouteTable): set<LinkID> {
    set id | id in OwnedKeys(o) && id in w
  }

  lemma {:induction false} UniquePrefix(s: seq<Raw>, n: nat)
    requires UniqueOwned(s) && n <= |s|
    ensures UniqueOwned(s[..n])
  {
  }

  lemma {:induction false} ForeignStep(s: seq<Raw>)
    requires s != []
    ensures |Foreign(s)| == |Foreign(s[..|s| - 1])| + if IsOwned(s[|s| - 1]) then 0 else 1
  {
    var n := |s| - 1;
    assert s == s[..n] + [s[n]] + [];
    FilterMid(s[..n], s[n], [], IsForeign);
  }

  lemma {:induction false} OwnedKeysLast(s: seq<Raw>)
    requires s != [] && UniqueOwned(s)
    ensures |OwnedKeys(s)| == |OwnedKeys(s[..|s| - 1])| + if IsOwned(s[|s| - 1]) then 1 else 0
  {
    OwnedKeysStep(s, |s| - 1);
    assert s[..|s|] == s;
  }

  lemma {:induction false} WantedLast(s: seq<Raw>, w: RouteTable)
    requires s != [] && UniqueOwned(s)
    ensures var n := |s| - 1;
      |WantedKeys(s, w)| == |WantedKeys(s[..n], w)| + if IsOwned(s[n]) && Key(s[n]) in w then 1 else 0
  {
    var n := |s| - 1;
    OwnedKeysStep(s, n);
    assert s[..n + 1] == s;
    if IsOwned(s[n]) && Key(s[n]) in w {
      assert WantedKeys(s, w) == WantedKeys(s[..n], w) + {Key(s[n])};
    } else {
      assert WantedKeys(s, w) == WantedKeys(s[..n], w);
    }
  }

  /** With unique identities an array is its foreign entries and its links, and
      its links are the desired ones and the orphans. */
  lemma {:induction false} Counted(s: seq<Raw>, w: RouteTable)
    requires UniqueOwned(s)
    ensures |s| == |Foreign(s)| + |OwnedKeys(s)|
    ensures |OwnedKeys(s)| == |WantedKeys(s, w)| + Orphans(s, w)
  {
    if s == [] {
      assert OwnedKeys(s) == {} == WantedKeys(s, w);
    } else {
      UniquePrefix(s, |s| - 1);
      Counted(s[..|s| - 1], w);
      ForeignStep(s);
      OwnedKeysLast(s);
      WantedLast(s, w);
    }
  }

  lemma {:induction false} OwnedKeysConcat(a: seq<Raw>, b: seq<Raw>)
    ensures OwnedKeys(a + b) == OwnedKeys(a) + OwnedKeys(b)
  {
    forall id ensures id in OwnedKeys(a + b) <==> id in OwnedKeys(a) + OwnedKeys(b) {
      if id in OwnedKeys(a + b) {
        var x :| x in a + b && IsOwned(x) && Key(x) == id;
        assert x in a || x in b;
      }
      if id in OwnedKeys(a) {
        var x :| x in a && IsOwned(x) && Key(x) == id;
        assert x in a + b;
      }
      if id in OwnedKeys(b) {
        var x :| x in b && IsOwned(x) && Key(x) == id;
        assert x in a + b;
      }
    }
  }

  // -------------------------------------------- where foreign entries can be

  /** `s[q]` and `o[k]` are the same foreign entry: as many precede each. */
  ghost predicate Same(s: seq<Raw>, q: int, o: seq<Raw>, k: int) {
    && 0 <= q < |s| && 0 <= k < |o| && IsForeign(s[q]) && IsForeign(o[k])
    && |Foreign(s[..q])| == |Foreign(o[..k])|
  }

  /** In front of it are at least the desired links that were in front of it, and
      before the fallback no other links than those. */
  ghost predicate Between(s: seq<Raw>, q: int, o: seq<Raw>, k: int, w: RouteTable)
    requires 0 <= q <= |s| && 0 <= k <= |o|
  {
    && WantedKeys(o[..k], w) <= OwnedKeys(s[..q])
    && (k < FallbackAt(o) ==> OwnedKeys(s[..q]) <= OwnedKeys(o[..k]))
  }

  /** What every array between the snapshot and the restored snapshot keeps. */
  ghost predicate Placed(o: seq<Raw>, w: RouteTable, s: seq<Raw>) {
    && UniqueOwned(s) && Foreign(s) == Foreign(o)
    && forall q, k :: Same(s, q, o, k) ==> Between(s, q, o, k, w)
  }

  lemma {:induction false} RankBelow(s: seq<Raw>, q: nat)
    requires q < |s| && IsForeign(s[q])
    ensures |Foreign(s[..q])| < |Foreign(s)|
  {
    FilterAround(s, q, IsForeign);
  }

  lemma {:induction false} RankGrows(s: seq<Raw>, p: nat, q: nat)
    requires p < q <= |s| && IsForeign(s[p])
    ensures |Foreign(s[..p])| < |Foreign(s[..q])|
  {
    assert s[..q][..p] == s[..p];
    RankBelow(s[..q], p);
  }

  lemma {:induction false} RankWeakly(s: seq<Raw>, p: nat, q: nat)
    requires p <= q <= |s|
    ensures |Foreign(s[..p])| <= |Foreign(s[..q])|
  {
    assert s[..q][..p] == s[..p];
    FilterSplit(s[..q], p, IsForeign);
  }

  /** Every rank below the number of foreign entries is that of one of them. */
  lemma {:induction false} RankTaken(o: seq<Raw>, r: nat) returns (k: nat)
    requires r < |Foreign(o)|
    ensures k < |o| && IsForeign(o[k]) && |Foreign(o[..k])| == r
  {
    var n := |o| - 1;
    assert o == o[..n] + [o[n]];
    FilterConcat(o[..n], [o[n]], IsForeign);
    if r < |Foreign(o[..n])| {
      k := RankTaken(o[..n], r);
      assert o[..n][..k] == o[..k];
    } else {
      k := n;
    }
  }

  /** Before the fallback a foreign entry never moves back, and it comes forward
      at most by the orphans that were in front of it. */
  lemma {:induction false} Displacement(o: seq<Raw>, w: RouteTable, s: seq<Raw>, q: nat, k: nat)
    requires UniqueOwned(o) && Placed(o, w, s) && Same(s, q, o, k)
    ensures k - Orphans(o[..k], w) <= q
    ensures k < FallbackAt(o) ==> q <= k
  {
    UniquePrefix(s, q);
    UniquePrefix(o, k);
    Counted(s[..q], w);
    Counted(o[..k], w);
    assert Between(s, q, o, k, w);
    Cardinality(WantedKeys(o[..k], w), OwnedKeys(s[..q]));
    if k < FallbackAt(o) {
      Cardinality(OwnedKeys(s[..q]), OwnedKeys(o[..k]));
    }
  }

  lemma {:induction false} Cardinality<T>(a: set<T>, b: set<T>)
    requires a <= b
    ensures |a| <= |b|
  {
    assert b == a + (b - a);
  }

  /** A foreign entry in the slot of an entry that needed repair was in reach. */
  lemma {:induction false} SlotIsSafe(o: seq<Raw>, w: RouteTable, s: seq<Raw>, i: nat)
    requires WellFormed(o) && Placed(o, w, s) && i < |o| && NeedsRepair(o[i], w)
    requires i < |s| && IsForeign(s[i])
    ensures Exposed(o, w)
  {
    RankBelow(s, i);
    var k := RankTaken(o, |Foreign(s[..i])|);
    assert Same(s, i, o, k);
    Displacement(o, w, s, i, k);
    OwnedBeforeFallback(o, i);
    assert i != k;
    assert Shot(o, w, i, k);
  }

  // -------------------------------------------------- what keeps them placed

  lemma {:induction false} PlacedStart(o: seq<Raw>, w: RouteTable)
    requires UniqueOwned(o)
    ensures Placed(o, w, o)
  {
    forall q, k | Same(o, q, o, k) ensures Between(o, q, o, k, w) {
      if q < k {
        RankGrows(o, q, k);
      } else if k < q {
        RankGrows(o, k, q);
      }
    }
  }

  lemma {:induction false} PutKeys(s: seq<Raw>, p: nat, x: Raw, q: nat)
    requires p < |s| && q <= |s| && IsOwned(s[p]) && IDOf(x) == IDOf(s[p])
    ensures OwnedKeys(s[p := x][..q]) == OwnedKeys(s[..q]) && Foreign(s[p := x][..q]) == Foreign(s[..q])
  {
    if p < q {
      var a, b := s[..p], s[p + 1..q];
      assert s[..q] == a + [s[p]] + b && s[p := x][..q] == a + [x] + b;
      OwnedKeysConcat(a + [s[p]], b);
      OwnedKeysConcat(a, [s[p]]);
      OwnedKeysConcat(a + [x], b);
      OwnedKeysConcat(a, [x]);
      OneKey(s[p]);
      OneKey(x);
      FilterMid(a, s[p], b, IsForeign);
      FilterMid(a, x, b, IsForeign);
    } else {
      assert s[p := x][..q] == s[..q];
    }
  }

  lemma {:induction false} OneKey(x: Raw)
    requires IsOwned(x)
    ensures OwnedKeys([x]) == {Key(x)}
  {
    assert x in [x];
  }

  /** Rewriting an owned entry under its own identity. */
  lemma {:induction false} PlacedPut(o: seq<Raw>, w: RouteTable, s: seq<Raw>, p: nat, x: Raw)
    requires Placed(o, w, s) && p < |s| && IsOwned(s[p]) && IDOf(x) == IDOf(s[p])
    ensures Placed(o, w, s[p := x])
  {
    var t := s[p := x];
    forall i, j | 0 <= i < j < |t| && IsOwned(t[i]) && IsOwned(t[j]) ensures IDOf(t[i]) != IDOf(t[j]) {
      assert IDOf(t[i]) == IDOf(s[i]) && IDOf(t[j]) == IDOf(s[j]);
    }
    PutKeys(s, p, x, |s|);
    assert s[..|s|] == s && t[..|s|] == t;
    forall q, k | Same(t, q, o, k) ensures Between(t, q, o, k, w) {
      PutKeys(s, p, x, q);
      assert q != p;
      assert Same(s, q, o, k);
    }
  }

  lemma {:induction false} MidKeys(a: seq<Raw>, x: Raw, b: seq<Raw>)
    requires IsOwned(x)
    ensures OwnedKeys(a + [x] + b) == OwnedKeys(a + b) + {Key(x)}
  {
    OwnedKeysConcat(a + [x], b);
    OwnedKeysConcat(a, [x]);
    OwnedKeysConcat(a, b);
    OneKey(x);
    var m, n, k := OwnedKeys(a), OwnedKeys(b), {Key(x)};
    assert m + k + n == m + n + k;
  }

  lemma {:induction false} MidForeign(a: seq<Raw>, x: Raw, b: seq<Raw>)
    requires IsOwned(x)
    ensures Foreign(a + [x] + b) == Foreign(a + b)
  {
    FilterMid(a, x, b, IsForeign);
    FilterConcat(a, b, IsForeign);
  }

  /** An array with one more entry, seen up to a position behind it. */
  lemma {:induction false} InsertKeys(s: seq<Raw>, p: nat, x: Raw, q: nat)
    requires p <= q <= |s| && IsOwned(x)
    ensures var t := s[..p] + [x] + s[p..];
      && OwnedKeys(t[..q + 1]) == OwnedKeys(s[..q]) + {Key(x)} && Foreign(t[..q + 1]) == Foreign(s[..q])
  {
    var t := s[..p] + [x] + s[p..];
    assert s[..q] == s[..p] + s[p..q];
    assert t[..q + 1] == s[..p] + [x] + s[p..q];
    MidKeys(s[..p], x, s[p..q]);
    MidForeign(s[..p], x, s[p..q]);
  }

  ghost predicate MayPrecede(o: seq<Raw>, s: seq<Raw>, p: nat, key: LinkID) {
    forall q, k :: Same(s, q, o, k) && p <= q && k < FallbackAt(o) ==> key in OwnedKeys(o[..k])
  }

  lemma {:induction false} InsertUnique(s: seq<Raw>, p: nat, x: Raw)
    requires UniqueOwned(s) && p <= |s| && IsOwned(x) && Key(x) !in OwnedKeys(s)
    ensures UniqueOwned(s[..p] + [x] + s[p..])
  {
    var t := s[..p] + [x] + s[p..];
    forall i, j | 0 <= i < j < |t| && IsOwned(t[i]) && IsOwned(t[j]) ensures IDOf(t[i]) != IDOf(t[j]) {
      var i', j' := if i < p then i else i - 1, if j < p then j else j - 1;
      assert i != p ==> t[i] == s[i'] && s[i'] in s && Key(s[i']) in OwnedKeys(s);
      assert j != p ==> t[j] == s[j'] && s[j'] in s && Key(s[j']) in OwnedKeys(s);
    }
  }

  lemma {:induction false} SameBefore(o: seq<Raw>, s: seq<Raw>, p: nat, x: Raw, q: nat, k: nat)
    requires p <= |s| && Same(s[..p] + [x] + s[p..], q, o, k) && q < p
    ensures Same(s, q, o, k) && (s[..p] + [x] + s[p..])[..q] == s[..q]
  {
    assert (s[..p] + [x] + s[p..])[..q] == s[..q];
  }

  lemma {:induction false} SameBehind(o: seq<Raw>, s: seq<Raw>, p: nat, x: Raw, q: nat, k: nat)
    requires p <= |s| && IsOwned(x) && Same(s[..p] + [x] + s[p..], q, o, k) && p < q
    ensures Same(s, q - 1, o, k)
    ensures OwnedKeys((s[..p] + [x] + s[p..])[..q]) == OwnedKeys(s[..q - 1]) + {Key(x)}
  {
    InsertedAt(s, p, x, q);
    InsertKeys(s, p, x, q - 1);
  }

  /** Inserting an owned entry of a link that was not shown. */
  lemma {:induction false} PlacedInsert(o: seq<Raw>, w: RouteTable, s: seq<Raw>, p: nat, x: Raw)
    requires Placed(o, w, s) && p <= |s| && IsOwned(x) && Key(x) !in OwnedKeys(s) && MayPrecede(o, s, p, Key(x))
    ensures Placed(o, w, s[..p] + [x] + s[p..])
  {
    var t := s[..p] + [x] + s[p..];
    InsertUnique(s, p, x);
    PostForeign(s, p, x);
    forall q, k | Same(t, q, o, k) ensures Between(t, q, o, k, w) {
      assert q != p;
      if q < p {
        SameBefore(o, s, p, x, q, k);
      } else {
        SameBehind(o, s, p, x, q, k);
      }
    }
  }

  lemma {:induction false} DeleteUnique(s: seq<Raw>, p: nat)
    requires UniqueOwned(s) && p < |s|
    ensures UniqueOwned(s[..p] + s[p + 1..])
  {
    var t := s[..p] + s[p + 1..];
    forall i, j | 0 <= i < j < |t| && IsOwned(t[i]) && IsOwned(t[j]) ensures IDOf(t[i]) != IDOf(t[j]) {
      var i', j' := if i < p then i else i + 1, if j < p then j else j + 1;
      assert t[i] == s[i'] && t[j] == s[j'];
    }
  }

  lemma {:induction false} StillBehind(o: seq<Raw>, w: RouteTable, s: seq<Raw>, p: nat, q: nat, k: nat)
    requires Placed(o, w, s) && p < |s| && IsOwned(s[p]) && !(Key(s[p]) in w && Key(s[p]) in OwnedKeys(o))
    requires Same(s[..p] + s[p + 1..], q, o, k) && p <= q
    ensures Between(s[..p] + s[p + 1..], q, o, k, w)
  {
    var t := s[..p] + s[p + 1..];
    assert s == t[..p] + [s[p]] + t[p..];
    InsertKeys(t, p, s[p], q);
    assert Same(s, q + 1, o, k);
    WantedPrefix(o, w, k);
  }

  /** Deleting an owned entry of a link that is not both in the snapshot and desired. */
  lemma {:induction false} PlacedDelete(o: seq<Raw>, w: RouteTable, s: seq<Raw>, p: nat)
    requires Placed(o, w, s) && p < |s| && IsOwned(s[p]) && !(Key(s[p]) in w && Key(s[p]) in OwnedKeys(o))
    ensures Placed(o, w, s[..p] + s[p + 1..])
  {
    var t := s[..p] + s[p + 1..];
    DelForeign(s, p);
    DeleteUnique(s, p);
    forall q, k | Same(t, q, o, k) ensures Between(t, q, o, k, w) {
      if q < p {
        assert t[..q] == s[..q];
        assert Same(s, q, o, k);
      } else {
        StillBehind(o, w, s, p, q, k);
      }
    }
  }

  lemma {:induction false} WantedPrefix(o: seq<Raw>, w: RouteTable, k: nat)
    requires k <= |o|
    ensures WantedKeys(o[..k], w) <= WantedKeys(o, w) && OwnedKeys(o[..k]) <= OwnedKeys(o)
  {
    assert o == o[..k] + o[k..];
    OwnedKeysConcat(o[..k], o[k..]);
  }

  // ------------------------------------------------- forward writes

  lemma {:induction false} FallbackRank(s: seq<Raw>)
    ensures FallbackAt(Foreign(s)) == |Foreign(s[..FallbackAt(s)])|
  {
    var f := FallbackAt(s);
    var front, back := Foreign(s[..f]), Foreign(s[f..]);
    FilterSplit(s, f, IsForeign);
    forall j | 0 <= j < |front| ensures !IsFallback(front[j]) {
      FilterMember(s[..f], IsForeign, front[j]);
    }
    if f < |s| {
      assert s[f..][0] == s[f];
      if IsOwned(s[f]) {
        OwnedIsNotFallback(s[f]);
      }
      assert back[0] == s[f];
    } else {
      assert s[f..] == [];
    }
    FallbackAtUnique(Foreign(s), |front|);
  }

  /** What is behind the fallback was behind it in the snapshot. */
  lemma {:induction false} BehindFallback(o: seq<Raw>, s: seq<Raw>, q: nat, k: nat)
    requires Foreign(s) == Foreign(o) && Same(s, q, o, k) && FallbackAt(s) <= q
    ensures FallbackAt(o) <= k
  {
    FallbackRank(s);
    FallbackRank(o);
    RankWeakly(s, FallbackAt(s), q);
    if k < FallbackAt(o) {
      RankGrows(o, k, FallbackAt(o));
    }
  }

  /** A new route is inserted in front of the fallback. */
  lemma {:induction false} PlacedAdded(o: seq<Raw>, w: RouteTable, s: seq<Raw>, x: Raw)
    requires Placed(o, w, s) && IsOwned(x) && forall y :: y in s ==> IDOf(y) != IDOf(x)
    ensures Placed(o, w, s[..FallbackAt(s)] + [x] + s[FallbackAt(s)..])
  {
    if Key(x) in OwnedKeys(s) {
      var y :| y in s && IsOwned(y) && Key(y) == Key(x);
      OwnedIDIsRouteID(IDOf(x));
      OwnedIDIsRouteID(IDOf(y));
    }
    forall q, k | Same(s, q, o, k) && FallbackAt(s) <= q ensures FallbackAt(o) <= k {
      BehindFallback(o, s, q, k);
    }
    PlacedInsert(o, w, s, FallbackAt(s), x);
  }

  // ----------------------------------------------------- compensations

  /** What Reconcile stacks in front of a write. */
  predicate Staged(o: seq<Raw>, w: RouteTable, u: Undo) {
    match u
    case PutBack(i, before) => i < |o| && NeedsRepair(o[i], w) && before == o[i]
    case TakeOut(id) => id in w && id != "" && !(exists x | x in o :: IsOwned(x) && Key(x) == id)
    case Reinsert(j, before) => j < |o| && Orphan(o[j], w) && before == o[j]
  }

  /** Repairs come first. */
  predicate RepairsFirst(undos: seq<Undo>) {
    forall p, q :: 0 <= p < q < |undos| && undos[q].PutBack? ==> undos[p].PutBack?
  }

  predicate Stacked(o: seq<Raw>, w: RouteTable, undos: seq<Undo>) {
    (forall u | u in undos :: Staged(o, w, u)) && RepairsFirst(undos)
  }

  lemma {:induction false} OrphanAbsent(o: seq<Raw>, w: RouteTable, s: seq<Raw>, j: nat)
    requires UniqueOwned(o) && Proper(w) && Sourced(s, o, w) && j < |o| && Orphan(o[j], w) && o[j] !in s
    ensures Key(o[j]) !in OwnedKeys(s)
  {
    OwnedIDIsRouteID(IDOf(o[j]));
    forall x | x in s && IsOwned(x) ensures Key(x) != Key(o[j]) {
      OwnedIDIsRouteID(IDOf(x));
      if x in o {
        var i :| 0 <= i < |o| && o[i] == x;
        assert i != j;
      } else {
        var id :| id in w && x == Canon(w[id]);
        CanonFacts(w[id]);
      }
    }
  }

  lemma {:induction false} KeyShown(o: seq<Raw>, j: nat, k: nat)
    requires j < k <= |o| && IsOwned(o[j])
    ensures Key(o[j]) in OwnedKeys(o[..k])
  {
    assert o[..k][j] == o[j];
  }

  lemma {:induction false} OrphanInFront(o: seq<Raw>, w: RouteTable, s: seq<Raw>, j: nat, q: nat, k: nat)
    requires WellFormed(o) && Placed(o, w, s) && j < |o| && Orphan(o[j], w)
    requires Same(s, q, o, k) && j <= q && k < FallbackAt(o)
    ensures Key(o[j]) in OwnedKeys(o[..k])
  {
    Displacement(o, w, s, q, k);
    assert j != k;
    KeyShown(o, j, k);
  }

  /** A re-inserted orphan lands behind every foreign entry it was not in front of. */
  lemma {:induction false} ReinsertMayPrecede(o: seq<Raw>, w: RouteTable, s: seq<Raw>, j: nat)
    requires WellFormed(o) && Placed(o, w, s) && j < |o| && Orphan(o[j], w)
    ensures MayPrecede(o, s, j, Key(o[j]))
  {
    forall q, k | Same(s, q, o, k) && j <= q && k < FallbackAt(o) ensures Key(o[j]) in OwnedKeys(o[..k]) {
      OrphanInFront(o, w, s, j, q, k);
    }
  }

  lemma {:induction false} UndoPlaced(o: seq<Raw>, w: RouteTable, u: Undo, s: seq<Raw>)
    requires WellFormed(o) && Proper(w) && Placed(o, w, s) && Sourced(s, o, w) && Staged(o, w, u) && !u.PutBack?
    ensures Placed(o, w, UndoEffect(u, s))
  {
    match u
    case TakeOut(id) =>
      var k := IndexOf(s, RouteID(id));
      if k < |s| {
        RouteIDRoundTrip(id);
        PlacedDelete(o, w, s, k);
      }
    case Reinsert(j, before) =>
      if before !in s && j <= |s| {
        OrphanAbsent(o, w, s, j);
        ReinsertMayPrecede(o, w, s, j);
        PlacedInsert(o, w, s, j, before);
      }
  }

  /** However the later compensations behave, the foreign entries stay placed. */
  lemma {:induction false} RollbackPlaced(
    o: seq<Raw>, w: RouteTable, undos: seq<Undo>, n: nat, effective: seq<bool>, s: seq<Raw>)
    requires WellFormed(o) && Proper(w) && Stacked(o, w, undos) && UndosFrom(undos, o)
    requires n <= |undos| && |effective| == |undos| - n && forall p :: n <= p < |undos| ==> !undos[p].PutBack?
    requires Placed(o, w, s) && Sourced(s, o, w)
    ensures Placed(o, w, UndoSome(undos, n, effective, s))
    decreases |undos| - n
  {
    if n < |undos| {
      RollbackPlaced(o, w, undos, n + 1, effective[1..], s);
      SourcedRollback(undos, n + 1, effective[1..], s, o, w);
      assert undos[n] in undos;
      UndoPlaced(o, w, undos[n], UndoSome(undos, n + 1, effective[1..], s));
    }
  }

  /** The same slots hold foreign entries. */
  ghost predicate SameSlots(s: seq<Raw>, t: seq<Raw>) {
    |s| == |t| && forall p :: 0 <= p < |s| ==> (IsForeign(s[p]) <==> IsForeign(t[p]))
  }

  /** Then no PutBack finds a foreign entry in its slot, unless one was in reach. */
  lemma {:induction false} PutBacksSafe(
    o: seq<Raw>, w: RouteTable, undos: seq<Undo>, i: nat, n: nat, effective: seq<bool>, s: seq<Raw>, placed: seq<Raw>)
    requires WellFormed(o) && !Exposed(o, w) && Stacked(o, w, undos)
    requires i <= n <= |undos| && |effective| == |undos| - i && forall p :: 0 <= p < n ==> undos[p].PutBack?
    requires placed == UndoSome(undos, n, effective[n - i..], s) && Placed(o, w, placed)
    ensures Foreign(UndoSome(undos, i, effective, s)) == Foreign(o)
    ensures SameSlots(placed, UndoSome(undos, i, effective, s))
    decreases n - i
  {
    if i < n {
      assert effective[1..][n - (i + 1)..] == effective[n - i..];
      PutBacksSafe(o, w, undos, i + 1, n, effective[1..], s, placed);
      var t := UndoSome(undos, i + 1, effective[1..], s);
      assert undos[i] in undos;
      var at := undos[i].index;
      if at < |t| {
        if IsForeign(placed[at]) {
          SlotIsSafe(o, w, placed, at);
        }
        PutForeign(t, at, undos[i].before);
      }
    } else {
      assert effective[n - i..] == effective;
    }
  }

  lemma {:induction false} RepairsEnd(undos: seq<Undo>) returns (n: nat)
    requires RepairsFirst(undos)
    ensures n <= |undos| && (forall p :: 0 <= p < n ==> undos[p].PutBack?)
    ensures forall p :: n <= p < |undos| ==> !undos[p].PutBack?
  {
    n := |undos|;
    while n > 0 && !undos[n - 1].PutBack?
      invariant n <= |undos| && forall p :: n <= p < |undos| ==> !undos[p].PutBack?
    {
      n := n - 1;
    }
  }

  /** If no foreign entry is in reach, no rollback loses one, however its
      compensations behave. */
  lemma {:induction false} UnexposedRollbackIsSafe(
    o: seq<Raw>, w: RouteTable, undos: seq<Undo>, effective: seq<bool>, s: seq<Raw>)
    requires WellFormed(o) && Proper(w) && !Exposed(o, w) && Stacked(o, w, undos) && UndosFrom(undos, o)
    requires Placed(o, w, s) && Sourced(s, o, w) && |effective| == |undos|
    ensures Foreign(UndoSome(undos, 0, effective, s)) == Foreign(o)
  {
    var n := RepairsEnd(undos);
    RollbackPlaced(o, w, undos, n, effective[n..], s);
    PutBacksSafe(o, w, undos, 0, n, effective, s, UndoSome(undos, n, effective[n..], s));
  }
}
