/** What one Add or Remove makes of the route array (caddy.go:191-233). */
module CaddyEdits {
  import opened Ports
  import opened CaddyRoutes
  import opened CaddyUndo

  /** Upsert: rewrite the first entry of the link unless it already decodes to
      the route, or insert in front of the fallback. */
  function Added(s: seq<Raw>, r: Route): seq<Raw> {
    var k := IndexOf(s, RouteID(r.linkID));
    if k < |s| then (if DecodeRaw(s[k]) == Some(r) then s else Apply(s, Put(k, Canon(r))))
    else Apply(s, Post(FallbackAt(s), Canon(r)))
  }

  function Removed(s: seq<Raw>, id: LinkID): seq<Raw> {
    var k := IndexOf(s, RouteID(id));
    if k < |s| then Apply(s, Del(k)) else s
  }

  lemma {:induction false} AddedIndex(s: seq<Raw>, r: Route) returns (k: nat)
    requires UniqueOwned(s) && Encodable(r)
    ensures k < |Added(s, r)| && DecodeRaw(Added(s, r)[k]) == Some(r)
    ensures |Added(s, r)| == |s| || |Added(s, r)| == |s| + 1
    ensures |Added(s, r)| == |s| ==>
      IDOf(s[k]) == RouteID(r.linkID) && forall j :: 0 <= j < |s| && j != k ==> Added(s, r)[j] == s[j]
    ensures |Added(s, r)| == |s| + 1 ==>
      && k == FallbackAt(s) && Added(s, r)[k] == Canon(r)
      && (forall j :: 0 <= j < |s| ==> IDOf(s[j]) != RouteID(r.linkID))
      && (forall j :: 0 <= j < k ==> Added(s, r)[j] == s[j])
      && (forall j :: k < j <= |s| ==> Added(s, r)[j] == s[j - 1])
  {
    CanonFacts(r);
    k := IndexOf(s, RouteID(r.linkID));
    if k == |s| {
      k := FallbackAt(s);
    }
  }

  lemma {:induction false} AddedInPlace(s: seq<Raw>, r: Route)
    requires WellFormed(s) && Encodable(r) && |Added(s, r)| == |s|
    ensures WellFormed(Added(s, r))
  {
    var k := AddedIndex(s, r);
    var t := Added(s, r);
    CanonFacts(r);
    DecodedIsEncodable(t[k].route);
    OwnedIsNotFallback(t[k]);
    forall i, j | 0 <= i < j < |t|
      ensures IsOwned(t[i]) && IsOwned(t[j]) ==> IDOf(t[i]) != IDOf(t[j])
      ensures IsFallback(t[i]) ==> !IsOwned(t[j])
    {
      assert IDOf(t[i]) == IDOf(s[i]) && IDOf(t[j]) == IDOf(s[j]);
    }
  }

  lemma {:induction false} AddedNew(s: seq<Raw>, r: Route)
    requires WellFormed(s) && Encodable(r) && |Added(s, r)| != |s|
    ensures WellFormed(Added(s, r))
  {
    var k := AddedIndex(s, r);
    var t := Added(s, r);
    CanonFacts(r);
    OwnedIsNotFallback(t[k]);
    forall i, j | 0 <= i < j < |t|
      ensures IsOwned(t[i]) && IsOwned(t[j]) ==> IDOf(t[i]) != IDOf(t[j])
      ensures IsFallback(t[i]) ==> !IsOwned(t[j])
    {
      assert i < k ==> t[i] == s[i];
      assert i > k ==> t[i] == s[i - 1];
      assert j < k ==> t[j] == s[j];
      assert j > k ==> t[j] == s[j - 1];
    }
  }

  /** Add leaves the array well-formed. */
  lemma {:induction false} AddedWellFormed(s: seq<Raw>, r: Route)
    requires WellFormed(s) && Encodable(r)
    ensures WellFormed(Added(s, r))
  {
    if |Added(s, r)| == |s| {
      AddedInPlace(s, r);
    } else {
      AddedNew(s, r);
    }
  }

  lemma {:induction false} AddedForeign(s: seq<Raw>, r: Route)
    requires Encodable(r)
    ensures Foreign(Added(s, r)) == Foreign(s)
  {
    CanonFacts(r);
    var k := IndexOf(s, RouteID(r.linkID));
    if k < |s| {
      if DecodeRaw(s[k]) != Some(r) {
        PutForeign(s, k, Canon(r));
      }
    } else {
      PostForeign(s, FallbackAt(s), Canon(r));
    }
  }

  /** Everything `a` shows for a link is in `b` too. */
  ghost predicate ShownIn(a: seq<Raw>, b: seq<Raw>, id: LinkID) {
    forall i :: ShownAt(a, i, id) ==> exists j :: ShownAt(b, j, id) && a[i] == b[j]
  }

  lemma {:induction false} AddedShowsOld(s: seq<Raw>, r: Route, id: LinkID)
    requires WellFormed(s) && Encodable(r) && id != r.linkID
    ensures ShownIn(Added(s, r), s, id)
  {
    var t := Added(s, r);
    var k := AddedIndex(s, r);
    forall i | ShownAt(t, i, id) ensures exists j :: ShownAt(s, j, id) && t[i] == s[j] {
      assert ShownAt(s, if |t| == |s| || i < k then i else i - 1, id);
    }
  }

  lemma {:induction false} AddedStillShows(s: seq<Raw>, r: Route, id: LinkID)
    requires WellFormed(s) && Encodable(r) && id != r.linkID
    ensures ShownIn(s, Added(s, r), id)
  {
    var t := Added(s, r);
    var k := AddedIndex(s, r);
    forall j | ShownAt(s, j, id) ensures exists i :: ShownAt(t, i, id) && s[j] == t[i] {
      DecodedIsEncodable(s[j].route);
      RouteIDRoundTrip(id);
      RouteIDRoundTrip(r.linkID);
      assert ShownAt(t, if |t| == |s| || j < k then j else j + 1, id);
    }
  }

  lemma {:induction false} ViewOf(s: seq<Raw>, i: nat, id: LinkID)
    requires UniqueOwned(s) && ShownAt(s, i, id)
    ensures id in View(s) && Some(View(s)[id]) == DecodeRaw(s[i])
  {
    ViewAt(s, i);
  }

  lemma {:induction false} ViewTransfer(s: seq<Raw>, t: seq<Raw>, id: LinkID)
    requires UniqueOwned(s) && UniqueOwned(t) && ShownIn(s, t, id)
    ensures id in View(s) ==> id in View(t) && View(t)[id] == View(s)[id]
  {
    ViewKeys(s, id);
    if i :| ShownAt(s, i, id) {
      var j :| ShownAt(t, j, id) && s[i] == t[j];
      ViewOf(s, i, id);
      ViewOf(t, j, id);
    }
  }

  /** On the table Add is an upsert. */
  lemma {:induction false} AddedView(s: seq<Raw>, r: Route)
    requires WellFormed(s) && Encodable(r)
    ensures View(Added(s, r)) == View(s)[r.linkID := r]
  {
    var t := Added(s, r);
    var k := AddedIndex(s, r);
    AddedWellFormed(s, r);
    ViewOf(t, k, r.linkID);
    forall id | id != r.linkID
      ensures id in View(t) <==> id in View(s)
      ensures id in View(s) ==> View(t)[id] == View(s)[id]
    {
      AddedShowsOld(s, r, id);
      ViewTransfer(t, s, id);
      AddedStillShows(s, r, id);
      ViewTransfer(s, t, id);
    }
  }

  /** What a call answering `err` on array `s` and leaving `t` promises about
      the array's shape and about the entries of other controllers. */
  ghost predicate KeepsShape(s: seq<Raw>, t: seq<Raw>) {
    WellFormed(t) && Foreign(t) == Foreign(s)
  }

  /** What Add is worth on a well-formed array. */
  lemma {:induction false} AddMeets(s: seq<Raw>, r: Route, err: Option<ProxyError>, t: seq<Raw>)
    requires WellFormed(s) && Encodable(r)
    requires t == s || t == Added(s, r)
    requires err.None? ==> t == Added(s, r)
    ensures KeepsShape(s, t) && AddOutcome(View(s), r, err, View(t))
  {
    AddedWellFormed(s, r);
    AddedForeign(s, r);
    AddedView(s, r);
  }

  lemma {:induction false} RemovedIndex(s: seq<Raw>, id: LinkID)
    ensures var k, t := IndexOf(s, RouteID(id)), Removed(s, id);
      if k < |s| then
        && |t| == |s| - 1
        && (forall j :: 0 <= j < k ==> t[j] == s[j]) && (forall j :: k <= j < |t| ==> t[j] == s[j + 1])
      else t == s && forall j :: 0 <= j < |s| ==> IDOf(s[j]) != RouteID(id)
  {
  }

  lemma {:induction false} RemovedWellFormed(s: seq<Raw>, id: LinkID)
    requires WellFormed(s)
    ensures WellFormed(Removed(s, id))
  {
    RemovedIndex(s, id);
    var k, t := IndexOf(s, RouteID(id)), Removed(s, id);
    if k < |s| {
      forall i, j | 0 <= i < j < |t|
        ensures IsOwned(t[i]) && IsOwned(t[j]) ==> IDOf(t[i]) != IDOf(t[j])
        ensures IsFallback(t[i]) ==> !IsOwned(t[j])
      {
        var i', j' := if i < k then i else i + 1, if j < k then j else j + 1;
        assert t[i] == s[i'] && t[j] == s[j'];
      }
    }
  }

  lemma {:induction false} RemovedForeign(s: seq<Raw>, id: LinkID)
    requires id != ""
    ensures Foreign(Removed(s, id)) == Foreign(s)
  {
    RouteIDRoundTrip(id);
    var k := IndexOf(s, RouteID(id));
    if k < |s| {
      DelForeign(s, k);
    }
  }

  lemma {:induction false} RemovedShowsOld(s: seq<Raw>, id: LinkID, other: LinkID)
    requires WellFormed(s)
    ensures ShownIn(Removed(s, id), s, other)
  {
    var t, k := Removed(s, id), IndexOf(s, RouteID(id));
    RemovedIndex(s, id);
    forall i | ShownAt(t, i, other) ensures exists j :: ShownAt(s, j, other) && t[i] == s[j] {
      assert ShownAt(s, if i < k then i else i + 1, other);
    }
  }

  lemma {:induction false} RemovedStillShows(s: seq<Raw>, id: LinkID, other: LinkID)
    requires WellFormed(s) && id != "" && other != id
    ensures ShownIn(s, Removed(s, id), other)
  {
    var t, k := Removed(s, id), IndexOf(s, RouteID(id));
    RemovedIndex(s, id);
    forall j | ShownAt(s, j, other) ensures exists i :: ShownAt(t, i, other) && s[j] == t[i] {
      DecodedIsEncodable(s[j].route);
      RouteIDRoundTrip(id);
      RouteIDRoundTrip(other);
      assert ShownAt(t, if j < k then j else j - 1, other);
    }
  }

  lemma {:induction false} RemovedGone(s: seq<Raw>, id: LinkID)
    requires WellFormed(s) && id != ""
    ensures id !in View(Removed(s, id))
  {
    var t, k := Removed(s, id), IndexOf(s, RouteID(id));
    RemovedIndex(s, id);
    RouteIDRoundTrip(id);
    ViewKeys(t, id);
    forall i | ShownAt(t, i, id) ensures IDOf(t[i]) == RouteID(id) {
      DecodedIsEncodable(t[i].route);
    }
  }

  /** On the table Remove deletes the link. */
  lemma {:induction false} RemovedView(s: seq<Raw>, id: LinkID)
    requires WellFormed(s) && id != ""
    ensures View(Removed(s, id)) == View(s) - {id}
  {
    var t := Removed(s, id);
    RemovedWellFormed(s, id);
    RemovedGone(s, id);
    forall other | other != id
      ensures other in View(t) <==> other in View(s)
      ensures other in View(s) ==> View(t)[other] == View(s)[other]
    {
      RemovedShowsOld(s, id, other);
      ViewTransfer(t, s, other);
      RemovedStillShows(s, id, other);
      ViewTransfer(s, t, other);
    }
  }

  /** What Remove is worth on a well-formed array. */
  lemma {:induction false} RemoveMeets(s: seq<Raw>, id: LinkID, err: Option<ProxyError>, t: seq<Raw>)
    requires WellFormed(s) && id != ""
    requires t == s || t == Removed(s, id)
    requires err.None? ==> t == Removed(s, id)
    ensures KeepsShape(s, t) && RemoveOutcome(View(s), id, err, View(t))
  {
    RemovedWellFormed(s, id);
    RemovedForeign(s, id);
    RemovedView(s, id);
  }
}
