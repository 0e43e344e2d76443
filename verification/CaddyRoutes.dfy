/** Route objects of Caddy's route array and the pure helpers over them
    (internal/adapters/outbound/caddy/caddy.go): encode, decode, owned, routeID,
    fallbackIndex, and the notions the reconciler is specified with.
 */
module CaddyRoutes {
  import opened Ports
  import opened Sequences

  const Namespace := "mirage-route-"
  const FallbackID := "mirage-fallback"

  datatype Handler = Handler(handler: string, upstreams: seq<string>)

  /** The fields the client parses out of one route object. */
  datatype CaddyRoute = CaddyRoute(id: string, matchHosts: seq<seq<string>>, handle: seq<Handler>, terminal: bool)

  /** The exact bytes of one array element: the parsed fields together with
      everything else in the object, or an element that does not parse.
      Two elements are byte-equal exactly when they are equal as values. */
  datatype Raw = Object(route: CaddyRoute, rest: string) | Unparsable(text: string)

  function RouteID(id: LinkID): string {
    Namespace + id
  }

  predicate OwnedID(id: string) {
    Namespace <= id && |id| > |Namespace|
  }

  /** strings.TrimPrefix(id, Namespace) */
  function LinkIDOf(id: string): LinkID {
    if Namespace <= id then id[|Namespace|..] else id
  }

  function Encode(r: Route): CaddyRoute {
    CaddyRoute(RouteID(r.linkID), [[r.hostname]], [Handler("reverse_proxy", [r.upstream])], true)
  }

  function Decode(x: CaddyRoute): Option<Route> {
    if !OwnedID(x.id) || |x.matchHosts| != 1 || |x.matchHosts[0]| != 1 || |x.handle| != 1
       || x.handle[0].handler != "reverse_proxy" || |x.handle[0].upstreams| != 1
       || x.handle[0].upstreams[0] == ""
    then None
    else Some(Route(LinkIDOf(x.id), x.matchHosts[0][0], x.handle[0].upstreams[0]))
  }

  /** What the server stores when the client sends an encoded route. */
  function Canon(r: Route): Raw {
    Object(Encode(r), "")
  }

  function IDOf(x: Raw): string {
    if x.Object? then x.route.id else ""
  }

  predicate IsOwned(x: Raw) {
    OwnedID(IDOf(x))
  }

  predicate IsFallback(x: Raw) {
    IDOf(x) == FallbackID
  }

  /** The link an owned element belongs to. */
  function Key(x: Raw): LinkID {
    LinkIDOf(IDOf(x))
  }

  function DecodeRaw(x: Raw): Option<Route> {
    if x.Object? then Decode(x.route) else None
  }

  /** A route survives encoding exactly when it names a link and an upstream. */
  predicate Encodable(r: Route) {
    r.linkID != "" && r.upstream != ""
  }

  lemma {:induction false} RouteIDRoundTrip(id: LinkID)
    ensures LinkIDOf(RouteID(id)) == id
    ensures OwnedID(RouteID(id)) <==> id != ""
    ensures RouteID(id) != FallbackID
  {
    assert RouteID(id)[..|Namespace|] == Namespace;
    assert RouteID(id)[|Namespace|..] == id;
    assert RouteID(id)[7] == 'r' && FallbackID[7] == 'f';
  }

  lemma {:induction false} OwnedIDIsRouteID(id: string)
    requires OwnedID(id)
    ensures id == RouteID(LinkIDOf(id))
    ensures LinkIDOf(id) != ""
    ensures id != FallbackID
  {
    assert id == id[..|Namespace|] + id[|Namespace|..];
    RouteIDRoundTrip(LinkIDOf(id));
  }

  /** decode inverts encode on exactly the encodable routes. */
  lemma {:induction false} DecodeEncode(r: Route)
    ensures Decode(Encode(r)) == Some(r) <==> Encodable(r)
    ensures Decode(Encode(r)).None? <==> !Encodable(r)
  {
    RouteIDRoundTrip(r.linkID);
  }

  /** Whatever decodes is owned, and decodes to an encodable route of its own link. */
  lemma {:induction false} DecodedIsEncodable(x: CaddyRoute)
    requires Decode(x).Some?
    ensures OwnedID(x.id) && Encodable(Decode(x).value)
    ensures RouteID(Decode(x).value.linkID) == x.id
  {
    OwnedIDIsRouteID(x.id);
  }

  lemma {:induction false} OwnedIsNotFallback(x: Raw)
    requires IsOwned(x)
    ensures !IsFallback(x)
  {
    OwnedIDIsRouteID(IDOf(x));
  }

  lemma {:induction false} CanonFacts(r: Route)
    requires Encodable(r)
    ensures IsOwned(Canon(r)) && Key(Canon(r)) == r.linkID && DecodeRaw(Canon(r)) == Some(r)
    ensures IDOf(Canon(r)) == RouteID(r.linkID) && !IsFallback(Canon(r))
  {
    RouteIDRoundTrip(r.linkID);
    DecodeEncode(r);
  }

  // ---------------------------------------------------------------- the array

  predicate AllParsed(s: seq<Raw>) {
    forall i :: 0 <= i < |s| ==> s[i].Object?
  }

  ghost predicate UniqueOwned(s: seq<Raw>) {
    forall i, j :: 0 <= i < j < |s| && IsOwned(s[i]) && IsOwned(s[j]) ==> IDOf(s[i]) != IDOf(s[j])
  }

  ghost predicate FallbackLast(s: seq<Raw>) {
    forall i, j :: 0 <= i < j < |s| && IsFallback(s[i]) ==> !IsOwned(s[j])
  }

  /** The arrays the reconciler is designed for: every element parses, no two
      owned elements share an identity, nothing owned sits behind the fallback. */
  ghost predicate WellFormed(s: seq<Raw>) {
    AllParsed(s) && UniqueOwned(s) && FallbackLast(s)
  }

  /** Position of the first fallback entry, or the length. */
  function FallbackAt(s: seq<Raw>): (k: nat)
    ensures k <= |s|
    ensures forall j :: 0 <= j < k ==> !IsFallback(s[j])
    ensures k < |s| ==> IsFallback(s[k])
  {
    if s == [] then 0 else if IsFallback(s[0]) then 0 else 1 + FallbackAt(s[1..])
  }

  /** Position of the first element carrying `id`, or the length. */
  function IndexOf(s: seq<Raw>, id: string): (k: nat)
    ensures k <= |s|
    ensures forall j :: 0 <= j < k ==> IDOf(s[j]) != id
    ensures k < |s| ==> IDOf(s[k]) == id
  {
    if s == [] then 0 else if IDOf(s[0]) == id then 0 else 1 + IndexOf(s[1..], id)
  }

  lemma {:induction false} IndexOfUnique(s: seq<Raw>, id: string, k: nat)
    requires k <= |s| && (forall j :: 0 <= j < k ==> IDOf(s[j]) != id) && (k < |s| ==> IDOf(s[k]) == id)
    ensures IndexOf(s, id) == k
  {
  }

  lemma {:induction false} FallbackAtUnique(s: seq<Raw>, k: nat)
    requires k <= |s| && (forall j :: 0 <= j < k ==> !IsFallback(s[j]))
    requires k < |s| ==> IsFallback(s[k])
    ensures FallbackAt(s) == k
  {
  }

  predicate IsForeign(x: Raw) {
    !IsOwned(x)
  }

  /** The elements of other controllers, in order and byte for byte. */
  function Foreign(s: seq<Raw>): seq<Raw> {
    Filter(s, IsForeign)
  }

  /** What List returns: the decodable owned routes, in array order. */
  function Listed(s: seq<Raw>): seq<Route> {
    if s == [] then []
    else (match DecodeRaw(s[0]) case Some(r) => [r] case None => []) + Listed(s[1..])
  }

  /** The owned routes as a table; the first entry of a link decides. */
  function View(s: seq<Raw>): RouteTable {
    if s == [] then map[]
    else match DecodeRaw(s[0])
      case Some(r) => View(s[1..])[r.linkID := r]
      case None => View(s[1..])
  }

  ghost function OwnedKeys(s: seq<Raw>): set<LinkID> {
    set x | x in s && IsOwned(x) :: Key(x)
  }

  lemma {:induction false} OwnedKeysStep(s: seq<Raw>, i: nat)
    requires i < |s|
    ensures OwnedKeys(s[..i + 1]) == OwnedKeys(s[..i]) + if IsOwned(s[i]) then {Key(s[i])} else {}
    ensures UniqueOwned(s) && IsOwned(s[i]) ==> Key(s[i]) !in OwnedKeys(s[..i])
  {
    assert s[..i + 1] == s[..i] + [s[i]];
    if IsOwned(s[i]) && Key(s[i]) in OwnedKeys(s[..i]) {
      var x :| x in s[..i] && IsOwned(x) && Key(x) == Key(s[i]);
      OwnedIDIsRouteID(IDOf(x));
      OwnedIDIsRouteID(IDOf(s[i]));
    }
  }

  lemma {:induction false} ListedConcat(a: seq<Raw>, b: seq<Raw>)
    ensures Listed(a + b) == Listed(a) + Listed(b)
  {
    if a == [] {
      assert a + b == b;
    } else {
      assert (a + b)[1..] == a[1..] + b;
      ListedConcat(a[1..], b);
    }
  }

  /** Element `i` decodes to a route of link `id`. */
  predicate ShownAt(s: seq<Raw>, i: int, id: LinkID) {
    0 <= i < |s| && DecodeRaw(s[i]).Some? && DecodeRaw(s[i]).value.linkID == id
  }

  /** The table's keys are the links of the decodable elements. */
  lemma {:induction false} ViewKeys(s: seq<Raw>, id: LinkID)
    ensures id in View(s) <==> exists i :: ShownAt(s, i, id)
    ensures id in View(s) ==> View(s)[id].linkID == id
  {
    if s != [] {
      ViewKeys(s[1..], id);
      if ShownAt(s, 0, id) {
      } else if id in View(s[1..]) {
        var i :| ShownAt(s[1..], i, id);
        assert ShownAt(s, i + 1, id);
      } else {
        forall i | ShownAt(s, i, id)
          ensures false
        {
          assert ShownAt(s[1..], i - 1, id);
        }
      }
    }
  }

  /** With unique owned identities, the table holds every decodable element. */
  lemma {:induction false} ViewAt(s: seq<Raw>, i: nat)
    requires UniqueOwned(s) && i < |s| && DecodeRaw(s[i]).Some?
    ensures DecodeRaw(s[i]).value.linkID in View(s)
    ensures View(s)[DecodeRaw(s[i]).value.linkID] == DecodeRaw(s[i]).value
  {
    if i > 0 {
      assert s[1..][i - 1] == s[i];
      ViewAt(s[1..], i - 1);
      if DecodeRaw(s[0]).Some? {
        DecodedIsEncodable(s[0].route);
        DecodedIsEncodable(s[i].route);
      }
    }
  }
}
