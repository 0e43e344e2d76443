/** Links and spaces (internal/domain/lifecycle.go, internal/domain/time.go) and
    the meaning of each SQL statement of internal/adapters/outbound/libsql/store.go
    as an operation on row sets. Instants and durations are nanoseconds.
 */
module Rows {
  import opened Ports

  type SpaceID = string

  /** A health-check URL, split at the occurrences of the "{port}" placeholder. */
  datatype UrlPart = Text(text: string) | PortSlot
  type HealthURL = seq<UrlPart>

  datatype Status = Creating | Starting | Healthy | Active | Stopping | Deleted | Expired | Failed

  /** A link; port 0 and the empty process identity mean "none". */
  datatype Link = Link(
    id: LinkID, space: SpaceID, name: string, status: Status, command: string, folder: string,
    health: HealthURL, grace: int, expiresAt: int, port: nat, process: string,
    autoRestart: bool, restarts: nat, nextRestartAt: int)

  datatype Space = Space(id: SpaceID, alias: string, expiresAt: int)

  datatype LinkRow = LinkRow(link: Link, deleted: bool)
  datatype SpaceRow = SpaceRow(space: Space, deleted: bool)

  type LinkRows = map<LinkID, LinkRow>
  type SpaceRows = map<SpaceID, SpaceRow>

  /** The exact boundary instant counts as expired. */
  predicate ExpiredAt(now: int, expiresAt: int) {
    now >= expiresAt
  }

  predicate Live(links: LinkRows, id: LinkID) {
    id in links && !links[id].deleted
  }

  predicate LiveSpace(spaces: SpaceRows, id: SpaceID) {
    id in spaces && !spaces[id].deleted
  }

  /** The UNIQUE(space_id, name) constraint covers archived rows too. */
  ghost predicate Taken(links: LinkRows, space: SpaceID, name: string) {
    exists id :: id in links && links[id].link.space == space && links[id].link.name == name
  }

  predicate SameName(a: LinkRow, b: LinkRow) {
    a.link.space == b.link.space && a.link.name == b.link.name
  }

  ghost predicate NamesUnique(links: LinkRows) {
    forall a, b | a in links && b in links && SameName(links[a], links[b]) :: a == b
  }

  ghost predicate AliasesUnique(spaces: SpaceRows) {
    forall a, b :: a in spaces && b in spaces && spaces[a].space.alias == spaces[b].space.alias ==> a == b
  }

  /** A link sits in a space that is live at least as long as it is. */
  ghost predicate Housed(spaces: SpaceRows, row: LinkRow) {
    && row.link.space in spaces
    && row.link.expiresAt <= spaces[row.link.space].space.expiresAt
    && (!row.deleted ==> !spaces[row.link.space].deleted)
  }

  ghost predicate RowsOK(spaces: SpaceRows, links: LinkRows) {
    && NamesUnique(links) && AliasesUnique(spaces)
    && (forall id :: id in spaces ==> spaces[id].space.id == id)
    && (forall id :: id in links ==> id != "" && links[id].link.id == id)
    && (forall id :: id in links ==> Housed(spaces, links[id]))
  }

  // ------------------------------------------------------------ statements

  /** UPDATE links SET ... WHERE id=? AND deleted_at IS NULL; space and name are not among the columns set. */
  function Saved(links: LinkRows, v: Link): LinkRows
    requires Live(links, v.id)
  {
    links[v.id := LinkRow(v.(space := links[v.id].link.space, name := links[v.id].link.name), false)]
  }

  function ArchivedRow(row: LinkRow): LinkRow {
    LinkRow(row.link.(status := Deleted), true)
  }

  function Archived(links: LinkRows, id: LinkID): LinkRows
    requires id in links
  {
    links[id := ArchivedRow(links[id])]
  }

  function SpaceLinksArchived(links: LinkRows, space: SpaceID): LinkRows {
    map id | id in links ::
      if !links[id].deleted && links[id].link.space == space then ArchivedRow(links[id]) else links[id]
  }

  function SpaceArchived(spaces: SpaceRows, space: SpaceID): SpaceRows
    requires space in spaces
  {
    spaces[space := spaces[space].(deleted := true)]
  }

  // ---------------------------------------------------- how rows may change

  /** One row's lawful future: identity, name and expiry never change, and an archived row never does. */
  predicate RowEvolves(a: LinkRow, b: LinkRow) {
    && b.link.id == a.link.id && b.link.space == a.link.space && b.link.name == a.link.name
    && b.link.expiresAt == a.link.expiresAt
    && (a.deleted ==> b == a)
  }

  ghost predicate LinksEvolve(a: LinkRows, b: LinkRows) {
    forall id :: id in a ==> id in b && RowEvolves(a[id], b[id])
  }

  ghost predicate SpacesEvolve(a: SpaceRows, b: SpaceRows) {
    forall id :: id in a ==> id in b && b[id].space == a[id].space && (a[id].deleted ==> b[id].deleted)
  }

  /** Only the row of `id` may differ. */
  ghost predicate OnlyRow(a: LinkRows, b: LinkRows, id: LinkID) {
    b.Keys == a.Keys && forall other :: other in a && other != id ==> b[other] == a[other]
  }

  lemma {:induction false} EvolveTransitive(a: LinkRows, b: LinkRows, c: LinkRows)
    requires LinksEvolve(a, b) && LinksEvolve(b, c)
    ensures LinksEvolve(a, c)
  {
    forall id | id in a ensures id in c && RowEvolves(a[id], c[id]) {
      assert RowEvolves(a[id], b[id]) && RowEvolves(b[id], c[id]);
    }
  }

  lemma {:induction false} RowReplaced(spaces: SpaceRows, links: LinkRows, id: LinkID, row: LinkRow)
    requires RowsOK(spaces, links) && Live(links, id) && RowEvolves(links[id], row)
    ensures RowsOK(spaces, links[id := row]) && LinksEvolve(links, links[id := row])
    ensures OnlyRow(links, links[id := row], id)
  {
    var after := links[id := row];
    assert Housed(spaces, links[id]);
    forall a, b | a in after && b in after && SameName(after[a], after[b]) ensures a == b {
      assert SameName(links[a], links[b]);
    }
  }

  /** Saving a link whose expiry is the stored one keeps the rows lawful. */
  lemma {:induction false} SavedKeeps(spaces: SpaceRows, links: LinkRows, v: Link)
    requires RowsOK(spaces, links) && Live(links, v.id) && v.expiresAt == links[v.id].link.expiresAt
    ensures RowsOK(spaces, Saved(links, v)) && LinksEvolve(links, Saved(links, v))
    ensures OnlyRow(links, Saved(links, v), v.id)
  {
    RowReplaced(spaces, links, v.id, Saved(links, v)[v.id]);
  }

  lemma {:induction false} ArchivedKeeps(spaces: SpaceRows, links: LinkRows, id: LinkID)
    requires RowsOK(spaces, links) && Live(links, id)
    ensures RowsOK(spaces, Archived(links, id)) && LinksEvolve(links, Archived(links, id))
    ensures OnlyRow(links, Archived(links, id), id)
  {
    RowReplaced(spaces, links, id, ArchivedRow(links[id]));
  }

  lemma {:induction false} InsertedKeeps(spaces: SpaceRows, links: LinkRows, v: Link)
    requires RowsOK(spaces, links) && v.id != "" && v.id !in links && !Taken(links, v.space, v.name)
    requires Housed(spaces, LinkRow(v, false))
    ensures RowsOK(spaces, links[v.id := LinkRow(v, false)])
    ensures LinksEvolve(links, links[v.id := LinkRow(v, false)])
  {
    var after := links[v.id := LinkRow(v, false)];
    forall a, b | a in after && b in after && SameName(after[a], after[b]) ensures a == b {
      assert a in links && b !in links ==> Taken(links, v.space, v.name);
      assert b in links && a !in links ==> Taken(links, v.space, v.name);
    }
  }

  lemma {:induction false} SpaceArchivedKeeps(spaces: SpaceRows, links: LinkRows, space: SpaceID)
    requires RowsOK(spaces, links) && space in spaces
    ensures RowsOK(SpaceArchived(spaces, space), SpaceLinksArchived(links, space))
    ensures LinksEvolve(links, SpaceLinksArchived(links, space))
    ensures SpacesEvolve(spaces, SpaceArchived(spaces, space))
  {
    var after, spaces' := SpaceLinksArchived(links, space), SpaceArchived(spaces, space);
    assert forall id :: id in after ==> RowEvolves(links[id], after[id]);
    forall id | id in after ensures Housed(spaces', after[id]) {
      assert Housed(spaces, links[id]);
    }
    forall a, b | a in after && b in after && SameName(after[a], after[b]) ensures a == b {
      assert RowEvolves(links[a], after[a]) && RowEvolves(links[b], after[b]);
      assert SameName(links[a], links[b]);
    }
  }

  lemma {:induction false} SpaceInsertedKeeps(spaces: SpaceRows, links: LinkRows, v: Space)
    requires RowsOK(spaces, links) && v.id !in spaces
    requires forall id :: id in spaces ==> spaces[id].space.alias != v.alias
    ensures RowsOK(spaces[v.id := SpaceRow(v, false)], links)
    ensures SpacesEvolve(spaces, spaces[v.id := SpaceRow(v, false)])
  {
    var after := spaces[v.id := SpaceRow(v, false)];
    forall id | id in links ensures Housed(after, links[id]) {
      assert Housed(spaces, links[id]);
    }
  }

  // ------------------------------------------------------ archived forever

  /** Once (space, name) is archived no later row with that name is live, and
      the name stays taken. */
  lemma {:induction false} ArchivedForever(before: LinkRows, after: LinkRows, id: LinkID)
    requires LinksEvolve(before, after) && NamesUnique(after) && id in before && before[id].deleted
    ensures Taken(after, before[id].link.space, before[id].link.name)
    ensures forall other :: Live(after, other) ==> !SameName(after[other], before[id])
  {
    assert RowEvolves(before[id], after[id]);
    assert forall other :: other in after && SameName(after[other], before[id]) ==> SameName(after[other], after[id]);
  }

  /** Over a whole history of row sets. */
  lemma {:induction false} HistoryEvolves(states: seq<LinkRows>, i: nat, j: nat)
    requires i <= j < |states|
    requires forall k :: 0 <= k < |states| - 1 ==> LinksEvolve(states[k], states[k + 1])
    ensures LinksEvolve(states[i], states[j])
    decreases j - i
  {
    if i < j {
      HistoryEvolves(states, i, j - 1);
      EvolveTransitive(states[i], states[j - 1], states[j]);
    }
  }

  /** No link outlives its space: whatever the rows, a live link in an expired
      space is itself expired. */
  lemma {:induction false} ExpiryDominance(spaces: SpaceRows, links: LinkRows, id: LinkID, now: int)
    requires RowsOK(spaces, links) && Live(links, id)
    ensures LiveSpace(spaces, links[id].link.space)
    ensures ExpiredAt(now, spaces[links[id].link.space].space.expiresAt) ==> ExpiredAt(now, links[id].link.expiresAt)
  {
    assert Housed(spaces, links[id]);
  }

  // -------------------------------------------------------- health-check URL

  predicate HasSlot(u: HealthURL) {
    PortSlot in u
  }

  /** strings.ReplaceAll(url, "{port}", decimal(p)) */
  function ReplacePort(u: HealthURL, p: nat): (r: HealthURL)
    ensures |r| == |u| && !HasSlot(r)
    ensures !HasSlot(u) ==> r == u
  {
    if u == [] then []
    else [if u[0].PortSlot? then Text(Decimal(p)) else u[0]] + ReplacePort(u[1..], p)
  }

  /** The decimal digits of a number. */
  function Decimal(n: nat): (s: string)
    ensures s != ""
  {
    if n < 10 then [('0' as int + n) as char] else Decimal(n / 10) + [('0' as int + n % 10) as char]
  }

  lemma {:induction false} DecimalInjective(a: nat, b: nat)
    requires Decimal(a) == Decimal(b)
    ensures a == b
  {
    var x, y := Decimal(a), Decimal(b);
    assert x[|x| - 1] == ('0' as int + a % 10) as char;
    assert y[|y| - 1] == ('0' as int + b % 10) as char;
    assert a >= 10 ==> x[..|x| - 1] == Decimal(a / 10);
    assert b >= 10 ==> y[..|y| - 1] == Decimal(b / 10);
    if a >= 10 && b >= 10 {
      DecimalInjective(a / 10, b / 10);
    }
  }

  /** The URL as one string. */
  function Render(u: HealthURL): string {
    if u == [] then "" else (match u[0] case Text(t) => t case PortSlot => "{port}") + Render(u[1..])
  }

  /** Where a link on port `p` is reached. */
  function LocalUpstream(p: nat): string {
    "127.0.0.1:" + Decimal(p)
  }

  /** The upstream of a route names exactly one port. */
  lemma {:induction false} UpstreamNamesPort(p: nat, q: nat)
    ensures LocalUpstream(p) == LocalUpstream(q) <==> p == q
  {
    if LocalUpstream(p) == LocalUpstream(q) {
      assert Decimal(p) == LocalUpstream(p)[|"127.0.0.1:"|..] == LocalUpstream(q)[|"127.0.0.1:"|..] == Decimal(q);
      DecimalInjective(p, q);
    }
  }

  /** The address that is probed for a link on port `p`. */
  function ProbeURL(check: HealthURL, p: nat): string {
    Render(ReplacePort(check, p))
  }

  lemma {:induction false} RenderSameWidth(u: HealthURL, p: nat, q: nat)
    requires |Decimal(p)| == |Decimal(q)| && p != q
    ensures |Render(ReplacePort(u, p))| == |Render(ReplacePort(u, q))|
    ensures Render(ReplacePort(u, p)) != Render(ReplacePort(u, q)) <==> HasSlot(u)
  {
    if u != [] {
      RenderSameWidth(u[1..], p, q);
      if Decimal(p) == Decimal(q) {
        DecimalInjective(p, q);
      }
      RenderStep(u, p);
      RenderStep(u, q);
      var a, b := RenderPart(u[0], p), RenderPart(u[0], q);
      var x, y := Render(ReplacePort(u[1..], p)), Render(ReplacePort(u[1..], q));
      assert (a + x)[..|a|] == a && (b + y)[..|b|] == b;
      assert (a + x)[|a|..] == x && (b + y)[|b|..] == y;
      assert u == [u[0]] + u[1..];
    }
  }

  function RenderPart(part: UrlPart, p: nat): string {
    match part case Text(t) => t case PortSlot => Decimal(p)
  }

  lemma {:induction false} RenderStep(u: HealthURL, p: nat)
    requires u != []
    ensures Render(ReplacePort(u, p)) == RenderPart(u[0], p) + Render(ReplacePort(u[1..], p))
  {
    var r := ReplacePort(u, p);
    assert r[1..] == ReplacePort(u[1..], p);
  }

  lemma {:induction false} RenderWider(u: HealthURL, p: nat, q: nat)
    requires |Decimal(p)| < |Decimal(q)|
    ensures |Render(ReplacePort(u, p))| <= |Render(ReplacePort(u, q))|
    ensures HasSlot(u) ==> |Render(ReplacePort(u, p))| < |Render(ReplacePort(u, q))|
  {
    if u != [] {
      RenderWider(u[1..], p, q);
      RenderStep(u, p);
      RenderStep(u, q);
      assert u == [u[0]] + u[1..];
    }
  }

  /** The probe tells two ports apart if and only if the stored URL still holds
      the placeholder. */
  lemma {:induction false} ProbeFollowsPort(u: HealthURL, p: nat, q: nat)
    requires p != q
    ensures ProbeURL(u, p) != ProbeURL(u, q) <==> HasSlot(u)
  {
    if |Decimal(p)| == |Decimal(q)| {
      RenderSameWidth(u, p, q);
    } else if |Decimal(p)| < |Decimal(q)| {
      RenderWider(u, p, q);
    } else {
      RenderWider(u, q, p);
    }
  }

  /** A probe of one port is no probe of any other port if and only if the stored
      URL still holds the placeholder. */
  lemma {:induction false} ProbeIsOfOnePort(u: HealthURL, p: nat)
    ensures (forall q: nat :: q != p ==> ProbeURL(u, q) != ProbeURL(u, p)) <==> HasSlot(u)
  {
    forall q: nat | q != p ensures ProbeURL(u, q) != ProbeURL(u, p) <==> HasSlot(u) {
      ProbeFollowsPort(u, p, q);
    }
    assert ProbeURL(u, p + 1) != ProbeURL(u, p) <==> HasSlot(u);
  }

  /** After one start the saved URL is fixed to that start's port: a restart on
      another port still probes the first one. */
  lemma {:induction false} RestartProbesFirstPort(u: HealthURL, first: nat, second: nat)
    ensures ProbeURL(ReplacePort(u, first), second) == ProbeURL(u, first)
    ensures HasSlot(u) && first != second ==> ProbeURL(ReplacePort(u, first), second) != ProbeURL(u, second)
  {
    if first != second {
      ProbeFollowsPort(u, first, second);
    }
  }
}
