/** The repository (internal/adapters/outbound/libsql/store.go:185-457) as two
    tables updated in place. Every call may fail for reasons of the database; a
    write that fails so may or may not have been applied.
 */
module Repository {
  import opened Ports
  import opened Rows

  /** Errors as the application tells them apart. Fault stands for every error
      that is not one of the domain's own kinds. */
  datatype Err =
    | Validation
    | Conflict
    | NotFound
    | Unauthorized
    | Internal
    | StartupFailed(cause: Err)
    | Fault

  ghost function LinkIDs(out: seq<Link>): set<LinkID> {
    set l | l in out :: l.id
  }

  ghost function SpaceIDs(out: seq<Space>): set<SpaceID> {
    set s | s in out :: s.id
  }

  /** `out` lists exactly the stored links of `ids`, each once, in some order. */
  ghost predicate Enumerates(out: seq<Link>, ids: set<LinkID>, links: LinkRows) {
    && (forall i, j :: 0 <= i < j < |out| ==> out[i].id != out[j].id)
    && (forall l | l in out :: l.id in links && links[l.id].link == l)
    && LinkIDs(out) == ids
  }

  ghost predicate EnumeratesSpaces(out: seq<Space>, ids: set<SpaceID>, spaces: SpaceRows) {
    && (forall i, j :: 0 <= i < j < |out| ==> out[i].id != out[j].id)
    && (forall s | s in out :: s.id in spaces && spaces[s.id].space == s)
    && SpaceIDs(out) == ids
  }

  lemma {:induction false} EnumeratesMore(out: seq<Link>, ids: set<LinkID>, links: LinkRows, id: LinkID)
    requires Enumerates(out, ids, links) && id !in ids && id in links && links[id].link.id == id
    ensures Enumerates(out + [links[id].link], ids + {id}, links)
  {
    var more := out + [links[id].link];
    assert forall l :: l in more <==> l in out || l == links[id].link;
    assert LinkIDs(more) == LinkIDs(out) + {id} by {
      assert links[id].link in more;
    }
    forall i, j | 0 <= i < j < |more| ensures more[i].id != more[j].id {
      assert more[i] in out;
    }
  }

  lemma {:induction false} EnumeratesMoreSpaces(out: seq<Space>, ids: set<SpaceID>, spaces: SpaceRows, id: SpaceID)
    requires EnumeratesSpaces(out, ids, spaces) && id !in ids && id in spaces && spaces[id].space.id == id
    ensures EnumeratesSpaces(out + [spaces[id].space], ids + {id}, spaces)
  {
    var more := out + [spaces[id].space];
    assert forall s :: s in more <==> s in out || s == spaces[id].space;
    assert SpaceIDs(more) == SpaceIDs(out) + {id} by {
      assert spaces[id].space in more;
    }
    forall i, j | 0 <= i < j < |more| ensures more[i].id != more[j].id {
      assert more[i] in out;
    }
  }

  function LinksIn(links: LinkRows, space: SpaceID): set<LinkID> {
    set id | id in links && !links[id].deleted && links[id].link.space == space
  }

  function ExpiredIn(links: LinkRows, now: int): set<LinkID> {
    set id | id in links && !links[id].deleted && ExpiredAt(now, links[id].link.expiresAt)
  }

  function CandidatesIn(links: LinkRows, now: int): set<LinkID> {
    set id | id in links && !links[id].deleted && !ExpiredAt(now, links[id].link.expiresAt)
             && links[id].link.status != Deleted && links[id].link.status != Expired
  }

  function ExpiredSpacesIn(spaces: SpaceRows, now: int): set<SpaceID> {
    set id | id in spaces && !spaces[id].deleted && ExpiredAt(now, spaces[id].space.expiresAt)
  }

  class Store {
    var spaces: SpaceRows
    var links: LinkRows
    /** Calls that failed for a reason of the database. */
    ghost var faults: nat
    /** SaveLink calls among them. */
    ghost var lostSaves: nat

    constructor ()
      ensures spaces == map[] && links == map[] && faults == 0 && lostSaves == 0
    {
      spaces, links, faults, lostSaves := map[], map[], 0, 0;
    }

    ghost predicate OK()
      reads this
    {
      RowsOK(spaces, links)
    }

    // ------------------------------------------------------------- queries

    method FindSpaceByAlias(alias: string) returns (err: Option<Err>, s: Space)
      requires OK()
      modifies this`faults
      ensures err.None? ==> LiveSpace(spaces, s.id) && spaces[s.id].space == s && s.alias == alias
      ensures err == Some(NotFound) ==> forall id :: LiveSpace(spaces, id) ==> spaces[id].space.alias != alias
      ensures err.None? || err.value in {NotFound, Fault}
      ensures faults == old(faults) + if err == Some(Fault) then 1 else 0
    {
      s := Space("", "", 0);
      var fault: bool := *;
      if fault {
        err, faults := Some(Fault), faults + 1;
      } else if id :| id in spaces && !spaces[id].deleted && spaces[id].space.alias == alias {
        err, s := None, spaces[id].space;
      } else {
        err := Some(NotFound);
      }
    }

    method FindSpace(id: SpaceID) returns (err: Option<Err>, s: Space)
      requires OK()
      modifies this`faults
      ensures err.None? ==> LiveSpace(spaces, id) && spaces[id].space == s
      ensures err == Some(NotFound) ==> !LiveSpace(spaces, id)
      ensures err.None? || err.value in {NotFound, Fault}
      ensures faults == old(faults) + if err == Some(Fault) then 1 else 0
    {
      s := Space("", "", 0);
      var fault: bool := *;
      if fault {
        err, faults := Some(Fault), faults + 1;
      } else if LiveSpace(spaces, id) {
        err, s := None, spaces[id].space;
      } else {
        err := Some(NotFound);
      }
    }

    method FindLink(space: SpaceID, name: string) returns (err: Option<Err>, l: Option<Link>)
      requires OK()
      modifies this`faults
      ensures err.None? <==> l.Some?
      ensures err.None? ==> Live(links, l.value.id) && links[l.value.id] == LinkRow(l.value, false)
      ensures err.None? ==> l.value.space == space && l.value.name == name
      ensures err == Some(NotFound) ==>
        forall id :: Live(links, id) ==> !(links[id].link.space == space && links[id].link.name == name)
      ensures err.None? || err.value in {NotFound, Fault}
      ensures faults == old(faults) + if err == Some(Fault) then 1 else 0
    {
      var fault: bool := *;
      l := None;
      if fault {
        err, faults := Some(Fault), faults + 1;
      } else if id :| id in links && !links[id].deleted && links[id].link.space == space && links[id].link.name == name {
        err, l := None, Some(links[id].link);
      } else {
        err := Some(NotFound);
      }
    }

    method LinkDeleted(space: SpaceID, name: string) returns (err: Option<Err>, deleted: bool)
      requires OK()
      modifies this`faults
      ensures err.None? ==>
        (deleted <==> exists id :: id in links && links[id].deleted
                                   && links[id].link.space == space && links[id].link.name == name)
      ensures err.None? || err == Some(Fault)
      ensures faults == old(faults) + if err == Some(Fault) then 1 else 0
    {
      var fault: bool := *;
      err, deleted := None, false;
      if fault {
        err, faults := Some(Fault), faults + 1;
      } else {
        deleted := exists id :: id in links && links[id].deleted
                                && links[id].link.space == space && links[id].link.name == name;
      }
    }

    /** Scans the selected rows into a slice. */
    method Collect(ids: set<LinkID>) returns (out: seq<Link>)
      requires OK() && ids <= links.Keys
      ensures Enumerates(out, ids, links)
    {
      out := [];
      var rest := ids;
      assert ids - rest == {} == LinkIDs(out);
      while rest != {}
        invariant rest <= ids
        invariant Enumerates(out, ids - rest, links)
        decreases |rest|
      {
        var id :| id in rest;
        EnumeratesMore(out, ids - rest, links, id);
        assert ids - rest + {id} == ids - (rest - {id});
        out, rest := out + [links[id].link], rest - {id};
      }
      assert ids - rest == ids;
    }

    method ListLinks(space: SpaceID) returns (err: Option<Err>, out: seq<Link>)
      requires OK()
      modifies this`faults
      ensures err.None? ==> Enumerates(out, LinksIn(links, space), links)
      ensures err.None? || err == Some(Fault)
      ensures faults == old(faults) + if err == Some(Fault) then 1 else 0
    {
      err, out := Query(LinksIn(links, space));
    }

    method ExpiredLinks(now: int) returns (err: Option<Err>, out: seq<Link>)
      requires OK()
      modifies this`faults
      ensures err.None? ==> Enumerates(out, ExpiredIn(links, now), links)
      ensures err.None? || err == Some(Fault)
      ensures faults == old(faults) + if err == Some(Fault) then 1 else 0
    {
      err, out := Query(ExpiredIn(links, now));
    }

    method ReconciliationLinks(now: int) returns (err: Option<Err>, out: seq<Link>)
      requires OK()
      modifies this`faults
      ensures err.None? ==> Enumerates(out, CandidatesIn(links, now), links)
      ensures err.None? || err == Some(Fault)
      ensures faults == old(faults) + if err == Some(Fault) then 1 else 0
    {
      err, out := Query(CandidatesIn(links, now));
    }

    method Query(ids: set<LinkID>) returns (err: Option<Err>, out: seq<Link>)
      requires OK() && ids <= links.Keys
      modifies this`faults
      ensures err.None? ==> Enumerates(out, ids, links)
      ensures err.None? || err == Some(Fault)
      ensures faults == old(faults) + if err == Some(Fault) then 1 else 0
    {
      var fault: bool := *;
      if fault {
        err, out, faults := Some(Fault), [], faults + 1;
      } else {
        out := Collect(ids);
        err := None;
      }
    }

    method ExpiredSpaces(now: int) returns (err: Option<Err>, out: seq<Space>)
      requires OK()
      modifies this`faults
      ensures err.None? ==> EnumeratesSpaces(out, ExpiredSpacesIn(spaces, now), spaces)
      ensures err.None? || err == Some(Fault)
      ensures faults == old(faults) + if err == Some(Fault) then 1 else 0
    {
      var fault: bool := *;
      if fault {
        err, out, faults := Some(Fault), [], faults + 1;
      } else {
        out := CollectSpaces(ExpiredSpacesIn(spaces, now));
        err := None;
      }
    }

    method CollectSpaces(ids: set<SpaceID>) returns (out: seq<Space>)
      requires OK() && ids <= spaces.Keys
      ensures EnumeratesSpaces(out, ids, spaces)
    {
      out := [];
      var rest := ids;
      assert ids - rest == {} == SpaceIDs(out);
      while rest != {}
        invariant rest <= ids
        invariant EnumeratesSpaces(out, ids - rest, spaces)
        decreases |rest|
      {
        var id :| id in rest;
        EnumeratesMoreSpaces(out, ids - rest, spaces, id);
        assert ids - rest + {id} == ids - (rest - {id});
        out, rest := out + [spaces[id].space], rest - {id};
      }
      assert ids - rest == ids;
    }

    // ---------------------------------------------------------- statements

    method CreateSpace(v: Space) returns (err: Option<Err>)
      requires OK()
      modifies this
      ensures OK() && SpacesEvolve(old(spaces), spaces) && links == old(links) && lostSaves == old(lostSaves)
      ensures spaces == old(spaces) || (v.id !in old(spaces) && spaces == old(spaces)[v.id := SpaceRow(v, false)])
      ensures err.None? ==> LiveSpace(spaces, v.id) && spaces[v.id].space == v
      ensures err == Some(Conflict) ==>
        && spaces == old(spaces)
        && (v.id in spaces || exists id :: id in spaces && spaces[id].space.alias == v.alias)
      ensures err.None? || err.value in {Conflict, Fault}
      ensures faults == old(faults) + if err == Some(Fault) then 1 else 0
    {
      var fault: bool, applied: bool := *, *;
      var taken := v.id in spaces || exists id :: id in spaces && spaces[id].space.alias == v.alias;
      if !taken && (!fault || applied) {
        SpaceInsertedKeeps(spaces, links, v);
        spaces := spaces[v.id := SpaceRow(v, false)];
      }
      if fault {
        err, faults := Some(Fault), faults + 1;
      } else {
        err := if taken then Some(Conflict) else None;
      }
    }

    /** INSERT of a new link; identity, (space, name) and the space reference are
        constraints. That a link has an identity and does not outlive its space is not. */
    method CreateLink(v: Link) returns (err: Option<Err>)
      requires OK()
      modifies this
      ensures v.id != "" && (v.space in spaces ==> Housed(spaces, LinkRow(v, false))) ==> OK()
      ensures spaces == old(spaces) && LinksEvolve(old(links), links) && lostSaves == old(lostSaves)
      ensures links == old(links) || (v.id !in old(links) && links == old(links)[v.id := LinkRow(v, false)])
      ensures err.None? ==> v.id !in old(links) && links == old(links)[v.id := LinkRow(v, false)]
      ensures err == Some(Conflict) <==>
        faults == old(faults) && (v.id in old(links) || v.space !in spaces || Taken(old(links), v.space, v.name))
      ensures err == Some(Conflict) ==> links == old(links)
      ensures err.None? || err.value in {Conflict, Fault}
      ensures faults == old(faults) + if err == Some(Fault) then 1 else 0
    {
      var fault: bool, applied: bool := *, *;
      var refused := v.id in links || v.space !in spaces
        || exists id :: id in links && links[id].link.space == v.space && links[id].link.name == v.name;
      if !refused && (!fault || applied) {
        if v.id != "" && Housed(spaces, LinkRow(v, false)) {
          InsertedKeeps(spaces, links, v);
        }
        links := links[v.id := LinkRow(v, false)];
      }
      if fault {
        err, faults := Some(Fault), faults + 1;
      } else {
        err := if refused then Some(Conflict) else None;
      }
    }

    /** UPDATE of a live link. Every column but space and name is set, the expiry too. */
    method SaveLink(v: Link) returns (err: Option<Err>)
      requires OK()
      modifies this
      ensures spaces == old(spaces)
      ensures (Live(old(links), v.id) ==> v.expiresAt == old(links)[v.id].link.expiresAt) ==>
        OK() && LinksEvolve(old(links), links)
      ensures links == old(links) || (Live(old(links), v.id) && links == Saved(old(links), v))
      ensures err.None? ==> Live(old(links), v.id) && links == Saved(old(links), v)
      ensures err == Some(NotFound) ==> !Live(old(links), v.id)
      ensures err.None? || err.value in {NotFound, Fault}
      ensures faults == old(faults) + if err == Some(Fault) then 1 else 0
      ensures lostSaves == old(lostSaves) + if err == Some(Fault) then 1 else 0
    {
      var fault: bool, applied: bool := *, *;
      var live := Live(links, v.id);
      if live && (!fault || applied) {
        if v.expiresAt == links[v.id].link.expiresAt {
          SavedKeeps(spaces, links, v);
        }
        links := Saved(links, v);
      }
      if fault {
        err, faults, lostSaves := Some(Fault), faults + 1, lostSaves + 1;
      } else {
        err := if live then None else Some(NotFound);
      }
    }

    method DeleteLink(id: LinkID) returns (err: Option<Err>)
      requires OK()
      modifies this
      ensures OK() && spaces == old(spaces) && LinksEvolve(old(links), links) && lostSaves == old(lostSaves)
      ensures links == old(links) || (Live(old(links), id) && links == Archived(old(links), id))
      ensures err.None? ==> Live(old(links), id) && links == Archived(old(links), id)
      ensures err == Some(NotFound) ==> !Live(old(links), id)
      ensures err.None? || err.value in {NotFound, Fault}
      ensures faults == old(faults) + if err == Some(Fault) then 1 else 0
    {
      var fault: bool, applied: bool := *, *;
      var live := Live(links, id);
      if live && (!fault || applied) {
        ArchivedKeeps(spaces, links, id);
        links := Archived(links, id);
      }
      if fault {
        err, faults := Some(Fault), faults + 1;
      } else {
        err := if live then None else Some(NotFound);
      }
    }

    /** Archives the space and its links in one transaction; archived already is no error. */
    method DeleteSpace(id: SpaceID) returns (err: Option<Err>)
      requires OK()
      modifies this
      ensures OK() && LinksEvolve(old(links), links) && SpacesEvolve(old(spaces), spaces) && lostSaves == old(lostSaves)
      ensures
        || (spaces == old(spaces) && links == old(links))
        || (id in old(spaces) && spaces == SpaceArchived(old(spaces), id) && links == SpaceLinksArchived(old(links), id))
      ensures err.None? ==> !LiveSpace(spaces, id)
      ensures err.None? || err == Some(Fault)
      ensures faults == old(faults) + if err == Some(Fault) then 1 else 0
    {
      var fault: bool, applied: bool := *, *;
      if LiveSpace(spaces, id) && (!fault || applied) {
        SpaceArchivedKeeps(spaces, links, id);
        spaces, links := SpaceArchived(spaces, id), SpaceLinksArchived(links, id);
      }
      err := None;
      if fault {
        err, faults := Some(Fault), faults + 1;
      }
    }
  }
}
