/** The index writes of the Admin API and the compensations that Reconcile
    stacks in front of each of them (caddy.go:280-303, 338-344, 349-362, 395-407).
    A compensation closure is represented by the values it captures.
 */
module CaddyUndo {
  import opened Ports
  import opened CaddyRoutes
  import opened Sequences

  /** One index write: PUT replaces, POST inserts, DELETE removes. */
  datatype Write = Put(index: nat, body: Raw) | Post(index: nat, body: Raw) | Del(index: nat)

  predicate InRange(s: seq<Raw>, w: Write) {
    match w
    case Put(i, _) => i < |s|
    case Post(i, _) => i <= |s|
    case Del(i) => i < |s|
  }

  function Apply(s: seq<Raw>, w: Write): seq<Raw>
    requires InRange(s, w)
  {
    match w
    case Put(i, x) => s[i := x]
    case Post(i, x) => s[..i] + [x] + s[i..]
    case Del(i) => s[..i] + s[i + 1..]
  }

  datatype Undo =
    | PutBack(index: nat, before: Raw)
    | TakeOut(id: LinkID)
    | Reinsert(index: nat, before: Raw)

  /** The write a compensation issues when it finds the array in state `s`, if any. */
  function UndoWrite(u: Undo, s: seq<Raw>): Option<Write> {
    match u
    case PutBack(i, before) => Some(Put(i, before))
    case TakeOut(id) =>
      var k := IndexOf(s, RouteID(id));
      if k < |s| then Some(Del(k)) else None
    case Reinsert(i, before) => if before in s then None else Some(Post(i, before))
  }

  function UndoEffect(u: Undo, s: seq<Raw>): seq<Raw> {
    match UndoWrite(u, s)
    case Some(w) => if InRange(s, w) then Apply(s, w) else s
    case None => s
  }

  /** The whole stack replayed from the top with every compensation effective. */
  function UndoAll(undos: seq<Undo>, s: seq<Raw>): seq<Raw> {
    if undos == [] then s
    else UndoAll(undos[..|undos| - 1], UndoEffect(undos[|undos| - 1], s))
  }

  /** The compensations above position `i` replayed from the top, the `j`-th of
      them taking effect only when `effective[j]`: what an unreliable Admin
      endpoint makes of a rollback. */
  function UndoSome(undos: seq<Undo>, i: nat, effective: seq<bool>, s: seq<Raw>): seq<Raw>
    requires i <= |undos| && |effective| == |undos| - i
    decreases |undos| - i
  {
    if i == |undos| then s
    else
      var t := UndoSome(undos, i + 1, effective[1..], s);
      if effective[0] then UndoEffect(undos[i], t) else t
  }

  lemma {:induction false} AllEffective(undos: seq<Undo>, i: nat, effective: seq<bool>, s: seq<Raw>)
    requires i <= |undos| && |effective| == |undos| - i
    requires forall j :: 0 <= j < |effective| ==> effective[j]
    ensures UndoAll(undos[..i], UndoSome(undos, i, effective, s)) == UndoAll(undos, s)
    decreases |undos| - i
  {
    if i < |undos| {
      AllEffective(undos, i + 1, effective[1..], s);
      assert undos[..i + 1][..i] == undos[..i];
    } else {
      assert undos[..i] == undos;
    }
  }

  /** `u` takes the array back to `s` whether or not `w` reached it. */
  ghost predicate Inverts(u: Undo, w: Write, s: seq<Raw>)
    requires InRange(s, w)
  {
    UndoEffect(u, s) == s && UndoEffect(u, Apply(s, w)) == s
  }

  lemma {:induction false} PutBackInverts(s: seq<Raw>, i: nat, x: Raw)
    requires i < |s|
    ensures Inverts(PutBack(i, s[i]), Put(i, x), s)
  {
    assert s[i := s[i]] == s;
    assert s[i := x][i := s[i]] == s;
  }

  /** Finding the added entry by identity is exact if and only if no entry
      carried that identity before. */
  lemma {:induction false} TakeOutInverts(s: seq<Raw>, i: nat, x: Raw, id: LinkID)
    requires i <= |s| && IDOf(x) == RouteID(id)
    ensures Inverts(TakeOut(id), Post(i, x), s) <==> forall y | y in s :: IDOf(y) != RouteID(id)
  {
    if forall y | y in s :: IDOf(y) != RouteID(id) {
      var t := s[..i] + [x] + s[i..];
      InsertThenDelete(s, i, x);
      assert forall j :: 0 <= j < |s| ==> s[j] in s;
      IndexOfUnique(s, RouteID(id), |s|);
      IndexOfUnique(t, RouteID(id), i);
    } else {
      var y :| y in s && IDOf(y) == RouteID(id);
      var k := IndexOf(s, RouteID(id));
      assert k < |s|;
      assert |s[..k] + s[k + 1..]| == |s| - 1;
    }
  }

  /** Skipping the re-insertion when the exact bytes are present is exact if and
      only if the deleted entry had no byte-identical twin. */
  lemma {:induction false} ReinsertInverts(s: seq<Raw>, i: nat)
    requires i < |s|
    ensures Inverts(Reinsert(i, s[i]), Del(i), s) <==> s[i] !in s[..i] + s[i + 1..]
  {
    assert s[i] in s;
    DeleteThenInsert(s, i);
  }

  /** Stacking a compensation ahead of its write keeps the snapshot recoverable,
      whether or not the write takes effect. */
  lemma {:induction false} PushUndo(undos: seq<Undo>, u: Undo, w: Write, s: seq<Raw>, snapshot: seq<Raw>)
    requires InRange(s, w) && Inverts(u, w, s) && UndoAll(undos, s) == snapshot
    ensures UndoAll(undos + [u], s) == snapshot
    ensures UndoAll(undos + [u], Apply(s, w)) == snapshot
  {
    assert (undos + [u])[..|undos|] == undos;
  }

  // ------------------------------------------- what a compensation may touch

  /** A compensation for an owned entry. */
  predicate OwnUndo(u: Undo) {
    match u
    case PutBack(_, before) => IsOwned(before)
    case TakeOut(id) => id != ""
    case Reinsert(_, before) => IsOwned(before)
  }

  lemma {:induction false} PutForeign(s: seq<Raw>, i: nat, x: Raw)
    requires i < |s| && IsOwned(x)
    ensures Foreign(s[i := x]) == Foreign(s) <==> IsOwned(s[i])
    ensures !IsOwned(s[i]) ==> |Foreign(s[i := x])| < |Foreign(s)|
  {
    FilterReplace(s, i, x, IsForeign);
    FilterAround(s, i, IsForeign);
  }

  lemma {:induction false} DelForeign(s: seq<Raw>, i: nat)
    requires i < |s| && IsOwned(s[i])
    ensures Foreign(s[..i] + s[i + 1..]) == Foreign(s)
  {
    FilterAround(s, i, IsForeign);
    FilterConcat(s[..i], s[i + 1..], IsForeign);
  }

  lemma {:induction false} PostForeign(s: seq<Raw>, i: nat, x: Raw)
    requires i <= |s| && IsOwned(x)
    ensures Foreign(s[..i] + [x] + s[i..]) == Foreign(s)
  {
    FilterMid(s[..i], x, s[i..], IsForeign);
    FilterSplit(s, i, IsForeign);
  }

  /** A compensation for an owned entry leaves the other controllers' entries
      alone unless it is a PutBack whose slot has come to hold one of theirs. */
  lemma {:induction false} UndoKeepsForeign(u: Undo, s: seq<Raw>)
    requires OwnUndo(u)
    ensures Foreign(UndoEffect(u, s)) == Foreign(s)
      <==> !(u.PutBack? && u.index < |s| && !IsOwned(s[u.index]))
    ensures Foreign(UndoEffect(u, s)) == Foreign(s) || |Foreign(UndoEffect(u, s))| < |Foreign(s)|
  {
    match u
    case PutBack(i, before) =>
      if i < |s| {
        PutForeign(s, i, before);
      }
    case TakeOut(id) =>
      var k := IndexOf(s, RouteID(id));
      if k < |s| {
        RouteIDRoundTrip(id);
        DelForeign(s, k);
      }
    case Reinsert(i, before) =>
      if before !in s && i <= |s| {
        PostForeign(s, i, before);
      }
  }
}
