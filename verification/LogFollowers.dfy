/** The followers of one log (internal/adapters/outbound/logs/store.go:105-110,
    136-202) as values: each has a bounded queue, a worker that writes the queue
    to a pipe, and a `done` channel that is closed when the follower is removed.
 */
module LogFollowers {

  const QUEUE: nat := 64

  type Line = seq<bv8>

  /** A worker waits, writes the line in its hand, has failed to, or has returned. */
  datatype Worker = Idle | Writing | Broken | Stopped

  /** One follower. Of the line in its hand `sent` bytes went through the pipe. `got`
      is everything ever put in its queue, `lost` counts the offers that found the
      queue full; `since` is how many lines had been broadcast when it registered;
      `closings` counts the closings of its `done` channel. */
  datatype Follower = Follower(
    written: seq<Line>, hand: seq<Line>, sent: nat, queue: seq<Line>, pipeClosed: bool, worker: Worker, closings: nat,
    since: nat, got: seq<Line>, lost: nat)

  type FollowerID = nat
  type Followers = map<FollowerID, Follower>

  /** The bytes of some lines, one after the other. */
  function Flat(lines: seq<Line>): Line {
    if lines == [] then [] else Flat(lines[..|lines| - 1]) + lines[|lines| - 1]
  }

  lemma {:induction false} FlatMore(lines: seq<Line>, line: Line)
    ensures Flat(lines + [line]) == Flat(lines) + line && Flat([line]) == line
  {
    assert (lines + [line])[..|lines|] == lines;
    assert [line][..0] == [];
  }

  lemma {:induction false} FlatSum(a: seq<Line>, b: seq<Line>)
    requires |b| <= 1
    ensures Flat(a + b) == Flat(a) + Flat(b)
  {
    if b == [] {
      assert a + b == a;
    } else {
      assert b == [b[0]];
      FlatMore(a, b[0]);
    }
  }

  /** What came out of a follower's pipe: whole lines, and of the line in hand what was sent of it. */
  function Received(f: Follower): Line
    requires f.sent <= |Flat(f.hand)|
  {
    Flat(f.written) + Flat(f.hand)[..f.sent]
  }

  /** `a` is obtained from `b` by leaving lines out. */
  predicate Subsequence(a: seq<Line>, b: seq<Line>) {
    || a == []
    || (b != [] && a[|a| - 1] == b[|b| - 1] && Subsequence(a[..|a| - 1], b[..|b| - 1]))
    || (b != [] && Subsequence(a, b[..|b| - 1]))
  }

  lemma {:induction false} SubsequenceOffered(a: seq<Line>, b: seq<Line>, x: Line)
    requires Subsequence(a, b)
    ensures Subsequence(a, b + [x]) && Subsequence(a + [x], b + [x])
  {
    assert (b + [x])[..|b|] == b;
    assert (a + [x])[..|a|] == a;
  }

  lemma {:induction false} SubsequenceLength(a: seq<Line>, b: seq<Line>)
    requires Subsequence(a, b)
    ensures |a| <= |b| && (|a| == |b| ==> a == b)
    decreases |b|
  {
    if a != [] {
      var n, m := |a| - 1, |b| - 1;
      assert a == a[..n] + [a[n]] && b == b[..m] + [b[m]];
      if a[n] == b[m] && Subsequence(a[..n], b[..m]) {
        SubsequenceLength(a[..n], b[..m]);
      } else {
        SubsequenceLength(a, b[..m]);
      }
    }
  }

  lemma {:induction false} PrefixSubsequence(a: seq<Line>, c: seq<Line>, b: seq<Line>)
    requires Subsequence(a + c, b)
    ensures Subsequence(a, b)
    decreases |b|, |c|
  {
    if a == [] {
    } else if c == [] {
      assert a + c == a;
    } else {
      var n := |a + c|;
      var init := b[..|b| - 1];
      assert (a + c)[..n - 1] == a + c[..|c| - 1];
      if Subsequence(a + c, init) {
        PrefixSubsequence(a, c, init);
      } else {
        PrefixSubsequence(a, c[..|c| - 1], init);
      }
    }
  }

  // ------------------------------------------------------------ invariants

  predicate Delivers(f: Follower, broadcast: seq<Line>) {
    && f.since <= |broadcast|
    && f.got == f.written + f.hand + f.queue
    && Subsequence(f.got, broadcast[f.since..])
    && (f.closings == 0 ==> |f.got| + f.lost == |broadcast| - f.since)
  }

  predicate FollowerOK(f: Follower, broadcast: seq<Line>) {
    && |f.queue| <= QUEUE && |f.hand| <= 1 && f.sent <= |Flat(f.hand)| && f.closings <= 1
    && (f.pipeClosed <==> f.closings == 1)
    && (!f.pipeClosed ==> f.worker != Stopped)
    && (f.worker.Idle? ==> f.hand == []) && (f.worker.Writing? ==> |f.hand| == 1)
    && Delivers(f, broadcast)
  }

  /** A follower is registered exactly when its `done` channel is unclosed; a
      closed log has none. */
  predicate AllOK(all: Followers, registered: set<FollowerID>, closed: bool, broadcast: seq<Line>) {
    && (forall f :: f in all ==> FollowerOK(all[f], broadcast))
    && registered <= all.Keys
    && (forall f :: f in all ==> (f in registered <==> all[f].closings == 0))
    && (closed ==> registered == {})
  }

  // ----------------------------------------------------------------- steps

  function Fresh(since: nat): Follower {
    Follower([], [], 0, [], false, Idle, 0, since, [], 0)
  }

  /** A non-blocking send: a full queue loses the line. */
  function Offer(f: Follower, line: Line): Follower {
    if |f.queue| < QUEUE then f.(queue := f.queue + [line], got := f.got + [line]) else f.(lost := f.lost + 1)
  }

  /** Deleted from the set, `done` closed, pipe closed. */
  function Release(f: Follower): Follower {
    f.(closings := f.closings + 1, pipeClosed := true)
  }

  function Offered(all: Followers, to: set<FollowerID>, line: Line): Followers {
    map f | f in all :: if f in to then Offer(all[f], line) else all[f]
  }

  function Released(all: Followers, out: set<FollowerID>): Followers {
    map f | f in all :: if f in out then Release(all[f]) else all[f]
  }

  lemma {:induction false} OfferedMore(all: Followers, done: set<FollowerID>, f: FollowerID, line: Line)
    requires f in all && f !in done
    ensures Offered(all, done, line)[f] == all[f]
    ensures Offered(all, done, line)[f := Offer(all[f], line)] == Offered(all, done + {f}, line)
  {
  }

  lemma {:induction false} ReleasedMore(all: Followers, done: set<FollowerID>, f: FollowerID)
    requires f in all && f !in done
    ensures Released(all, done)[f] == all[f]
    ensures Released(all, done)[f := Release(all[f])] == Released(all, done + {f})
  {
  }

  /** The worker takes the next line from the queue. */
  function Taken(f: Follower): Follower
    requires f.queue != []
  {
    f.(hand := [f.queue[0]], queue := f.queue[1..], worker := Writing)
  }

  /** `n` more bytes of the line in hand went through the pipe. */
  function Passed(f: Follower, n: nat): Follower {
    f.(sent := f.sent + n)
  }

  /** The write returned: with nil if the whole line went through, else with an error. */
  function Wrote(f: Follower): Follower {
    if f.sent == |Flat(f.hand)| then f.(written := f.written + f.hand, hand := [], sent := 0, worker := Idle)
    else f.(worker := Broken)
  }

  lemma {:induction false} TakenOK(f: Follower, broadcast: seq<Line>)
    requires FollowerOK(f, broadcast) && f.worker.Idle? && f.queue != []
    ensures FollowerOK(Taken(f), broadcast) && PipeFlows(f, Taken(f))
  {
    assert f.written + [] + f.queue == f.written + [f.queue[0]] + f.queue[1..];
  }

  lemma {:induction false} Cut(before: Line, line: Line, i: nat, j: nat)
    requires i <= j <= |line|
    ensures before + line[..j] == before + line[..i] + line[i..j]
    ensures before + line[..i] <= before + line[..j]
  {
    assert line[..j] == line[..i] + line[i..j];
  }

  /** The bytes that pass are the next ones of the line in hand. */
  lemma {:induction false} PassedOK(f: Follower, broadcast: seq<Line>, n: nat)
    requires FollowerOK(f, broadcast) && f.worker.Writing? && f.sent + n <= |f.hand[0]|
    ensures FollowerOK(Passed(f, n), broadcast) && (!f.pipeClosed ==> PipeFlows(f, Passed(f, n)))
    ensures Received(Passed(f, n)) == Received(f) + f.hand[0][f.sent..f.sent + n]
  {
    FlatMore([], f.hand[0]);
    assert f.hand == [f.hand[0]];
    Cut(Flat(f.written), f.hand[0], f.sent, f.sent + n);
  }

  /** That a write returns changes nothing of what the pipe received. */
  lemma {:induction false} WroteOK(f: Follower, broadcast: seq<Line>)
    requires FollowerOK(f, broadcast) && f.worker.Writing?
    ensures FollowerOK(Wrote(f), broadcast) && PipeFlows(f, Wrote(f)) && Received(Wrote(f)) == Received(f)
    ensures Wrote(f).written == f.written + f.hand <==> f.sent == |f.hand[0]|
  {
    FlatMore([], f.hand[0]);
    assert f.hand == [f.hand[0]];
    assert f.written + f.hand + f.queue == (f.written + f.hand) + [] + f.queue;
    FlatSum(f.written, f.hand);
  }

  /** From `a` to `b` no follower's pipe lost a byte, and a closed one received none. */
  ghost predicate PipesFlow(a: Followers, b: Followers) {
    forall f :: f in a ==> f in b && PipeFlows(a[f], b[f])
  }

  predicate PipeFlows(a: Follower, b: Follower) {
    && a.sent <= |Flat(a.hand)| && b.sent <= |Flat(b.hand)| && Received(a) <= Received(b)
    && (a.pipeClosed ==> b.pipeClosed && Received(a) == Received(b))
  }

  lemma {:induction false} FlowTransitive(a: Followers, b: Followers, c: Followers)
    requires PipesFlow(a, b) && PipesFlow(b, c)
    ensures PipesFlow(a, c)
  {
    forall f | f in a ensures f in c && PipeFlows(a[f], c[f]) {
      assert PipeFlows(a[f], b[f]) && PipeFlows(b[f], c[f]);
    }
  }

  lemma {:induction false} OfferDelivers(f: Follower, broadcast: seq<Line>, line: Line)
    requires Delivers(f, broadcast)
    ensures Delivers(Offer(f, line), broadcast + [line])
    ensures f.closings != 0 ==> Delivers(f, broadcast + [line])
  {
    SubsequenceOffered(f.got, broadcast[f.since..], line);
    assert (broadcast + [line])[f.since..] == broadcast[f.since..] + [line];
    assert f.written + f.hand + (f.queue + [line]) == f.written + f.hand + f.queue + [line];
  }

  lemma {:induction false} OfferOK(f: Follower, broadcast: seq<Line>, line: Line)
    requires FollowerOK(f, broadcast)
    ensures FollowerOK(Offer(f, line), broadcast + [line])
    ensures f.closings == 1 ==> FollowerOK(f, broadcast + [line])
  {
    OfferDelivers(f, broadcast, line);
  }

  /** What only fills queues and closes pipes leaves every byte where it was. */
  lemma {:induction false} SameFlow(
    a: Followers, b: Followers, registered: set<FollowerID>, closed: bool, broadcast: seq<Line>)
    requires AllOK(a, registered, closed, broadcast)
    requires forall f :: f in a ==>
      && f in b && b[f].written == a[f].written && b[f].hand == a[f].hand && b[f].sent == a[f].sent
      && (a[f].pipeClosed ==> b[f].pipeClosed)
    ensures PipesFlow(a, b)
  {
    forall f | f in a ensures f in b && PipeFlows(a[f], b[f]) {
      assert FollowerOK(a[f], broadcast);
      assert Received(a[f]) == Received(b[f]);
    }
  }

  /** A broadcast reaches every registered follower and no other. */
  lemma {:induction false} BroadcastOK(
    all: Followers, registered: set<FollowerID>, broadcast: seq<Line>, line: Line)
    requires AllOK(all, registered, false, broadcast)
    ensures AllOK(Offered(all, registered, line), registered, false, broadcast + [line])
  {
    forall f | f in all ensures FollowerOK(Offered(all, registered, line)[f], broadcast + [line]) {
      assert FollowerOK(all[f], broadcast);
      OfferOK(all[f], broadcast, line);
    }
    forall f | f in all ensures Offered(all, registered, line)[f].closings == all[f].closings {
    }
  }

  /** Releasing registered followers closes each `done` once. */
  lemma {:induction false} ReleaseOK(
    all: Followers, registered: set<FollowerID>, out: set<FollowerID>, closed: bool, broadcast: seq<Line>)
    requires AllOK(all, registered, closed, broadcast) && out <= registered
    ensures AllOK(Released(all, out), registered - out, closed, broadcast)
    ensures PipesFlow(all, Released(all, out))
  {
    SameFlow(all, Released(all, out), registered, closed, broadcast);
    forall f | f in all ensures FollowerOK(Released(all, out)[f], broadcast) {
      assert FollowerOK(all[f], broadcast);
    }
  }

  /** Closing the log releases everyone who was still registered. */
  lemma {:induction false} CloseOK(all: Followers, registered: set<FollowerID>, closed: bool, broadcast: seq<Line>)
    requires AllOK(all, registered, closed, broadcast)
    ensures AllOK(Released(all, registered), {}, true, broadcast)
    ensures PipesFlow(all, Released(all, registered))
    ensures forall f :: f in all ==> Released(all, registered)[f].closings == 1
    ensures closed ==> Released(all, registered) == all
  {
    ReleaseOK(all, registered, registered, closed, broadcast);
    assert registered - registered == {};
    forall f | f in all ensures Released(all, registered)[f].closings == 1 {
      assert FollowerOK(all[f], broadcast);
    }
  }

  /** One follower's goroutines touch nothing but their own follower. */
  lemma {:induction false} OneOK(
    all: Followers, registered: set<FollowerID>, closed: bool, broadcast: seq<Line>, f: FollowerID, x: Follower)
    requires AllOK(all, registered, closed, broadcast) && f in all
    requires FollowerOK(x, broadcast) && x.closings == all[f].closings && PipeFlows(all[f], x)
    ensures AllOK(all[f := x], registered, closed, broadcast)
    ensures PipesFlow(all, all[f := x])
  {
    SameFlow(all, all, registered, closed, broadcast);
  }

  /** The worker of a removed follower returns. */
  lemma {:induction false} StoppedOK(
    all: Followers, registered: set<FollowerID>, closed: bool, broadcast: seq<Line>, f: FollowerID)
    requires AllOK(all, registered, closed, broadcast) && f in all && f !in registered && !all[f].worker.Writing?
    ensures var after := all[f := all[f].(worker := Stopped)];
      AllOK(after, registered, closed, broadcast) && PipesFlow(all, after)
  {
    assert FollowerOK(all[f], broadcast);
    assert Received(all[f].(worker := Stopped)) == Received(all[f]);
    OneOK(all, registered, closed, broadcast, f, all[f].(worker := Stopped));
  }

  /** The bytes received are those of whole lines, and of one more if a write was cut short. */
  predicate Delivered(x: Follower, broadcast: seq<Line>)
    requires x.since <= |broadcast|
  {
    && Subsequence(x.written + x.hand, broadcast[x.since..]) && |x.hand| <= 1 && x.sent <= |Flat(x.hand)|
    && Flat(x.written) <= Received(x) <= Flat(x.written + x.hand)
  }

  /** What a pipe has received are the bytes of a subsequence, in order, of the lines
      broadcast since its follower registered, of which only the last may be cut short. */
  lemma {:induction false} PipeReceives(
    all: Followers, registered: set<FollowerID>, closed: bool, broadcast: seq<Line>, f: FollowerID)
    requires AllOK(all, registered, closed, broadcast) && f in all
    ensures all[f].since <= |broadcast| && Delivered(all[f], broadcast)
  {
    var x := all[f];
    assert FollowerOK(x, broadcast);
    PrefixSubsequence(x.written + x.hand, x.queue, broadcast[x.since..]);
    FlatSum(x.written, x.hand);
    assert Flat(x.hand) == Flat(x.hand)[..x.sent] + Flat(x.hand)[x.sent..];
    assert Flat(x.written + x.hand) == Received(x) + Flat(x.hand)[x.sent..];
  }

  /** A worker that keeps up loses nothing: as long as a follower is registered, no
      offer since then found its queue full if and only if it was given every line
      broadcast since. */
  lemma {:induction false} KeepingUpLosesNothing(
    all: Followers, registered: set<FollowerID>, closed: bool, broadcast: seq<Line>, f: FollowerID)
    requires AllOK(all, registered, closed, broadcast) && f in registered
    ensures all[f].since <= |broadcast|
    ensures all[f].lost == 0 <==> all[f].got == broadcast[all[f].since..]
    ensures |all[f].got| + all[f].lost == |broadcast[all[f].since..]|
  {
    assert FollowerOK(all[f], broadcast);
    SubsequenceLength(all[f].got, broadcast[all[f].since..]);
  }
}
