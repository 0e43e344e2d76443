/** The timing of automatic restarts (internal/application/service.go:718-738, 757-806). */
module RestartBackoff {
  import opened Ports
  import opened Rows

  const SECOND: int := 1_000_000_000
  const MINUTE: int := 60 * SECOND
  const HOUR: int := 60 * MINUTE

  function Pow2(n: nat): (r: int)
    ensures r >= 1
  {
    if n == 0 then 1 else 2 * Pow2(n - 1)
  }

  function Min(a: int, b: int): int {
    if a < b then a else b
  }

  /** The delay before restart number `k`. */
  function Backoff(k: int): (d: int)
    requires k >= 1
    ensures SECOND <= d <= MINUTE
  {
    var d := SECOND * Pow2(Min(k - 1, 6));
    if d > MINUTE then MINUTE else d
  }

  predicate SamePlan(a: Link, b: Link) {
    b.autoRestart == a.autoRestart && b.restarts == a.restarts && b.nextRestartAt == a.nextRestartAt
  }

  /** From plan `a`, plan `b` was made at instant `now`. */
  predicate Planned(a: Link, b: Link, now: int) {
    && b.autoRestart == a.autoRestart && b.restarts == a.restarts + 1
    && b.nextRestartAt == now + Backoff(b.restarts) < b.expiresAt
  }

  /** From plan `a`, a plan made at instant `now` would have come too late; it is counted all the same. */
  predicate TooLate(a: Link, b: Link, now: int) {
    && b.autoRestart == a.autoRestart && b.restarts == a.restarts + 1 && b.nextRestartAt == a.nextRestartAt
    && now + Backoff(b.restarts) >= b.expiresAt
  }

  /** How an attempt to plan a restart may leave the record. */
  predicate PlanMoved(a: Link, b: Link, now: int) {
    SamePlan(a, b) || Planned(a, b, now) || TooLate(a, b, now)
  }

  /** The same for the attempt that follows a failed restart. */
  predicate PlanStep(a: Link, b: Link, now: int) {
    SamePlan(a, b) || (b.status == Failed && Planned(a, b, now)) || (b.status == Expired && TooLate(a, b, now))
  }

  ghost predicate PlansStill(a: LinkRows, b: LinkRows) {
    forall id :: id in a ==> id in b && SamePlan(a[id].link, b[id].link)
  }

  ghost predicate PlansMoved(a: LinkRows, b: LinkRows, now: int) {
    forall id :: id in a ==> id in b && PlanMoved(a[id].link, b[id].link, now)
  }

  datatype Plan = Plan(autoRestart: bool, restarts: nat, nextRestartAt: int)

  function PlanOf(l: Link): Plan {
    Plan(l.autoRestart, l.restarts, l.nextRestartAt)
  }

  function PlansOf(links: LinkRows): map<LinkID, Plan> {
    map id | id in links :: PlanOf(links[id].link)
  }

  lemma {:induction false} StillBut(id: LinkID, a: LinkRows, b: LinkRows)
    requires id in a && OnlyRow(a, b, id) && SamePlan(a[id].link, b[id].link)
    ensures PlansOf(a) == PlansOf(b)
  {
  }

  lemma {:induction false} SamePlans(a: LinkRows, b: LinkRows)
    ensures PlansOf(a) == PlansOf(b) ==> PlansStill(a, b)
  {
    if PlansOf(a) == PlansOf(b) {
      forall id | id in a ensures id in b && SamePlan(a[id].link, b[id].link) {
        assert id in PlansOf(a) && PlansOf(a)[id] == PlanOf(a[id].link);
        assert id in PlansOf(b) && PlansOf(b)[id] == PlanOf(b[id].link);
      }
    }
  }

  /** A record was inserted, and nothing else changed but that record. */
  lemma {:induction false} InsertedStill(id: LinkID, a: LinkRows, m: LinkRows, b: LinkRows)
    requires id !in a && (m == a || (id in m && m == a[id := m[id]])) && OnlyRow(m, b, id)
    ensures PlansStill(a, b)
  {
  }

  lemma {:induction false} MovedBut(id: LinkID, a: LinkRows, b: LinkRows, now: int)
    requires id in a && OnlyRow(a, b, id) && PlanMoved(a[id].link, b[id].link, now)
    ensures PlansMoved(a, b, now)
  {
  }

  /** What a timer or nobody did to the plans is a move of them. */
  lemma {:induction false} MovesInclude(a: LinkRows, b: LinkRows, now: int)
    ensures PlansStill(a, b) || PlansKept(a, b, now) ==> PlansMoved(a, b, now)
  {
  }

  /** The same for a record that was written: its process is the one of the copy planned from. */
  predicate PlannedFrom(a: Link, row: LinkRow, now: int) {
    && PlanStep(a, row.link, now) && row.link.process == a.process && row.link.restarts == a.restarts + 1
    && !row.deleted
  }

  /** The plans of a set of links after a timer went off: one of them may have taken a step, once it was due. */
  ghost predicate PlansKept(a: LinkRows, b: LinkRows, now: int) {
    forall id :: id in a ==> id in b && PlanKept(a[id].link, b[id].link, now)
  }

  predicate PlanKept(a: Link, b: Link, now: int) {
    SamePlan(a, b) || (PlanStep(a, b, now) && a.nextRestartAt <= now)
  }

  lemma {:induction false} PlansKeptBut(id: LinkID, a: LinkRows, b: LinkRows, now: int)
    requires id in a && OnlyRow(a, b, id) && PlanKept(a[id].link, b[id].link, now)
    ensures PlansKept(a, b, now)
  {
  }

  lemma {:induction false} PlanStepFrom(a: Link, later: Link, b: Link, now: int)
    requires SamePlan(a, later) && (SamePlan(later, b) || PlanStep(later, b, now))
    ensures PlanStep(a, b, now)
  {
  }

  // ------------------------------------------------------------ one chain

  /** When attempt `i` may be planned at the earliest: once the one before was due. */
  function Earliest(from: int, dues: seq<int>, i: nat): int
    requires i <= |dues|
  {
    if i == 0 then from else dues[i - 1]
  }

  /** One failing chain of automatic restarts of a link that expires at `expiry`:
      dues[i] is the instant restart number i + 1 was planned for. */
  ghost predicate Chain(from: int, expiry: int, dues: seq<int>) {
    forall i :: 0 <= i < |dues| ==> Earliest(from, dues, i) + Backoff(i + 1) <= dues[i] < expiry
  }

  /** Planning a restart at an instant no earlier than the previous due time
      continues the chain, and the restart counter is its length. */
  lemma {:induction false} ChainGrows(from: int, dues: seq<int>, a: Link, b: Link, now: int)
    requires Chain(from, a.expiresAt, dues) && |dues| == a.restarts && b.expiresAt == a.expiresAt
    requires Planned(a, b, now) && Earliest(from, dues, |dues|) <= now
    ensures Chain(from, b.expiresAt, dues + [b.nextRestartAt]) && |dues + [b.nextRestartAt]| == b.restarts
  {
    var more := dues + [b.nextRestartAt];
    forall i | 0 <= i < |more| ensures Earliest(from, more, i) + Backoff(i + 1) <= more[i] < b.expiresAt {
      assert i < |dues| ==> Earliest(from, dues, i) + Backoff(i + 1) <= dues[i];
    }
  }

  /** The record is at the end of the chain: every restart counted is one of its plans. */
  ghost predicate InChain(from: int, dues: seq<int>, l: Link) {
    && Chain(from, l.expiresAt, dues) && |dues| == l.restarts
    && (dues != [] ==> dues[|dues| - 1] == l.nextRestartAt)
  }

  /** A timer that goes off leaves the chain, extends it, or ends it as too late. */
  lemma {:induction false} ChainKept(from: int, dues: seq<int>, a: Link, b: Link, now: int)
    requires InChain(from, dues, a) && b.expiresAt == a.expiresAt && from <= now && PlanKept(a, b, now)
    ensures SamePlan(a, b) ==> InChain(from, dues, b)
    ensures !SamePlan(a, b) && b.status != Expired ==> InChain(from, dues + [b.nextRestartAt], b)
  {
    if !SamePlan(a, b) && b.status != Expired {
      ChainGrows(from, dues, a, b, now);
    }
  }

  /** Any operation leaves the chain, or extends it by a plan made once the one before
      was due, or counts a restart that is no part of it: one that would have come too
      late, or one planned while the one before was still pending. */
  lemma {:induction false} ChainMoves(from: int, dues: seq<int>, a: Link, b: Link, now: int)
    requires InChain(from, dues, a) && b.expiresAt == a.expiresAt && from <= now && PlanMoved(a, b, now)
    ensures
      || (SamePlan(a, b) && InChain(from, dues, b))
      || (Planned(a, b, now) && InChain(from, dues + [b.nextRestartAt], b))
      || GivenUp(dues, b, now) || Preempted(dues, b)
  {
    if Planned(a, b, now) && Earliest(from, dues, |dues|) <= now {
      ChainGrows(from, dues, a, b, now);
    }
  }

  /** The restart after the chain was counted but would have come too late. */
  predicate GivenUp(dues: seq<int>, l: Link, now: int) {
    l.restarts == |dues| + 1 && now + Backoff(|dues| + 1) >= l.expiresAt
  }

  /** The restart after the chain was planned before the last one of the chain was due. */
  predicate Preempted(dues: seq<int>, l: Link) {
    dues != [] && l.restarts == |dues| + 1 && l.nextRestartAt - Backoff(l.restarts) < dues[|dues| - 1]
  }

  /** Who may have planned a restart in a step: nobody, a timer that went off, or a request. */
  datatype Planner = Nobody | Timer | Request

  /** Why a chain is over: only a request can plan while a restart is pending. */
  predicate Ends(dues: seq<int>, l: Link, now: int, who: Planner) {
    match who
    case Nobody => false
    case Timer => GivenUp(dues, l, now)
    case Request => GivenUp(dues, l, now) || Preempted(dues, l)
  }

  /** Record `b` holds the plan that follows the one of record `a`. */
  predicate Continues(from: int, a: Link, b: Link) {
    && b.restarts == a.restarts + 1
    && (if a.restarts == 0 then from else a.nextRestartAt) + Backoff(b.restarts) <= b.nextRestartAt < b.expiresAt
  }

  /** A chain goes on, is left alone, or ends for a reason. */
  lemma {:induction false} ChainSteps(from: int, dues: seq<int>, a: Link, b: Link, now: int, clock: int, who: Planner)
    requires InChain(from, dues, a) && b.expiresAt == a.expiresAt && from <= now <= clock && PlanMoved(a, b, now)
    requires (who.Nobody? ==> SamePlan(a, b)) && (who.Timer? ==> PlanKept(a, b, now))
    ensures SamePlan(a, b) ==> InChain(from, dues, b) && !Continues(from, a, b)
    ensures Continues(from, a, b) ==> InChain(from, dues + [b.nextRestartAt], b)
    ensures !SamePlan(a, b) && !Continues(from, a, b) ==> Ends(dues, b, clock, who)
  {
    ChainMoves(from, dues, a, b, now);
    if PlanKept(a, b, now) {
      ChainKept(from, dues, a, b, now);
    }
    var more := dues + [b.nextRestartAt];
    if Continues(from, a, b) {
      forall i | 0 <= i < |more| ensures Earliest(from, more, i) + Backoff(i + 1) <= more[i] < b.expiresAt {
        assert i < |dues| ==> Earliest(from, dues, i) + Backoff(i + 1) <= dues[i];
      }
    } else if InChain(from, more, b) {
      assert Earliest(from, more, |dues|) + Backoff(|dues| + 1) <= more[|dues|];
    }
  }

  /** The time left strictly decreases along a chain, by at least a second each
      time: no chain goes on forever. */
  lemma {:induction false} TimeLeftDecreases(from: int, expiry: int, dues: seq<int>, i: nat)
    requires Chain(from, expiry, dues) && i < |dues|
    ensures 0 < expiry - dues[i] <= expiry - Earliest(from, dues, i) - SECOND
  {
    assert Earliest(from, dues, i) + Backoff(i + 1) <= dues[i];
  }

  /** The delays of the first n restarts together. */
  function TotalDelay(n: nat): (d: int)
    ensures d >= 0
  {
    if n == 0 then 0 else TotalDelay(n - 1) + Backoff(n)
  }

  lemma {:induction false} ChainSpreads(from: int, expiry: int, dues: seq<int>, n: nat)
    requires Chain(from, expiry, dues) && n <= |dues|
    ensures from + TotalDelay(n) <= Earliest(from, dues, n)
  {
    if n > 0 {
      ChainSpreads(from, expiry, dues, n - 1);
      assert Earliest(from, dues, n - 1) + Backoff(n - 1 + 1) <= dues[n - 1];
    }
  }

  lemma {:induction false} PowersOfTwo()
    ensures Pow2(0) == 1 && Pow2(1) == 2 && Pow2(2) == 4 && Pow2(3) == 8 && Pow2(4) == 16 && Pow2(5) == 32 && Pow2(6) == 64
  {
    assert Pow2(2) == 4;
    assert Pow2(4) == 16;
  }

  /** Restarts 1 .. 6 wait 1, 2, 4, 8, 16 and 32 seconds, every later one a minute. */
  lemma {:induction false} TotalDelayIs(n: nat)
    ensures TotalDelay(n) == if n <= 6 then SECOND * (Pow2(n) - 1) else 63 * SECOND + (n - 6) * MINUTE
  {
    PowersOfTwo();
    if n > 0 {
      TotalDelayIs(n - 1);
      assert Backoff(n) == if n >= 7 then MINUTE else SECOND * Pow2(n - 1);
    }
  }

  const MAX_CHAIN: nat := 724

  /** Under the longest time to live, one failing chain plans at most 724 restarts. */
  lemma {:induction false} ChainBound(from: int, expiry: int, dues: seq<int>)
    requires Chain(from, expiry, dues) && expiry <= from + 12 * HOUR
    ensures |dues| <= MAX_CHAIN
  {
    if dues != [] {
      ChainSpreads(from, expiry, dues, |dues|);
      TotalDelayIs(|dues|);
      assert dues[|dues| - 1] < expiry;
    }
  }

  /** Each attempt planned the moment the one before is due. */
  function Eager(from: int, n: nat): (dues: seq<int>)
    ensures |dues| == n && forall i :: 0 <= i < n ==> dues[i] == from + TotalDelay(i + 1)
  {
    if n == 0 then [] else Eager(from, n - 1) + [from + TotalDelay(n)]
  }

  /** A chain of n restarts fits before an expiry if and only if the n delays do;
      with twelve hours to live, 724 fit. */
  lemma {:induction false} ChainFits(from: int, expiry: int, n: nat)
    ensures (exists dues :: |dues| == n && Chain(from, expiry, dues)) <==> (n == 0 || from + TotalDelay(n) < expiry)
    ensures n == MAX_CHAIN && expiry == from + 12 * HOUR ==> exists dues :: |dues| == n && Chain(from, expiry, dues)
  {
    if n == 0 {
      var none: seq<int> := [];
      assert |none| == 0 && Chain(from, expiry, none);
    } else if from + TotalDelay(n) < expiry {
      EagerChain(from, expiry, n);
    } else {
      forall dues: seq<int> | |dues| == n ensures !Chain(from, expiry, dues) {
        TooLong(from, expiry, dues);
      }
    }
    TotalDelayIs(n);
  }

  lemma {:induction false} EagerChain(from: int, expiry: int, n: nat)
    requires from + TotalDelay(n) < expiry
    ensures Chain(from, expiry, Eager(from, n))
  {
    var dues := Eager(from, n);
    forall i | 0 <= i < n ensures Earliest(from, dues, i) + Backoff(i + 1) <= dues[i] < expiry {
      DelaysGrow(i + 1, n);
      assert TotalDelay(i + 1) == TotalDelay(i) + Backoff(i + 1);
    }
  }

  lemma {:induction false} DelaysGrow(m: nat, n: nat)
    requires m <= n
    ensures TotalDelay(m) <= TotalDelay(n)
  {
    if m < n {
      DelaysGrow(m, n - 1);
    }
  }

  lemma {:induction false} TooLong(from: int, expiry: int, dues: seq<int>)
    requires dues != [] && from + TotalDelay(|dues|) >= expiry
    ensures !Chain(from, expiry, dues)
  {
    var last := |dues| - 1;
    assert Chain(from, expiry, dues) ==> Earliest(from, dues, last) + Backoff(last + 1) <= dues[last] < expiry;
    if Chain(from, expiry, dues) {
      ChainSpreads(from, expiry, dues, |dues|);
    }
  }
}
