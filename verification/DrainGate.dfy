/** The admission gate of the mutating endpoints
    (internal/adapters/inbound/httpapi/httpapi.go:68-98, 207-226). Every step below is
    one critical section or one atomic operation of a mutator, a drainer, the
    readiness switch or a readiness check, which consists of two of them; a run is
    any interleaving of any number of them.
 */
module DrainGate {
  import opened Ports

  type Channel = nat
  type Thread = nat

  /** The gate's fields, the channels made and how often each was closed, and
      where each thread stands: what each readiness check in progress has seen of
      `draining`, and what each thread was last told. */
  datatype Gate = Gate(
    ready: bool, draining: bool, active: int, drained: Option<Channel>,
    made: nat, closings: map<Channel, nat>,
    inside: set<Thread>, announced: set<Thread>, waiting: map<Thread, Channel>, finished: set<Thread>,
    looked: map<Thread, bool>, told: map<Thread, bool>)

  datatype Step =
    | Enter(m: Thread)            // a mutation asks for admission
    | Leave(m: Thread)            // an admitted mutation returns
    | SetReady(v: bool)
    | Announce(d: Thread)         // a drainer withdraws readiness
    | Arm(d: Thread)              // it closes admission and looks at the work in flight
    | Wake(d: Thread)             // it sees its channel closed: Drain returns nil
    | GiveUp(d: Thread)           // its context ends first: Drain returns an error
    | LookDraining(t: Thread)     // a readiness check reads `draining` under the lock
    | LoadReady(t: Thread)        // it loads `ready` and answers

  const INITIAL := Gate(false, false, 0, None, 0, map[], {}, {}, map[], {}, map[], map[])

  predicate IsClosed(g: Gate, c: Channel) {
    c in g.closings && g.closings[c] > 0
  }

  /** Where a thread must stand to take a step. */
  predicate Enabled(g: Gate, s: Step) {
    match s
    case Enter(m) => m !in g.inside
    case Leave(m) => m in g.inside
    case SetReady(_) => true
    case Announce(d) => d !in g.announced && d !in g.waiting && d !in g.finished
    case Arm(d) => d in g.announced
    case Wake(d) => d in g.waiting && IsClosed(g, g.waiting[d])
    case GiveUp(d) => d in g.waiting
    case LookDraining(t) => t !in g.looked
    case LoadReady(t) => t in g.looked
  }

  function Next(g: Gate, s: Step): Gate
    requires Enabled(g, s)
  {
    match s
    case Enter(m) => if g.draining then g else g.(active := g.active + 1, inside := g.inside + {m})
    case Leave(m) =>
      var h := g.(active := g.active - 1, inside := g.inside - {m});
      if h.draining && h.active == 0 && h.drained.Some? then
        var c := h.drained.value;
        h.(drained := None, closings := h.closings[c := 1 + if c in h.closings then h.closings[c] else 0])
      else h
    case SetReady(v) => g.(ready := v)
    case Announce(d) => g.(ready := false, announced := g.announced + {d})
    case Arm(d) =>
      var h := g.(draining := true, announced := g.announced - {d});
      if h.active == 0 then h.(finished := h.finished + {d})
      else if h.drained.None? then
        h.(drained := Some(h.made), made := h.made + 1, waiting := h.waiting[d := h.made])
      else h.(waiting := h.waiting[d := h.drained.value])
    case Wake(d) => g.(waiting := g.waiting - {d}, finished := g.finished + {d})
    case GiveUp(d) => g.(waiting := g.waiting - {d})
    case LookDraining(t) => g.(looked := g.looked[t := g.draining])
    case LoadReady(t) => g.(looked := g.looked - {t}, told := g.told[t := g.ready && !g.looked[t]])
  }

  /** What a readiness check answers that nothing interrupts. */
  predicate Ready(g: Gate) {
    g.ready && !g.draining
  }

  /** Every step was enabled where it was taken. */
  predicate Legal(steps: seq<Step>)
    decreases |steps|, 0
  {
    steps == [] ||
    var earlier := steps[..|steps| - 1];
    Legal(earlier) && Enabled(After(earlier), steps[|steps| - 1])
  }

  function After(steps: seq<Step>): Gate
    requires Legal(steps)
    decreases |steps|, 1
  {
    if steps == [] then INITIAL else Next(After(steps[..|steps| - 1]), steps[|steps| - 1])
  }

  lemma {:induction false} OneMore(steps: seq<Step>, s: Step)
    ensures Legal(steps + [s]) <==> Legal(steps) && Enabled(After(steps), s)
    ensures Legal(steps + [s]) ==> After(steps + [s]) == Next(After(steps), s)
  {
    assert (steps + [s])[..|steps + [s]| - 1] == steps;
  }

  // ------------------------------------------------------------- invariant

  /** What every reachable gate satisfies. */
  ghost predicate Sane(g: Gate) {
    && g.active == |g.inside|
    && (g.draining && g.active > 0 <==> g.drained.Some?)
    && (g.drained.Some? ==> g.drained.value < g.made && g.drained.value !in g.closings)
    && (forall c: Channel :: c < g.made <==> c in g.closings || g.drained == Some(c))
    && (forall c :: c in g.closings ==> g.closings[c] == 1)
    && (forall d :: d in g.waiting ==> g.waiting[d] < g.made)
    && (g.finished != {} ==> g.draining && g.active == 0)
    && (g.waiting != map[] ==> g.draining)
    && (g.made > 0 ==> g.draining) && g.made <= 1
  }

  lemma {:induction false} StepKeepsSane(g: Gate, s: Step)
    requires Sane(g) && Enabled(g, s)
    ensures Sane(Next(g, s))
  {
    if s.Enter? || s.Leave? {
      assert s.Enter? ==> g.inside + {s.m} - {s.m} == g.inside;
    }
  }

  lemma {:induction false} Reachable(steps: seq<Step>)
    requires Legal(steps)
    ensures Sane(After(steps))
  {
    if steps != [] {
      Reachable(steps[..|steps| - 1]);
      StepKeepsSane(After(steps[..|steps| - 1]), steps[|steps| - 1]);
    }
  }

  // ------------------------------------------------------------- main results

  /** Over every interleaving: work in flight while draining is exactly what an
      open channel stands for, at most one channel is ever made, and it is closed
      at most once. */
  lemma {:induction false} DrainedChannel(steps: seq<Step>)
    requires Legal(steps)
    ensures var g := After(steps);
      && (g.draining && g.active > 0 <==> g.drained.Some?)
      && g.made <= 1 && forall c :: c in g.closings ==> c < g.made && g.closings[c] == 1
  {
    Reachable(steps);
  }

  lemma {:induction false} StaysDone(g: Gate, s: Step)
    requires Enabled(g, s) && g.finished != {}
    ensures Next(g, s).finished != {}
  {
    assert g.finished <= Next(g, s).finished;
  }

  lemma {:induction false} ClosedForGood(steps: seq<Step>, i: nat)
    requires Legal(steps) && i <= |steps| && Legal(steps[..i]) && After(steps[..i]).finished != {}
    ensures var g := After(steps); g.finished != {} && g.draining && g.active == 0 && g.inside == {} && !Ready(g)
  {
    Reachable(steps);
    if i < |steps| {
      var earlier := steps[..|steps| - 1];
      assert earlier[..i] == steps[..i];
      ClosedForGood(earlier, i);
      StaysDone(After(earlier), steps[|steps| - 1]);
    } else {
      assert steps[..i] == steps;
    }
  }

  lemma {:induction false} LegalPrefix(steps: seq<Step>, i: nat)
    requires Legal(steps) && i <= |steps|
    ensures Legal(steps[..i])
  {
    if i < |steps| {
      LegalPrefix(steps[..|steps| - 1], i);
      assert steps[..|steps| - 1][..i] == steps[..i];
    } else {
      assert steps[..i] == steps;
    }
  }

  /** Once any Drain has returned nil, admission stays closed, no mutation is ever in
      flight again, and at no instant is the server ready and not draining, whatever
      SetReady is told. What a readiness check answers is another matter: see below. */
  lemma {:induction false} DrainedForGood(steps: seq<Step>, i: nat, j: nat)
    requires Legal(steps) && i <= j <= |steps|
    ensures Legal(steps[..i]) && Legal(steps[..j])
    ensures After(steps[..i]).finished != {} ==>
      var g := After(steps[..j]); g.draining && g.active == 0 && g.inside == {} && !Ready(g)
  {
    LegalPrefix(steps, i);
    LegalPrefix(steps, j);
    assert steps[..j][..i] == steps[..i];
    if After(steps[..i]).finished != {} {
      ClosedForGood(steps[..j], i);
    }
  }

  /** Nobody is left waiting: when the last mutation has returned, every waiting
      drainer finds its channel closed; until then none of them does. */
  lemma {:induction false} NobodyIsStranded(steps: seq<Step>, d: Thread)
    requires Legal(steps) && d in After(steps).waiting
    ensures Enabled(After(steps), Wake(d)) <==> After(steps).active == 0
  {
    Reachable(steps);
    var g := After(steps);
    assert g.waiting[d] in g.closings || g.drained == Some(g.waiting[d]);
  }

  /** After admission was closed, no mutation is admitted. */
  lemma {:induction false} NoAdmissionWhileDraining(g: Gate, s: Step)
    requires Enabled(g, s) && g.draining
    ensures Next(g, s).draining && Next(g, s).inside <= g.inside && !Ready(Next(g, s))
  {
  }

  // ------------------------------------------------------- readiness checks

  /** Step `j` begins a readiness check of `t` that is not answered before step `k`. */
  ghost predicate Checking(steps: seq<Step>, j: nat, k: nat, t: Thread) {
    && j < k <= |steps| && steps[j] == LookDraining(t)
    && forall m :: j < m < k ==> steps[m] != LoadReady(t)
  }

  lemma {:induction false} StillLooking(g: Gate, s: Step, t: Thread)
    requires Enabled(g, s) && t in g.looked && s != LoadReady(t)
    ensures t in Next(g, s).looked && Next(g, s).looked[t] == g.looked[t]
  {
  }

  /** Until it answers, a check remembers what it saw of `draining`. */
  lemma {:induction false} Remembers(steps: seq<Step>, j: nat, k: nat, t: Thread)
    requires Legal(steps) && Checking(steps, j, k, t)
    ensures Legal(steps[..j]) && Legal(steps[..k])
    ensures var g := After(steps[..k]); t in g.looked && g.looked[t] == After(steps[..j]).draining
  {
    LegalPrefix(steps, j);
    LegalPrefix(steps, k);
    assert steps[..k] == steps[..k - 1] + [steps[k - 1]];
    OneMore(steps[..k - 1], steps[k - 1]);
    if j < k - 1 {
      Remembers(steps, j, k - 1, t);
      StillLooking(After(steps[..k - 1]), steps[k - 1], t);
    }
  }

  /** A readiness check answers whether the server was not draining at its first
      step and is ready at its second; the two instants may differ. */
  lemma {:induction false} CheckAnswers(steps: seq<Step>, j: nat, k: nat, t: Thread)
    requires Legal(steps) && k < |steps| && Checking(steps, j, k, t) && steps[k] == LoadReady(t)
    ensures Legal(steps[..j]) && Legal(steps[..k]) && Legal(steps[..k + 1])
    ensures var g := After(steps[..k + 1]);
      t in g.told && g.told[t] == (After(steps[..k]).ready && !After(steps[..j]).draining)
  {
    Remembers(steps, j, k, t);
    LegalPrefix(steps, k + 1);
    assert steps[..k + 1] == steps[..k] + [steps[k]];
    OneMore(steps[..k], steps[k]);
  }

  /** No check that begins after admission was closed ever answers that the server is ready. */
  lemma {:induction false} LaterChecksSayNo(steps: seq<Step>, i: nat, j: nat, k: nat, t: Thread)
    requires Legal(steps) && i <= j && k < |steps| && Checking(steps, j, k, t) && steps[k] == LoadReady(t)
    requires Legal(steps[..i]) && After(steps[..i]).draining
    ensures Legal(steps[..k + 1])
    ensures t in After(steps[..k + 1]).told && !After(steps[..k + 1]).told[t]
  {
    CheckAnswers(steps, j, k, t);
    StaysDraining(steps, i, j);
  }

  lemma {:induction false} StaysDraining(steps: seq<Step>, i: nat, j: nat)
    requires Legal(steps) && i <= j <= |steps| && Legal(steps[..i]) && After(steps[..i]).draining
    ensures Legal(steps[..j]) && After(steps[..j]).draining
  {
    LegalPrefix(steps, j);
    if i < j {
      StaysDraining(steps, i, j - 1);
      assert steps[..j] == steps[..j - 1] + [steps[j - 1]];
      OneMore(steps[..j - 1], steps[j - 1]);
      NoAdmissionWhileDraining(After(steps[..j - 1]), steps[j - 1]);
    }
  }

  /** After `more` steps the check of `t` answers that the server is ready. */
  ghost predicate SaysYes(steps: seq<Step>, more: seq<Step>, t: Thread) {
    && LoadReady(t) !in more && Legal(steps + more + [LoadReady(t)])
    && var g := After(steps + more + [LoadReady(t)]); t in g.told && g.told[t]
  }

  /** Even once a Drain has returned nil, a check in progress can still answer that the
      server is ready, if and only if it looked at `draining` before admission was closed. */
  lemma {:induction false} LateYesIff(steps: seq<Step>, j: nat, t: Thread)
    requires Legal(steps) && Checking(steps, j, |steps|, t) && After(steps).finished != {}
    ensures Legal(steps[..j])
    ensures (exists more :: SaysYes(steps, more, t)) <==> !After(steps[..j]).draining
  {
    LegalPrefix(steps, j);
    if !After(steps[..j]).draining {
      CanSayYes(steps, j, t);
    }
    forall more | SaysYes(steps, more, t) ensures !After(steps[..j]).draining {
      var run := steps + more + [LoadReady(t)];
      var k := |steps + more|;
      assert run[..j] == steps[..j] && run[..k + 1] == run;
      forall m | j < m < k ensures run[m] != LoadReady(t) {
        assert run[m] == if m < |steps| then steps[m] else more[m - |steps|];
      }
      CheckAnswers(run, j, k, t);
    }
  }

  lemma {:induction false} CanSayYes(steps: seq<Step>, j: nat, t: Thread)
    requires Legal(steps) && Checking(steps, j, |steps|, t) && Legal(steps[..j]) && !After(steps[..j]).draining
    ensures SaysYes(steps, [Step.SetReady(true)], t)
  {
    Remembers(steps, j, |steps|, t);
    assert steps[..|steps|] == steps;
    OneMore(steps, Step.SetReady(true));
    OneMore(steps + [Step.SetReady(true)], LoadReady(t));
  }

  /** The smallest such run: thread 1 looks, thread 0 drains at once, somebody sets ready. */
  lemma {:induction false} ReadyAfterDrain()
    ensures var steps := [LookDraining(1), Announce(0), Arm(0)];
      Legal(steps) && After(steps).finished == {0} && SaysYes(steps, [Step.SetReady(true)], 1)
  {
    var look := [LookDraining(1)];
    OneMore([], LookDraining(1));
    OneMore(look, Announce(0));
    OneMore(look + [Announce(0)], Arm(0));
    var steps := look + [Announce(0)] + [Arm(0)];
    assert [] + look == look && steps == [LookDraining(1), Announce(0), Arm(0)];
    assert steps[..0] == [];
    CanSayYes(steps, 0, 1);
  }

  // ------------------------------------------------------------- the gate

  /** The API's gate fields, changed by the same steps. */
  class API {
    var ready: bool
    var draining: bool
    var activeMutations: int
    var drained: Option<Channel>
    /** The channels that were made are those below `made`; these of them are closed. */
    var made: nat
    var closed: set<Channel>
    /** The same as a step machine, with every thread's place in it. */
    ghost var g: Gate

    constructor ()
      ensures Valid() && g == INITIAL
    {
      ready, draining, activeMutations, drained, made, closed, g := false, false, 0, None, 0, {}, INITIAL;
    }

    ghost predicate Valid()
      reads this
    {
      && Sane(g)
      && ready == g.ready && draining == g.draining && activeMutations == g.active && drained == g.drained
      && made == g.made && closed == g.closings.Keys
    }

    /** The first half of mutation. */
    method Admit(ghost m: Thread) returns (admitted: bool)
      requires Valid() && Enabled(g, Enter(m))
      modifies this
      ensures Valid() && g == Next(old(g), Enter(m))
      ensures admitted <==> !old(draining)
      ensures admitted <==> m in g.inside
    {
      StepKeepsSane(g, Enter(m));
      g := Next(g, Enter(m));
      if draining {
        return false;
      }
      activeMutations := activeMutations + 1;
      admitted := true;
    }

    /** The deferred half of mutation. */
    method Return(ghost m: Thread)
      requires Valid() && Enabled(g, Leave(m))
      modifies this
      ensures Valid() && g == Next(old(g), Leave(m))
    {
      StepKeepsSane(g, Leave(m));
      g := Next(g, Leave(m));
      activeMutations := activeMutations - 1;
      if draining && activeMutations == 0 && drained.Some? {
        closed := closed + {drained.value};
        drained := None;
      }
    }

    method SetReady(v: bool)
      requires Valid()
      modifies this
      ensures Valid() && g == Next(old(g), Step.SetReady(v))
    {
      g := Next(g, Step.SetReady(v));
      ready := v;
    }

    /** The first half of Ready. */
    method LookAtDraining(ghost t: Thread) returns (seen: bool)
      requires Valid() && Enabled(g, LookDraining(t))
      modifies this`g
      ensures Valid() && g == Next(old(g), LookDraining(t))
      ensures seen == draining && t in g.looked && g.looked[t] == seen
    {
      StepKeepsSane(g, LookDraining(t));
      g := Next(g, LookDraining(t));
      seen := draining;
    }

    /** The second half: whatever happened since, `seen` is what the first half saw. */
    method Answer(ghost t: Thread, seen: bool) returns (r: bool)
      requires Valid() && Enabled(g, LoadReady(t)) && g.looked[t] == seen
      modifies this`g
      ensures Valid() && g == Next(old(g), LoadReady(t))
      ensures t in g.told && g.told[t] == r
      ensures r <==> ready && !seen
    {
      StepKeepsSane(g, LoadReady(t));
      g := Next(g, LoadReady(t));
      r := ready && !seen;
    }

    /** Both halves with nothing in between. */
    method IsReady(ghost t: Thread) returns (r: bool)
      requires Valid() && t !in g.looked
      modifies this`g
      ensures Valid() && (r <==> Ready(old(g)))
      ensures g.finished != {} ==> !r
    {
      var seen := LookAtDraining(t);
      r := Answer(t, seen);
    }

    /** Drain's first operation. */
    method WithdrawReadiness(ghost d: Thread)
      requires Valid() && Enabled(g, Announce(d))
      modifies this
      ensures Valid() && g == Next(old(g), Announce(d))
    {
      StepKeepsSane(g, Announce(d));
      g := Next(g, Announce(d));
      ready := false;
    }

    /** Drain's critical section: done at once, or the channel to wait on. */
    method CloseAdmission(ghost d: Thread) returns (wait: Option<Channel>)
      requires Valid() && Enabled(g, Arm(d)) && d !in g.finished
      modifies this
      ensures Valid() && g == Next(old(g), Arm(d))
      ensures wait.None? <==> d in g.finished
      ensures wait.Some? ==> d in g.waiting && g.waiting[d] == wait.value && activeMutations > 0
      ensures wait.None? ==> activeMutations == 0 && !Ready(g)
    {
      StepKeepsSane(g, Arm(d));
      g := Next(g, Arm(d));
      draining := true;
      if activeMutations == 0 {
        return None;
      }
      if drained.None? {
        drained, made := Some(made), made + 1;
      }
      wait := drained;
    }

    /** Drain's wait on its channel: whichever comes first, the close or the end of its context. */
    method Await(ghost d: Thread, wait: Channel, cancelled: bool) returns (ok: bool)
      requires Valid() && d in g.waiting && g.waiting[d] == wait && (cancelled || wait in closed)
      modifies this
      ensures Valid()
      ensures ok ==> old(Enabled(g, Wake(d))) && g == Next(old(g), Wake(d)) && activeMutations == 0 && draining
      ensures !ok ==> g == Next(old(g), GiveUp(d)) && cancelled
    {
      var first: bool := *;
      ok := wait in closed && (first || !cancelled);
      StepKeepsSane(g, if ok then Wake(d) else GiveUp(d));
      g := Next(g, if ok then Wake(d) else GiveUp(d));
    }
  }
}
