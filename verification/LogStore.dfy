/** The log of one link (internal/adapters/outbound/logs/store.go): a bounded ring of
    complete records, broadcast to followers. Every method is one critical
    section, or one step of a follower's goroutines, so any interleaving of
    appenders, followers, cancellations, failing pipes and Close is a sequence of calls.
 */
module LogStore {
  import opened LogFollowers
  import opened LogRing
  import opened Ports

  datatype LogError = Cancelled | ClosedPipe

  /** The entry as it is stored: stamped, redacted, on one of the two streams. */
  function Sanitized(e: Entry, now: int, redact: string -> string): Entry {
    Entry(if e.at == 0 then now else e.at, if e.stream == "stderr" then "stderr" else "stdout", redact(e.text))
  }

  class LinkLog {
    const redact: string -> string
    const encode: Entry -> Line
    var records: seq<Record>
    var bytes: int
    var closed: bool
    var followers: set<FollowerID>
    /** Every follower ever made, registered or not. */
    var all: Followers
    /** Every record no larger than the ring that was appended before Close. */
    ghost var accepted: seq<Record>
    /** Every line appended before Close: history, read only to mark where a follower joined. */
    var broadcast: seq<Line>

    constructor (redact: string -> string, encode: Entry -> Line)
      ensures this.redact == redact && this.encode == encode && Valid()
      ensures accepted == [] && broadcast == [] && !closed && all == map[]
    {
      this.redact, this.encode := redact, encode;
      records, bytes, closed, followers, all := [], 0, false, {}, map[];
      accepted, broadcast := [], [];
    }

    ghost predicate Valid()
      reads this
    {
      Retained(accepted, records) && bytes == Sum(records) && AllOK(all, followers, closed, broadcast)
    }

    /** Makes room for a record by dropping the oldest ones. */
    method Evict(size: nat)
      requires Retained(accepted, records) && bytes == Sum(records) && size <= CAPACITY
      modifies this`records, this`bytes
      ensures |records| <= |accepted| && records == accepted[|accepted| - |records|..] && bytes == Sum(records)
      ensures LongestFrom(accepted, |accepted| - |records|, CAPACITY - size)
    {
      ghost var all, k := records, 0;
      while bytes + size > CAPACITY && |records| > 0
        invariant k <= |all| && records == all[k..] && bytes == Sum(all[k..])
        invariant Needed(all, k, CAPACITY - size)
        decreases |all| - k
      {
        DropOne(all, k);
        bytes := bytes - records[0].size;
        records := records[1..];
        k := k + 1;
      }
      RoomMade(accepted, all, k, size);
    }

    method Append(cancelled: bool, entry: Entry, now: int) returns (err: Option<LogError>)
      requires Valid()
      modifies this
      ensures Valid() && closed == old(closed) && followers == old(followers)
      ensures cancelled ==> err == Some(Cancelled)
      ensures !cancelled ==> (err.Some? <==> closed) && (err.None? || err == Some(ClosedPipe))
      ensures err.Some? ==>
        records == old(records) && accepted == old(accepted) && broadcast == old(broadcast) && all == old(all)
      ensures err.None? ==>
        var e := Sanitized(entry, now, redact);
        var r := Record(e, |encode(e)| + 1);
        && accepted == old(accepted) + (if r.size <= CAPACITY then [r] else [])
        && broadcast == old(broadcast) + [encode(e) + [10]]
        && all == Offered(old(all), followers, encode(e) + [10])
      ensures PipesFlow(old(all), all)
    {
      SameFlow(all, all, followers, closed, broadcast);
      if cancelled {
        return Some(Cancelled);
      }
      var e := Sanitized(entry, now, redact);
      var line := encode(e) + [10];
      var r := Record(e, |encode(e)| + 1);
      if closed {
        return Some(ClosedPipe);
      }
      if r.size <= CAPACITY {
        Keep(r);
      }
      SameFlow(all, Offered(all, followers, line), followers, closed, broadcast);
      Broadcast(line);
      err := None;
    }

    /** Makes room for a record and appends it. */
    method Keep(r: Record)
      requires Valid() && r.size <= CAPACITY
      modifies this`records, this`bytes, this`accepted
      ensures Valid() && accepted == old(accepted) + [r]
    {
      Evict(r.size);
      Push(accepted, |accepted| - |records|, r);
      records := records + [r];
      bytes := bytes + r.size;
      accepted := accepted + [r];
    }

    /** Offers a line to every registered follower, in any order. */
    method Broadcast(line: Line)
      requires AllOK(all, followers, closed, broadcast) && !closed
      modifies this`all, this`broadcast
      ensures AllOK(all, followers, closed, broadcast)
      ensures broadcast == old(broadcast) + [line] && all == Offered(old(all), followers, line)
    {
      BroadcastOK(all, followers, broadcast, line);
      OfferAll(line);
      broadcast := broadcast + [line];
    }

    method OfferAll(line: Line)
      requires followers <= all.Keys
      modifies this`all
      ensures all == Offered(old(all), followers, line)
    {
      var rest := followers;
      assert Offered(all, followers - rest, line) == all;
      while rest != {}
        invariant rest <= followers
        invariant all == Offered(old(all), followers - rest, line)
      {
        var f :| f in rest;
        OfferedMore(old(all), followers - rest, f, line);
        assert followers - rest + {f} == followers - (rest - {f});
        all := all[f := Offer(all[f], line)];
        rest := rest - {f};
      }
      assert followers - rest == followers;
    }

    /** The last n records, or all of them if there are fewer. */
    method Tail(cancelled: bool, n: int) returns (err: Option<LogError>, out: seq<Entry>)
      requires Valid()
      ensures cancelled <==> err.Some?
      ensures err.None? ==>
        && |out| == (if n < 0 then 0 else if n > |records| then |records| else n)
        && forall i :: 0 <= i < |out| ==> out[i] == records[|records| - |out| + i].entry
    {
      out := [];
      if cancelled {
        return Some(Cancelled), out;
      }
      var m := if n < 0 then 0 else if n > |records| then |records| else n;
      var start := |records| - m;
      for i := 0 to m
        invariant |out| == i && forall k :: 0 <= k < i ==> out[k] == records[start + k].entry
      {
        out := out + [records[start + i].entry];
      }
      err := None;
    }

    /** Registers a follower, unless the log is closed: then its pipe is closed at once. */
    method Follow(cancelled: bool, f: FollowerID) returns (err: Option<LogError>, open: bool)
      requires Valid() && f !in all
      modifies this`followers, this`all
      ensures Valid()
      ensures cancelled <==> err.Some?
      ensures open <==> !cancelled && !closed
      ensures open ==> followers == old(followers) + {f} && all == old(all)[f := Fresh(|broadcast|)]
      ensures !open ==> followers == old(followers) && all == old(all)
      ensures PipesFlow(old(all), all)
    {
      err, open := None, false;
      SameFlow(all, all[f := Fresh(|broadcast|)], followers, closed, broadcast);
      SameFlow(all, all, followers, closed, broadcast);
      if cancelled {
        err := Some(Cancelled);
      } else if !closed {
        all := all[f := Fresh(|broadcast|)];
        followers := followers + {f};
        open := true;
        assert broadcast[|broadcast|..] == [];
      }
    }

    /** Removes a follower once, however often it is called. */
    method Remove(f: FollowerID)
      requires Valid() && f in all
      modifies this`followers, this`all
      ensures Valid() && f !in followers
      ensures followers == old(followers) - {f}
      ensures all == Released(old(all), {f} * old(followers))
      ensures f in all && all[f].closings == 1
      ensures PipesFlow(old(all), all)
    {
      ReleaseOK(all, followers, {f} * followers, closed, broadcast);
      assert followers - {f} * followers == followers - {f};
      RemoveIfRegistered(f);
      assert FollowerOK(all[f], broadcast);
    }

    method RemoveIfRegistered(f: FollowerID)
      requires f in all
      modifies this`followers, this`all
      ensures followers == old(followers) - {f}
      ensures all == Released(old(all), {f} * old(followers))
    {
      if f in followers {
        ReleasedMore(all, {}, f);
        assert Released(all, {}) == all && {} + {f} == {f} == {f} * followers;
        followers := followers - {f};
        all := all[f := Release(all[f])];
      } else {
        assert {f} * followers == {} && Released(all, {}) == all;
      }
    }

    /** Marks the log complete and releases every follower. */
    method Close()
      requires Valid()
      modifies this`closed, this`followers, this`all
      ensures Valid() && closed && followers == {}
      ensures all == Released(old(all), old(followers))
      ensures forall f :: f in all ==> all[f].closings == 1
      ensures PipesFlow(old(all), all)
    {
      CloseOK(all, followers, closed, broadcast);
      CloseOnce();
    }

    method CloseOnce()
      requires followers <= all.Keys && (closed ==> followers == {})
      modifies this`closed, this`followers, this`all
      ensures closed && followers == {}
      ensures if old(closed) then all == old(all) else all == Released(old(all), old(followers))
    {
      if closed {
        return;
      }
      closed := true;
      ReleaseAll();
    }

    method ReleaseAll()
      requires followers <= all.Keys
      modifies this`followers, this`all
      ensures followers == {} && all == Released(old(all), old(followers))
    {
      assert Released(all, followers - followers) == all;
      while followers != {}
        invariant followers <= old(followers)
        invariant all == Released(old(all), old(followers) - followers)
      {
        var f :| f in followers;
        ReleasedMore(old(all), old(followers) - followers, f);
        assert old(followers) - followers + {f} == old(followers) - (followers - {f});
        followers := followers - {f};
        all := all[f := Release(all[f])];
      }
      assert old(followers) - followers == old(followers);
    }

    // ------------------------------------------------ a follower's goroutines

    /** The worker takes a line; it may still do so after `done` was closed. */
    method Take(f: FollowerID)
      requires Valid() && f in all && all[f].worker.Idle? && all[f].queue != []
      modifies this`all
      ensures Valid() && all == old(all)[f := Taken(old(all[f]))]
      ensures PipesFlow(old(all), all)
    {
      TakenOK(all[f], broadcast);
      OneOK(all, followers, closed, broadcast, f, Taken(all[f]));
      all := all[f := Taken(all[f])];
    }

    /** The reader takes some bytes of the line being written, as long as the pipe is open. */
    method Pass(f: FollowerID, n: nat)
      requires Valid() && f in all && all[f].worker.Writing? && !all[f].pipeClosed
      requires all[f].sent + n <= |all[f].hand[0]|
      modifies this`all
      ensures Valid() && all == old(all)[f := Passed(old(all[f]), n)]
      ensures PipesFlow(old(all), all)
    {
      PassedOK(all[f], broadcast, n);
      OneOK(all, followers, closed, broadcast, f, Passed(all[f], n));
      all := all[f := Passed(all[f], n)];
    }

    /** The worker's write returns: the line is whole, or the pipe was closed on it. */
    method Write(f: FollowerID)
      requires Valid() && f in all && all[f].worker.Writing?
      modifies this`all
      ensures Valid() && all == old(all)[f := Wrote(old(all[f]))]
      ensures PipesFlow(old(all), all) && Received(all[f]) == Received(old(all[f]))
      ensures all[f].worker.Idle? <==> old(all[f].sent == |all[f].hand[0]|)
    {
      WroteOK(all[f], broadcast);
      OneOK(all, followers, closed, broadcast, f, Wrote(all[f]));
      all := all[f := Wrote(all[f])];
    }

    method GiveUp(f: FollowerID)
      requires Valid() && f in all && all[f].worker.Broken?
      modifies this`followers, this`all
      ensures Valid() && f !in followers && f in all && all[f].closings == 1 && all[f].worker == Stopped
      ensures PipesFlow(old(all), all)
    {
      Remove(f);
      Retire(f);
    }

    /** The worker of a follower that was removed returns. */
    method Retire(f: FollowerID)
      requires Valid() && f in all && f !in followers && !all[f].worker.Writing?
      modifies this`all
      ensures Valid() && all == old(all)[f := old(all[f]).(worker := Stopped)]
      ensures PipesFlow(old(all), all)
    {
      StoppedOK(all, followers, closed, broadcast, f);
      all := all[f := all[f].(worker := Stopped)];
    }

    /** The worker sees `done` closed. */
    method Quit(f: FollowerID)
      requires Valid() && f in all && all[f].worker.Idle? && all[f].closings > 0
      modifies this`all
      ensures Valid() && all == old(all)[f := old(all[f]).(worker := Stopped)]
      ensures PipesFlow(old(all), all)
    {
      Retire(f);
    }

    /** Any interleaving: the ring refines the unbounded history, each `done` is
        closed at most once, and each pipe receives in order lines that were broadcast
        since its follower registered, with nothing added, only the last of them
        possibly cut short, and nothing once it is closed. */
    method AnyInterleaving(n: nat)
      requires Valid()
      modifies this
      ensures Valid()
      ensures forall f :: f in all ==> all[f].since <= |broadcast| && Delivered(all[f], broadcast)
      ensures PipesFlow(old(all), all)
      ensures forall f :: f in followers ==> (all[f].lost == 0 <==> all[f].got == broadcast[all[f].since..])
      ensures old(closed) ==> closed && accepted == old(accepted) && broadcast == old(broadcast)
      ensures old(accepted) <= accepted && old(broadcast) <= broadcast
    {
      for i := 0 to n
        invariant Valid()
        invariant old(closed) ==> closed && accepted == old(accepted) && broadcast == old(broadcast)
        invariant old(accepted) <= accepted && old(broadcast) <= broadcast
        invariant PipesFlow(old(all), all)
      {
        var f: FollowerID, e: Entry, now: int, flag: bool, choice: int := *, *, *, *, *;
        ghost var before := all;
        if choice == 0 {
          var err := Append(flag, e, now);
        } else if choice == 1 {
          Close();
        } else if f !in all {
          var err, open := Follow(flag, f);
        } else {
          WorkerStep(f, flag, choice);
        }
        FlowTransitive(old(all), before, all);
      }
      forall f | f in all ensures all[f].since <= |broadcast| && Delivered(all[f], broadcast) {
        PipeReceives(all, followers, closed, broadcast, f);
      }
      forall f | f in followers ensures all[f].lost == 0 <==> all[f].got == broadcast[all[f].since..] {
        KeepingUpLosesNothing(all, followers, closed, broadcast, f);
      }
    }

    method WorkerStep(f: FollowerID, flag: bool, choice: int)
      requires Valid() && f in all
      modifies this`followers, this`all
      ensures Valid() && PipesFlow(old(all), all)
    {
      if choice == 2 {
        Remove(f);
      } else if all[f].worker.Writing? {
        var n: nat := *;
        if flag {
          Write(f);
        } else if !all[f].pipeClosed && all[f].sent + n <= |all[f].hand[0]| {
          Pass(f, n);
        }
      } else if all[f].worker.Broken? {
        GiveUp(f);
      } else if all[f].worker.Idle? && all[f].queue != [] && flag {
        Take(f);
      } else if all[f].worker.Idle? && all[f].closings > 0 {
        Quit(f);
      }
    }
  }
}
