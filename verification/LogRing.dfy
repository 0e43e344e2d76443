/** What a bounded log keeps of an unbounded history
    (internal/adapters/outbound/logs/store.go:84-100): the longest suffix that fits.
 */
module LogRing {

  /** The maximum retained byte size for one link. */
  const CAPACITY: int := 10 * 0x10_0000

  datatype Entry = Entry(at: int, stream: string, text: string)
  datatype Record = Record(entry: Entry, size: nat)

  function Sum(rs: seq<Record>): (n: nat) {
    if rs == [] then 0 else Sum(rs[..|rs| - 1]) + rs[|rs| - 1].size
  }

  /** The suffix of `h` without its first `k` records fits, and no longer suffix does. */
  ghost predicate LongestFrom(h: seq<Record>, k: nat, room: int) {
    && k <= |h| && Sum(h[k..]) <= room
    && forall j :: 0 <= j < k ==> Sum(h[j..]) > room
  }

  /** `rs` is the longest suffix of `h` that fits the ring. */
  ghost predicate Retained(h: seq<Record>, rs: seq<Record>) {
    |rs| <= |h| && rs == h[|h| - |rs|..] && LongestFrom(h, |h| - |rs|, CAPACITY)
  }

  lemma {:induction false} SumDropFirst(rs: seq<Record>)
    requires rs != []
    ensures Sum(rs) == rs[0].size + Sum(rs[1..])
  {
    if |rs| > 1 {
      SumDropFirst(rs[..|rs| - 1]);
      assert rs[1..][..|rs| - 2] == rs[..|rs| - 1][1..];
    }
  }

  lemma {:induction false} SumSuffix(h: seq<Record>, j: nat, k: nat)
    requires j <= k <= |h|
    ensures Sum(h[k..]) <= Sum(h[j..])
    decreases k - j
  {
    if j < k {
      SumDropFirst(h[j..]);
      assert h[j..][1..] == h[j + 1..];
      SumSuffix(h, j + 1, k);
    }
  }

  lemma {:induction false} SumAppend(h: seq<Record>, k: nat, r: Record)
    requires k <= |h|
    ensures Sum((h + [r])[k..]) == Sum(h[k..]) + r.size
  {
    var t := (h + [r])[k..];
    assert t[..|t| - 1] == h[k..];
  }

  /** There is only one longest suffix. */
  lemma {:induction false} RetainedUnique(h: seq<Record>, a: seq<Record>, b: seq<Record>)
    requires Retained(h, a) && Retained(h, b)
    ensures a == b
  {
    var i, j := |h| - |a|, |h| - |b|;
    assert Sum(h[i..]) <= CAPACITY && Sum(h[j..]) <= CAPACITY;
  }

  /** Dropping the first `k` records of the ring was necessary. */
  ghost predicate Needed(rs: seq<Record>, k: nat, room: int) {
    k <= |rs| && forall j :: 0 <= j < k ==> Sum(rs[j..]) > room
  }

  lemma {:induction false} DropOne(rs: seq<Record>, k: nat)
    requires k < |rs|
    ensures rs[k..][0] == rs[k] && rs[k..][1..] == rs[k + 1..] && Sum(rs[k + 1..]) == Sum(rs[k..]) - rs[k].size
  {
    SumDropFirst(rs[k..]);
    assert rs[k..][1..] == rs[k + 1..];
  }

  /** When the loop ends the ring is the longest suffix that leaves room for the record. */
  lemma {:induction false} RoomMade(h: seq<Record>, rs: seq<Record>, k: nat, size: nat)
    requires Retained(h, rs) && size <= CAPACITY && Needed(rs, k, CAPACITY - size)
    requires Sum(rs[k..]) + size <= CAPACITY || k == |rs|
    ensures |rs[k..]| <= |h| && rs[k..] == h[|h| - |rs[k..]|..]
    ensures LongestFrom(h, |h| - |rs[k..]|, CAPACITY - size)
  {
    var n := |h| - |rs|;
    assert rs[k..] == h[n + k..];
    forall j | 0 <= j < n + k ensures Sum(h[j..]) > CAPACITY - size {
      if n <= j {
        assert rs[j - n..] == h[j..];
      }
    }
  }

  /** Once the new record fits behind the rest, the ring is the longest suffix of the longer history. */
  lemma {:induction false} Push(h: seq<Record>, k: nat, r: Record)
    requires LongestFrom(h, k, CAPACITY - r.size)
    ensures Retained(h + [r], h[k..] + [r])
    ensures Sum(h[k..] + [r]) == Sum(h[k..]) + r.size
  {
    var more := h + [r];
    assert more[k..] == h[k..] + [r];
    SumAppend(h, k, r);
    forall j | 0 <= j < k ensures Sum(more[j..]) > CAPACITY {
      SumAppend(h, j, r);
    }
  }
}
