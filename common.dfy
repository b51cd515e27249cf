/** Types shared by the manager, the legacy binding and the KMS renderer:
    object identities, failure-carrying results, and the Python reference
    count of each Request object, which the bindings raise when a request is
    queued and lower when its completion is handed back to Python. */
module Common {

  datatype Option<+T> = None | Some(value: T)

  datatype Result<+R, +E> = Success(value: R) | Failure(error: E)

  /** Identity of a `std::shared_ptr<Camera>` (compared by pointer). */
  type CameraId = nat
  /** Identity of a `Request *`. */
  type RequestId = nat
  /** Identity of a `FrameBuffer *`. */
  type BufferId = nat

  /** Python reference counts of Request objects, keyed by request. A live
      request object has an entry; absent keys read as count 0. */
  type RefCounts = map<RequestId, int>

  function Count(rc: RefCounts, r: RequestId): int
  {
    if r in rc then rc[r] else 0
  }

  /** `py_req.inc_ref()`: one more reference to `r`, no other count moves. */
  function IncRef(rc: RefCounts, r: RequestId): (rc': RefCounts)
    ensures r in rc' && Count(rc', r) == Count(rc, r) + 1
    ensures forall q :: q != r ==> Count(rc', q) == Count(rc, q)
    ensures rc'.Keys == rc.Keys + {r}
  {
    rc[r := Count(rc, r) + 1]
  }

  /** `dec_ref()`: one reference fewer to `r`, no other count moves. */
  function DecRef(rc: RefCounts, r: RequestId): (rc': RefCounts)
    ensures r in rc' && Count(rc', r) == Count(rc, r) - 1
    ensures forall q :: q != r ==> Count(rc', q) == Count(rc, q)
    ensures rc'.Keys == rc.Keys + {r}
  {
    rc[r := Count(rc, r) - 1]
  }

  /** Raising and then lowering the count of a live request restores the
      table exactly: this is what a failed `queueRequest` does. */
  lemma IncDecCancel(rc: RefCounts, r: RequestId)
    requires r in rc
    ensures DecRef(IncRef(rc, r), r) == rc
  {
  }

  /** One decrement per element of `reqs`, in order. */
  function DecRefAll(rc: RefCounts, reqs: seq<RequestId>): RefCounts
    decreases |reqs|
  {
    if reqs == [] then rc else DecRef(DecRefAll(rc, reqs[..|reqs| - 1]), reqs[|reqs| - 1])
  }

  /** One increment per element of `reqs`, in order. */
  function IncRefAll(rc: RefCounts, reqs: seq<RequestId>): RefCounts
    decreases |reqs|
  {
    if reqs == [] then rc else IncRef(IncRefAll(rc, reqs[..|reqs| - 1]), reqs[|reqs| - 1])
  }

  /** Decrementing once per element lowers each count by the number of times
      the request occurs in the list, and touches nothing else. */
  lemma {:induction false} DecRefAllCount(rc: RefCounts, reqs: seq<RequestId>, r: RequestId)
    ensures Count(DecRefAll(rc, reqs), r) == Count(rc, r) - multiset(reqs)[r]
    decreases |reqs|
  {
    if reqs != [] {
      var init := reqs[..|reqs| - 1];
      DecRefAllCount(rc, init, r);
      assert reqs == init + [reqs[|reqs| - 1]];
    }
  }

  lemma {:induction false} IncRefAllCount(rc: RefCounts, reqs: seq<RequestId>, r: RequestId)
    ensures Count(IncRefAll(rc, reqs), r) == Count(rc, r) + multiset(reqs)[r]
    decreases |reqs|
  {
    if reqs != [] {
      var init := reqs[..|reqs| - 1];
      IncRefAllCount(rc, init, r);
      assert reqs == init + [reqs[|reqs| - 1]];
    }
  }

  /** Reference balance: if every queued request is handed back exactly once
      (in any order), every reference count returns to its starting value. */
  lemma RefBalance(rc: RefCounts, queued: seq<RequestId>, delivered: seq<RequestId>, r: RequestId)
    requires multiset(queued) == multiset(delivered)
    ensures Count(DecRefAll(IncRefAll(rc, queued), delivered), r) == Count(rc, r)
  {
    IncRefAllCount(rc, queued, r);
    DecRefAllCount(IncRefAll(rc, queued), delivered, r);
  }

  /** The first index of `s` whose key is `x`, as a linear search such as
      `std::find_if` or Python's `next(...)` over a generator finds it. */
  function FindFirst<T, K(==)>(s: seq<T>, key: T -> K, x: K): (k: Option<nat>)
    ensures k.Some? ==> k.value < |s| && key(s[k.value]) == x
    ensures k.Some? ==> forall j :: 0 <= j < k.value ==> key(s[j]) != x
    ensures k.None? <==> forall j :: 0 <= j < |s| ==> key(s[j]) != x
    decreases |s|
  {
    if s == [] then None
    else if key(s[0]) == x then Some(0)
    else
      var k := FindFirst(s[1..], key, x);
      if k.Some? then Some(k.value + 1) else None
  }
}
