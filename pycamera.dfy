/** The older `pycamera` binding: process-wide globals for the camera
    manager, its eventfd and the list of completed requests; the pairing of
    Python references between `queueRequest` and `getReadyRequests`; the
    completion handler that `Camera.start`/`stop` connect and disconnect;
    and the case-insensitive camera search `find`. */
module PyCamera {
  import opened Common

  /** Identity of a `CameraManager` instance. */
  type ManagerId = nat

  /** Python reference bookkeeping of the binding: each request queued with
      success holds one more reference, each request handed back by
      `getReadyRequests` one fewer, and nothing else moved. */
  ghost predicate RefsTrack(refs: RefCounts, refs0: RefCounts, queued: seq<RequestId>, returned: seq<RequestId>)
  {
    forall r :: Count(refs, r) == Count(refs0, r) + multiset(queued)[r] - multiset(returned)[r]
  }

  /** Invariant of the globals, as values: the requests handed back so far
      followed by `g_reqlist` are exactly the completions, in completion
      order; and the references track queueing and handing back. */
  ghost predicate BindingInvariant(reqlist: seq<RequestId>, completed: seq<RequestId>, returned: seq<RequestId>,
                                   refs: RefCounts, refs0: RefCounts, queued: seq<RequestId>)
  {
    returned + reqlist == completed && RefsTrack(refs, refs0, queued, returned)
  }

  /** `handle_request_completed` keeps the invariant. */
  lemma CompletionKeepsInvariant(reqlist: seq<RequestId>, completed: seq<RequestId>, returned: seq<RequestId>,
                                 refs: RefCounts, refs0: RefCounts, queued: seq<RequestId>, req: RequestId)
    requires BindingInvariant(reqlist, completed, returned, refs, refs0, queued)
    ensures BindingInvariant(reqlist + [req], completed + [req], returned, refs, refs0, queued)
  {
    assert returned + (reqlist + [req]) == (returned + reqlist) + [req];
  }

  /** `getReadyRequests` keeps the invariant: handing back the whole list
      drops one reference per element. */
  lemma DrainKeepsInvariant(reqlist: seq<RequestId>, completed: seq<RequestId>, returned: seq<RequestId>,
                            refs: RefCounts, refs0: RefCounts, queued: seq<RequestId>)
    requires BindingInvariant(reqlist, completed, returned, refs, refs0, queued)
    ensures BindingInvariant([], completed, returned + reqlist, DecRefAll(refs, reqlist), refs0, queued)
  {
    forall r ensures Count(DecRefAll(refs, reqlist), r) ==
                     Count(refs0, r) + multiset(queued)[r] - multiset(returned + reqlist)[r] {
      DecRefAllCount(refs, reqlist, r);
    }
  }

  /** A successful `queueRequest` keeps the invariant. */
  lemma QueueKeepsInvariant(reqlist: seq<RequestId>, completed: seq<RequestId>, returned: seq<RequestId>,
                            refs: RefCounts, refs0: RefCounts, queued: seq<RequestId>, req: RequestId)
    requires BindingInvariant(reqlist, completed, returned, refs, refs0, queued)
    ensures BindingInvariant(reqlist, completed, returned, IncRef(refs, req), refs0, queued + [req])
  {
  }

  /** Queue-then-drain restores every count: once each queued request has
      been handed back exactly once, the references are where they began. */
  lemma BalancedWhenAllReturned(refs: RefCounts, refs0: RefCounts, queued: seq<RequestId>, returned: seq<RequestId>)
    requires RefsTrack(refs, refs0, queued, returned)
    requires multiset(queued) == multiset(returned)
    ensures forall r :: Count(refs, r) == Count(refs0, r)
  {
  }

  /** The globals of the binding. */
  class Bindings {
    /** `g_camera_manager`: the live manager, or none once it expired. */
    var manager: Option<ManagerId>
    /** `g_eventfd` (a static int, so 0 before the first `singleton`). */
    var eventfd: int
    /** Counter of the eventfd: completions signalled and not yet read. */
    var signals: nat
    /** `g_reqlist`: completed requests not yet handed to Python. */
    var reqlist: seq<RequestId>
    /** Python reference counts of the Request objects. */
    var refs: RefCounts

    /** Every completion, every handed-back request and every successful
        queue so far, and the counts at the start. */
    ghost var completed: seq<RequestId>
    ghost var returned: seq<RequestId>
    ghost var queued: seq<RequestId>
    ghost var refs0: RefCounts

    ghost predicate Valid()
      reads this
    {
      BindingInvariant(reqlist, completed, returned, refs, refs0, queued)
    }

    /** The state at module load, over the reference counts `rc` of the
        Python objects that exist then. */
    constructor (rc: RefCounts)
      ensures Valid()
      ensures manager == None && eventfd == 0 && signals == 0 && reqlist == [] && refs == rc
      ensures completed == [] && returned == [] && queued == [] && refs0 == rc
    {
      manager := None;
      eventfd := 0;
      signals := 0;
      reqlist := [];
      refs := rc;
      completed := [];
      returned := [];
      queued := [];
      refs0 := rc;
    }

    /** `CameraManager.singleton`: the live manager if there is one.
        Otherwise an eventfd is opened (`fd`, or -1 with `errno`) and a
        manager `newId` is created and started with result `startRet`. When
        the start fails, the manager is dropped right away: its deleter
        closes the eventfd and sets `g_eventfd` to -1, and the weak global
        expires. */
    method Singleton(fd: int, errno: int, startRet: int, newId: ManagerId) returns (r: Result<ManagerId, int>)
      modifies this`manager, this`eventfd, this`signals
      ensures old(manager).Some? ==>
        r == Success(old(manager).value) && manager == old(manager) &&
        eventfd == old(eventfd) && signals == old(signals)
      ensures old(manager).None? && fd == -1 ==>
        r == Failure(errno) && manager == None && eventfd == old(eventfd) && signals == old(signals)
      ensures old(manager).None? && fd != -1 && startRet != 0 ==>
        r == Failure(-startRet) && manager == None && eventfd == -1 && signals == 0
      ensures old(manager).None? && fd != -1 && startRet == 0 ==>
        r == Success(newId) && manager == Some(newId) && eventfd == fd && signals == 0
    {
      if manager.Some? {
        return Success(manager.value);
      }
      if fd == -1 {
        return Failure(errno);
      }
      eventfd := fd;
      signals := 0;
      manager := Some(newId);
      if startRet != 0 {
        ReleaseManager();
        return Failure(-startRet);
      }
      return Success(newId);
    }

    /** The deleter of the manager: close the eventfd and forget it. The
        list of completed requests is left as it is. */
    method ReleaseManager()
      modifies this`manager, this`eventfd
      ensures manager == None && eventfd == -1
    {
      eventfd := -1;
      manager := None;
    }

    /** `handle_request_completed`: append the request under the lock, then
        signal the eventfd once; the result of the write (`written` bytes)
        is ignored, so a failed write only loses the wake-up. */
    method HandleRequestCompleted(req: RequestId, written: int)
      requires Valid()
      modifies this`reqlist, this`signals, this`completed
      ensures Valid()
      ensures reqlist == old(reqlist) + [req]
      ensures signals == if written == 8 then old(signals) + 1 else old(signals)
      ensures completed == old(completed) + [req]
    {
      ghost var list := reqlist;
      reqlist := reqlist + [req];
      if written == 8 {
        signals := signals + 1;
      }
      completed := completed + [req];
      CompletionKeepsInvariant(list, old(completed), returned, refs, refs0, queued, req);
    }

    /** `getReadyRequests`: swap the list out under the lock, then hand each
        request to Python, dropping the reference `queueRequest` took. */
    method GetReadyRequests() returns (ready: seq<RequestId>)
      requires Valid()
      modifies this`reqlist, this`refs, this`returned
      ensures Valid()
      ensures ready == old(reqlist) && reqlist == []
      ensures refs == DecRefAll(old(refs), old(reqlist))
      ensures returned == old(returned) + old(reqlist)
    {
      ghost var rc, back := refs, returned;
      var v := reqlist;
      reqlist := [];
      ready := [];
      for j := 0 to |v|
        invariant ready == v[..j]
        invariant refs == DecRefAll(rc, v[..j])
        invariant reqlist == [] && returned == back
      {
        refs := DecRef(refs, v[j]);
        ready := ready + [v[j]];
        assert v[..j + 1][..j] == v[..j];
      }
      assert v[..|v|] == v;
      returned := returned + v;
      DrainKeepsInvariant(v, completed, back, rc, refs0, queued);
    }

    /** `Camera.queueRequest`: take a reference, queue with result
        `queueRet`, and give the reference back when that fails. */
    method QueueRequest(req: RequestId, queueRet: int) returns (ret: int)
      requires Valid() && req in refs
      modifies this`refs, this`queued
      ensures Valid()
      ensures ret == queueRet
      ensures ret == 0 ==> refs == IncRef(old(refs), req) && queued == old(queued) + [req]
      ensures ret != 0 ==> refs == old(refs) && queued == old(queued)
    {
      refs := IncRef(refs, req);
      ret := queueRet;
      if ret != 0 {
        IncDecCancel(old(refs), req);
        refs := DecRef(refs, req);
      } else {
        queued := queued + [req];
        QueueKeepsInvariant(reqlist, completed, returned, old(refs), refs0, old(queued), req);
      }
    }
  }

  /** One call of `Camera.start` or `Camera.stop`, with the result of the
      underlying camera operation. */
  datatype CameraOp = StartOp(ret: int) | StopOp(ret: int)

  /** Connection of the completion handler after `start` with result `ret`:
      it is connected, then disconnected again when the start failed. */
  function AfterStart(connected: bool, ret: int): (c: bool)
    ensures c <==> ret == 0
  {
    if ret != 0 then false else true
  }

  /** Connection after `stop` with result `ret`: disconnected only when the
      stop succeeded. */
  function AfterStop(connected: bool, ret: int): (c: bool)
    ensures ret == 0 ==> !c
    ensures ret != 0 ==> c == connected
  {
    if ret == 0 then false else connected
  }

  function AfterOp(connected: bool, op: CameraOp): bool
  {
    match op
    case StartOp(ret) => AfterStart(connected, ret)
    case StopOp(ret) => AfterStop(connected, ret)
  }

  /** Whether the handler is connected after the calls `ops`, starting
      disconnected. */
  function ConnectedAfter(ops: seq<CameraOp>): bool
    decreases |ops|
  {
    if ops == [] then false else AfterOp(ConnectedAfter(ops[..|ops| - 1]), ops[|ops| - 1])
  }

  /** The most recent successful call: `Some(true)` for a start,
      `Some(false)` for a stop, `None` if none succeeded. */
  function LastSuccess(ops: seq<CameraOp>): Option<bool>
    decreases |ops|
  {
    if ops == [] then None
    else if ops[|ops| - 1].ret == 0 then Some(ops[|ops| - 1].StartOp?)
    else LastSuccess(ops[..|ops| - 1])
  }

  /** The handler is connected only when the last successful call was a
      `start`. */
  lemma {:induction false} ConnectedOnlyAfterStart(ops: seq<CameraOp>)
    ensures ConnectedAfter(ops) ==> LastSuccess(ops) == Some(true)
    decreases |ops|
  {
    if ops != [] {
      ConnectedOnlyAfterStart(ops[..|ops| - 1]);
    }
  }

  /** The converse does not hold: a `start` that fails after a successful
      one (the camera is already running) disconnects the handler of the
      running camera. */
  lemma FailedRestartDisconnects(err: int)
    requires err != 0
    ensures LastSuccess([StartOp(0), StartOp(err)]) == Some(true)
    ensures !ConnectedAfter([StartOp(0), StartOp(err)])
  {
    assert [StartOp(0), StartOp(err)][..1] == [StartOp(0)];
    assert [StartOp(0)][..0] == [];
  }

  /** A successful call decides the connection, whatever came before. */
  lemma SuccessDecidesConnection(ops: seq<CameraOp>, op: CameraOp)
    requires op.ret == 0
    ensures ConnectedAfter(ops + [op]) <==> op.StartOp?
    ensures LastSuccess(ops + [op]) == Some(op.StartOp?)
  {
    assert (ops + [op])[..|ops|] == ops;
  }

  /** The Python `Camera` object: whether `handle_request_completed` is
      connected to its `requestCompleted` signal. */
  class Camera {
    var handlerConnected: bool
    /** The `start`/`stop` calls so far. */
    ghost var history: seq<CameraOp>

    ghost predicate Valid()
      reads this
    {
      handlerConnected == ConnectedAfter(history)
    }

    constructor ()
      ensures Valid() && !handlerConnected && history == []
    {
      handlerConnected := false;
      history := [];
    }

    /** `start`: connect the handler, start the camera (result
        `cameraRet`), disconnect again on failure. */
    method Start(cameraRet: int) returns (ret: int)
      requires Valid()
      modifies this
      ensures Valid()
      ensures ret == cameraRet
      ensures handlerConnected <==> ret == 0
      ensures history == old(history) + [StartOp(ret)]
    {
      handlerConnected := true;
      ret := cameraRet;
      if ret != 0 {
        handlerConnected := false;
      }
      history := history + [StartOp(ret)];
      assert history[..|history| - 1] == old(history);
    }

    /** `stop`: stop the camera (result `cameraRet`) and disconnect the
        handler only when that succeeded. */
    method Stop(cameraRet: int) returns (ret: int)
      requires Valid()
      modifies this
      ensures Valid()
      ensures ret == cameraRet
      ensures ret == 0 ==> !handlerConnected
      ensures ret != 0 ==> handlerConnected == old(handlerConnected)
      ensures history == old(history) + [StopOp(ret)]
    {
      ret := cameraRet;
      if ret == 0 {
        handlerConnected := false;
      }
      history := history + [StopOp(ret)];
      assert history[..|history| - 1] == old(history);
    }
  }

  /** `::tolower` in the C locale: only 'A'..'Z' change. */
  function LowerChar(c: char): (d: char)
    ensures 'A' <= c <= 'Z' ==> d as int == c as int + 32
    ensures !('A' <= c <= 'Z') ==> d == c
  {
    if 'A' <= c <= 'Z' then (c as int + 32) as char else c
  }

  /** `std::transform(..., ::tolower)` over a whole string. */
  function Lower(s: string): (t: string)
    ensures |t| == |s|
    ensures forall i :: 0 <= i < |s| ==> t[i] == LowerChar(s[i])
  {
    seq(|s|, i requires 0 <= i < |s| => LowerChar(s[i]))
  }

  /** Lowering twice is lowering once. */
  lemma LowerIdempotent(s: string)
    ensures Lower(Lower(s)) == Lower(s)
  {
    var l := Lower(s);
    assert forall i :: 0 <= i < |s| ==> LowerChar(l[i]) == l[i];
  }

  /** `s.find(sub) != npos`: `sub` occurs in `s` at some position (the
      empty string occurs everywhere). */
  predicate Contains(s: string, sub: string)
  {
    exists i | 0 <= i <= |s| - |sub| :: OccursAt(s, sub, i)
  }

  /** `sub` occurs in `s` starting at position `i`. */
  predicate OccursAt(s: string, sub: string, i: nat)
  {
    i + |sub| <= |s| && s[i..i + |sub|] == sub
  }

  /** The match `find` applies to one camera id. */
  predicate Matches(id: string, query: string)
  {
    Contains(Lower(id), Lower(query))
  }

  /** The match ignores case on both sides. */
  lemma MatchesIgnoresCase(id: string, query: string)
    ensures Matches(Lower(id), query) == Matches(id, query)
    ensures Matches(id, Lower(query)) == Matches(id, query)
  {
    LowerIdempotent(id);
    LowerIdempotent(query);
  }

  /** An empty query matches every id. */
  lemma EmptyQueryMatches(id: string)
    ensures Matches(id, "")
  {
    assert OccursAt(Lower(id), Lower(""), 0);
  }

  /** `CameraManager.find`: the index of the first camera, in enumeration
      order, whose lower-cased id contains the lower-cased query, or none. */
  method Find(ids: seq<string>, query: string) returns (r: Option<nat>)
    ensures r.Some? ==> r.value < |ids| && Matches(ids[r.value], query)
    ensures r.Some? ==> forall j :: 0 <= j < r.value ==> !Matches(ids[j], query)
    ensures r.None? ==> forall j :: 0 <= j < |ids| ==> !Matches(ids[j], query)
  {
    var str := Lower(query);
    var k := 0;
    while k < |ids|
      invariant k <= |ids|
      invariant forall j :: 0 <= j < k ==> !Matches(ids[j], query)
    {
      var id := Lower(ids[k]);
      if Contains(id, str) {
        return Some(k);
      }
      k := k + 1;
    }
    return None;
  }
}
