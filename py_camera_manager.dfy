/** `PyCameraManager`: the broker between libcamera's completion thread and
    Python. Callbacks append `CameraEvent`s to one global queue and signal
    an eventfd; Python drains either everything (after reading the eventfd)
    or the events of one camera. Each locked section is one atomic step
    here; the eventfd is its 64-bit counter, and the outcome of each write
    is a parameter. */
module LibcameraPy {
  import opened Common
  import opened CameraEvents

  /** Linux errno values used by the manager. */
  const EIO: int := 5
  const EAGAIN: int := 11

  /** `readFd`: map the result of `read(fd, buf, 8)` to 0 on a full read,
      to -errno when the call failed, and to -EIO for a short read. It never
      returns a positive value. */
  function ReadFdResult(ret: int, errno: int): (r: int)
    requires ret < 0 ==> errno > 0
    ensures r == 0 <==> ret == 8
    ensures ret < 0 ==> r == -errno
    ensures 0 <= ret && ret != 8 ==> r == -EIO
    ensures r <= 0
  {
    if ret == 8 then 0 else if ret < 0 then -errno else -EIO
  }

  /** What `read(2)` returns on the manager's eventfd, which is created
      non-blocking: eight bytes while the counter is non-zero, otherwise -1
      with errno EAGAIN. */
  function EventFdRead(counter: nat): (res: (int, int))
    ensures res.0 < 0 ==> res.1 > 0
    ensures res.0 == 8 <==> counter > 0
    ensures counter == 0 ==> res == (-1, EAGAIN)
  {
    if counter > 0 then (8, 0) else (-1, EAGAIN)
  }

  /** `writeFd`: anything but a full 8-byte write is a fatal error. */
  predicate WriteIsFatal(written: int)
  {
    written != 8
  }

  /** The eventfd counter after one `writeFd`: a full write adds one. */
  function CounterAfterWrite(counter: nat, written: int): (c: nat)
    ensures c == counter + 1 <==> !WriteIsFatal(written)
    ensures WriteIsFatal(written) ==> c == counter
  {
    if written == 8 then counter + 1 else counter
  }

  /** The three ways `getPyEvents` can go once `readFd` has returned `ret`. */
  datatype Verdict = NoEvents | Raise(code: int) | Drain

  /** `getPyEvents`' test of the `readFd` result, as written: it compares
      with positive EAGAIN, although `readFd` reports errors negated. */
  function PyEventsVerdict(ret: int): (v: Verdict)
    ensures v == Drain <==> ret == 0
    ensures v == NoEvents <==> ret == EAGAIN
    ensures ret != 0 && ret != EAGAIN ==> v == Raise(ret)
  {
    if ret == EAGAIN then NoEvents else if ret != 0 then Raise(ret) else Drain
  }

  /** Because `readFd` never returns a positive value, the "no events"
      branch of `getPyEvents` cannot be taken, whatever `read` returned. */
  lemma NoEventsUnreachable(ret: int, errno: int)
    requires ret < 0 ==> errno > 0
    ensures PyEventsVerdict(ReadFdResult(ret, errno)) != NoEvents
  {
  }

  /** With nothing signalled, `getPyEvents` raises `-EAGAIN` instead of
      returning an empty list. */
  lemma EmptyCounterRaises()
    ensures PyEventsVerdict(ReadFdResult(EventFdRead(0).0, EventFdRead(0).1)) == Raise(-EAGAIN)
  {
  }

  /** The comparison `getPyEvents` evidently intends (`-EAGAIN`). */
  function PyEventsVerdictIntended(ret: int): (v: Verdict)
    ensures v == Drain <==> ret == 0
    ensures v == NoEvents <==> ret == -EAGAIN
    ensures ret != 0 && ret != -EAGAIN ==> v == Raise(ret)
  {
    if ret == -EAGAIN then NoEvents else if ret != 0 then Raise(ret) else Drain
  }

  /** Under the intended comparison an empty eventfd means "no events", and
      a signalled one still means "drain". */
  lemma IntendedVerdictOnEventFd(counter: nat)
    ensures PyEventsVerdictIntended(ReadFdResult(EventFdRead(counter).0, EventFdRead(counter).1)) ==
      if counter == 0 then NoEvents else Drain
  {
  }

  /** Every queued event has the shape its producer gives it. */
  ghost predicate AllWellFormed(evs: seq<CameraEvent>)
  {
    forall i :: 0 <= i < |evs| ==> WellFormed(evs[i])
  }

  /** Delivery bookkeeping of the queue: of all events `pushed`, those
      `delivered` to Python and those still `queued` together account for
      each exactly once; each camera's own events come out in the order they
      were produced; and while `inOrder` (no per-camera drain so far), the
      deliveries followed by the queue are exactly the pushes. */
  ghost predicate DeliveryInvariant(delivered: seq<CameraEvent>, queued: seq<CameraEvent>,
                                    pushed: seq<CameraEvent>, inOrder: bool)
  {
    multiset(delivered) + multiset(queued) == multiset(pushed) &&
    (forall c :: CameraEventsOf(delivered, c) + CameraEventsOf(queued, c) == CameraEventsOf(pushed, c)) &&
    (inOrder ==> delivered + queued == pushed)
  }

  /** Reference bookkeeping: every delivered request completion has dropped
      exactly one reference of its request, and nothing else has moved. */
  ghost predicate RefsBalanced(refs: RefCounts, refs0: RefCounts, delivered: seq<CameraEvent>)
  {
    forall r :: Count(refs, r) == Count(refs0, r) - multiset(Completions(delivered))[r]
  }

  /** `pushEvent` keeps the delivery bookkeeping. */
  lemma PushKeepsDelivery(delivered: seq<CameraEvent>, queued: seq<CameraEvent>,
                          pushed: seq<CameraEvent>, inOrder: bool, ev: CameraEvent)
    requires DeliveryInvariant(delivered, queued, pushed, inOrder)
    ensures DeliveryInvariant(delivered, queued + [ev], pushed + [ev], inOrder)
  {
    assert delivered + (queued + [ev]) == (delivered + queued) + [ev];
    forall c ensures CameraEventsOf(delivered, c) + CameraEventsOf(queued + [ev], c) == CameraEventsOf(pushed + [ev], c) {
      CameraEventsOfAppend(queued, [ev], c);
      CameraEventsOfAppend(pushed, [ev], c);
    }
  }

  /** A full drain keeps the delivery bookkeeping, order included. */
  lemma FullDrainKeepsDelivery(delivered: seq<CameraEvent>, queued: seq<CameraEvent>,
                               pushed: seq<CameraEvent>, inOrder: bool)
    requires DeliveryInvariant(delivered, queued, pushed, inOrder)
    ensures DeliveryInvariant(delivered + queued, [], pushed, inOrder)
  {
    assert delivered + queued + [] == delivered + queued;
    forall c ensures CameraEventsOf(delivered + queued, c) + CameraEventsOf([], c) == CameraEventsOf(pushed, c) {
      CameraEventsOfAppend(delivered, queued, c);
    }
  }

  /** After a drain for `camera`, its own events are all in the delivered
      log, still in production order. */
  lemma CameraDrainKeepsOwnOrder(delivered: seq<CameraEvent>, queued: seq<CameraEvent>,
                                 pushed: seq<CameraEvent>, camera: CameraId)
    requires CameraEventsOf(delivered, camera) + CameraEventsOf(queued, camera) == CameraEventsOf(pushed, camera)
    ensures CameraEventsOf(delivered + CameraEventsOf(queued, camera), camera) +
            CameraEventsOf(OtherEvents(queued, camera), camera) == CameraEventsOf(pushed, camera)
  {
    var taken := CameraEventsOf(queued, camera);
    CameraEventsOfAppend(delivered, taken, camera);
    CameraEventsOfTaken(queued, camera, camera);
    CameraEventsOfRemaining(queued, camera, camera);
  }

  /** A drain for `camera` leaves every other camera's events where they
      were. */
  lemma CameraDrainKeepsOthersOrder(delivered: seq<CameraEvent>, queued: seq<CameraEvent>,
                                    pushed: seq<CameraEvent>, camera: CameraId, c: CameraId)
    requires c != camera
    requires CameraEventsOf(delivered, c) + CameraEventsOf(queued, c) == CameraEventsOf(pushed, c)
    ensures CameraEventsOf(delivered + CameraEventsOf(queued, camera), c) +
            CameraEventsOf(OtherEvents(queued, camera), c) == CameraEventsOf(pushed, c)
  {
    var taken := CameraEventsOf(queued, camera);
    CameraEventsOfAppend(delivered, taken, c);
    CameraEventsOfTaken(queued, c, camera);
    CameraEventsOfRemaining(queued, c, camera);
  }

  /** A per-camera drain keeps the exactly-once and per-camera order parts
      of the bookkeeping (the global order across cameras is given up). */
  lemma CameraDrainKeepsDelivery(delivered: seq<CameraEvent>, queued: seq<CameraEvent>,
                                 pushed: seq<CameraEvent>, inOrder: bool, camera: CameraId)
    requires DeliveryInvariant(delivered, queued, pushed, inOrder)
    ensures DeliveryInvariant(delivered + CameraEventsOf(queued, camera), OtherEvents(queued, camera), pushed, false)
  {
    var taken, rest := CameraEventsOf(queued, camera), OtherEvents(queued, camera);
    ExtractionMultiset(queued, camera);
    assert multiset(delivered + taken) == multiset(delivered) + multiset(taken);
    forall c ensures CameraEventsOf(delivered + taken, c) + CameraEventsOf(rest, c) == CameraEventsOf(pushed, c) {
      if c == camera {
        CameraDrainKeepsOwnOrder(delivered, queued, pushed, camera);
      } else {
        CameraDrainKeepsOthersOrder(delivered, queued, pushed, camera, c);
      }
    }
  }

  /** Converting a batch of delivered events keeps the reference
      bookkeeping. */
  lemma DeliveryKeepsRefs(refs: RefCounts, refs0: RefCounts, delivered: seq<CameraEvent>, evs: seq<CameraEvent>)
    requires RefsBalanced(refs, refs0, delivered)
    ensures RefsBalanced(DecRefAll(refs, Completions(evs)), refs0, delivered + evs)
  {
    CompletionsAppend(delivered, evs);
    forall r ensures Count(DecRefAll(refs, Completions(evs)), r) ==
                     Count(refs0, r) - multiset(Completions(delivered + evs))[r] {
      DecRefAllCount(refs, Completions(evs), r);
    }
  }

  /** What a per-camera drain leaves queued still has the producers' shapes. */
  lemma RemainingWellFormed(evs: seq<CameraEvent>, camera: CameraId)
    requires AllWellFormed(evs)
    ensures AllWellFormed(OtherEvents(evs, camera))
  {
    var rest := OtherEvents(evs, camera);
    ExtractionMultiset(evs, camera);
    forall j | 0 <= j < |rest| ensures WellFormed(rest[j]) {
      assert rest[j] in multiset(rest);
      assert rest[j] in multiset(evs);
    }
  }

  /** The manager's invariant over its state, as values: the field values
      of a `PyCameraManager` and its ghost logs. */
  ghost predicate ManagerInvariant(events: seq<CameraEvent>, wakeCount: nat, aborted: bool,
                                   delivered: seq<CameraEvent>, pushed: seq<CameraEvent>, inOrder: bool,
                                   refs: RefCounts, refs0: RefCounts)
  {
    AllWellFormed(events) &&
    // No lost wake-up: while the process runs, every queued event has been
    // signalled and not yet read.
    (!aborted ==> |events| <= wakeCount) &&
    DeliveryInvariant(delivered, events, pushed, inOrder) &&
    RefsBalanced(refs, refs0, delivered)
  }

  /** `pushEvent` of an event a producer can build keeps the invariant. */
  lemma PushKeepsInvariant(events: seq<CameraEvent>, wakeCount: nat, aborted: bool,
                           delivered: seq<CameraEvent>, pushed: seq<CameraEvent>, inOrder: bool,
                           refs: RefCounts, refs0: RefCounts, ev: CameraEvent, written: int)
    requires ManagerInvariant(events, wakeCount, aborted, delivered, pushed, inOrder, refs, refs0)
    requires WellFormed(ev)
    ensures ManagerInvariant(events + [ev], CounterAfterWrite(wakeCount, written), aborted || WriteIsFatal(written),
                             delivered, pushed + [ev], inOrder, refs, refs0)
  {
    PushKeepsDelivery(delivered, events, pushed, inOrder, ev);
  }

  /** A successful `getPyEvents` (read of a signalled eventfd, full drain,
      conversion) keeps the invariant. */
  lemma FullDrainKeepsInvariant(events: seq<CameraEvent>, wakeCount: nat,
                                delivered: seq<CameraEvent>, pushed: seq<CameraEvent>, inOrder: bool,
                                refs: RefCounts, refs0: RefCounts)
    requires ManagerInvariant(events, wakeCount, false, delivered, pushed, inOrder, refs, refs0)
    ensures ManagerInvariant([], 0, false, delivered + events, pushed, inOrder,
                             DecRefAll(refs, Completions(events)), refs0)
  {
    FullDrainKeepsDelivery(delivered, events, pushed, inOrder);
    DeliveryKeepsRefs(refs, refs0, delivered, events);
  }

  /** `getPyCameraEvents` keeps the invariant, wake counter untouched. */
  lemma CameraDrainKeepsInvariant(events: seq<CameraEvent>, wakeCount: nat, aborted: bool,
                                  delivered: seq<CameraEvent>, pushed: seq<CameraEvent>, inOrder: bool,
                                  refs: RefCounts, refs0: RefCounts, camera: CameraId)
    requires ManagerInvariant(events, wakeCount, aborted, delivered, pushed, inOrder, refs, refs0)
    ensures ManagerInvariant(OtherEvents(events, camera), wakeCount, aborted,
                             delivered + CameraEventsOf(events, camera), pushed, false,
                             DecRefAll(refs, Completions(CameraEventsOf(events, camera))), refs0)
  {
    ExtractionMultiset(events, camera);
    RemainingWellFormed(events, camera);
    CameraDrainKeepsDelivery(delivered, events, pushed, inOrder, camera);
    DeliveryKeepsRefs(refs, refs0, delivered, CameraEventsOf(events, camera));
  }

  class PyCameraManager {
    /** `events_`: the one queue shared by every camera of the manager. */
    var events: seq<CameraEvent>
    /** The counter of `eventFd_`. */
    var wakeCount: nat
    var bufferCompletedEventActive: bool
    /** Python reference counts of the Request objects the manager converts. */
    var refs: RefCounts
    /** A fatal error has been logged (the process stops there). */
    var aborted: bool

    /** Every event ever queued, and every event handed to Python, in order. */
    ghost var pushed: seq<CameraEvent>
    ghost var delivered: seq<CameraEvent>
    /** No per-camera drain has happened yet. */
    ghost var fullDrainsOnly: bool
    /** The reference counts when the manager was created. */
    ghost var refs0: RefCounts

    ghost predicate Valid()
      reads this
    {
      ManagerInvariant(events, wakeCount, aborted, delivered, pushed, fullDrainsOnly, refs, refs0)
    }

    /** A manager with a fresh eventfd; `bufferCompletedEventActive_` starts
        false. */
    constructor (rc: RefCounts)
      ensures Valid()
      ensures events == [] && wakeCount == 0 && !bufferCompletedEventActive
      ensures refs == rc && !aborted
      ensures pushed == [] && delivered == [] && fullDrainsOnly && refs0 == rc
    {
      events := [];
      wakeCount := 0;
      bufferCompletedEventActive := false;
      refs := rc;
      aborted := false;
      pushed, delivered, fullDrainsOnly, refs0 := [], [], true, rc;
    }

    /** `writeFd`: signal the eventfd once; a short write is fatal. */
    method WriteFd(written: int)
      modifies this`wakeCount, this`aborted
      ensures wakeCount == CounterAfterWrite(old(wakeCount), written)
      ensures aborted == (old(aborted) || WriteIsFatal(written))
    {
      if written == 8 {
        wakeCount := wakeCount + 1;
      } else {
        aborted := true;
      }
    }

    /** `readFd` on the eventfd: reading takes the whole counter. */
    method ReadFd() returns (r: int)
      modifies this`wakeCount
      ensures r == 0 <==> old(wakeCount) > 0
      ensures r != 0 ==> r == -EAGAIN
      ensures wakeCount == 0
    {
      var res := EventFdRead(wakeCount);
      r := ReadFdResult(res.0, res.1);
      wakeCount := 0;
    }

    /** `pushEvent`: append under the lock, then signal once. */
    method PushEvent(ev: CameraEvent, written: int)
      requires Valid() && WellFormed(ev)
      modifies this`events, this`wakeCount, this`aborted, this`pushed
      ensures Valid()
      ensures events == old(events) + [ev]
      ensures wakeCount == CounterAfterWrite(old(wakeCount), written)
      ensures aborted == (old(aborted) || WriteIsFatal(written))
      ensures pushed == old(pushed) + [ev]
    {
      ghost var queued, count, dead, log := events, wakeCount, aborted, pushed;
      events := events + [ev];
      pushed := pushed + [ev];
      WriteFd(written);
      PushKeepsInvariant(queued, count, dead, delivered, log, fullDrainsOnly, refs, refs0, ev, written);
    }

    /** `getEvents`: swap the whole queue out under the lock, after the
        eventfd read that consumed `count` wake-ups. Every taken event is
        delivered; the invariant holds again once their completions have
        released their request references. */
    method GetEvents(ghost count: nat) returns (v: seq<CameraEvent>)
      requires ManagerInvariant(events, count, false, delivered, pushed, fullDrainsOnly, refs, refs0)
      modifies this`events, this`delivered
      ensures v == old(events) && events == [] && delivered == old(delivered) + v
      ensures ManagerInvariant(events, 0, false, delivered, pushed, fullDrainsOnly,
                               DecRefAll(refs, Completions(v)), refs0)
    {
      ghost var before := delivered;
      v := events;
      events := [];
      delivered := delivered + v;
      FullDrainKeepsInvariant(v, count, before, pushed, fullDrainsOnly, refs, refs0);
    }

    /** `convertEvent`: build the Python event; a request completion drops
        the reference taken when the request was queued, nothing else does. */
    method ConvertEvent(ev: CameraEvent) returns (p: PyCameraEvent)
      modifies this`refs
      ensures p == Converted(ev)
      ensures refs == match Released(ev) case Some(r) => DecRef(old(refs), r) case None => old(refs)
    {
      p := NewPyCameraEvent(ev.kind, ev.camera);
      match ev.kind {
        case CameraAdded =>
        case CameraRemoved =>
        case Disconnect =>
        case BufferCompleted =>
          p := p.(request := ev.request, fb := ev.fb);
        case RequestCompleted =>
          p := p.(request := ev.request);
          if ev.request.Some? {
            refs := DecRef(refs, ev.request.value);
          }
      }
    }

    /** Convert `evs` one for one, in order. */
    method ConvertAll(evs: seq<CameraEvent>) returns (out: seq<PyCameraEvent>)
      requires ManagerInvariant(events, wakeCount, aborted, delivered, pushed, fullDrainsOnly,
                                DecRefAll(refs, Completions(evs)), refs0)
      modifies this`refs
      ensures Valid()
      ensures |out| == |evs|
      ensures forall i :: 0 <= i < |evs| ==> out[i] == Converted(evs[i])
      ensures refs == DecRefAll(old(refs), Completions(evs))
    {
      out := [];
      for j := 0 to |evs|
        invariant |out| == j
        invariant forall i :: 0 <= i < j ==> out[i] == Converted(evs[i])
        invariant refs == DecRefAll(old(refs), Completions(evs[..j]))
      {
        var p := ConvertEvent(evs[j]);
        out := out + [p];
        assert evs[..j + 1][..j] == evs[..j];
      }
      assert evs[..|evs|] == evs;
    }

    /** `getPyEvents`: read the eventfd; on success drain everything and
        convert it in order. An empty counter makes it raise `-EAGAIN`
        (the "no events" answer is unreachable, see NoEventsUnreachable). */
    method GetPyEvents() returns (r: Result<seq<PyCameraEvent>, int>)
      requires Valid() && !aborted
      modifies this`events, this`wakeCount, this`refs, this`delivered
      ensures Valid()
      ensures wakeCount == 0
      ensures old(wakeCount) == 0 ==>
        r == Failure(-EAGAIN) && old(events) == [] && events == [] && refs == old(refs)
      ensures old(wakeCount) > 0 ==>
        r.Success? && |r.value| == |old(events)| &&
        (forall i :: 0 <= i < |old(events)| ==> r.value[i] == Converted(old(events)[i])) &&
        events == [] && refs == DecRefAll(old(refs), Completions(old(events)))
      ensures delivered == old(delivered) + (if old(wakeCount) > 0 then old(events) else [])
    {
      ghost var count := wakeCount;
      var ret := ReadFd();
      var verdict := PyEventsVerdict(ret);
      if verdict == NoEvents {
        return Success([]);
      }
      if verdict.Raise? {
        return Failure(verdict.code);
      }
      var pyevents := DrainAndConvert(count);
      return Success(pyevents);
    }

    /** The drain of a successful `getPyEvents`, once the eventfd read
        consumed `count` wake-ups: take everything and convert it in order. */
    method DrainAndConvert(ghost count: nat) returns (out: seq<PyCameraEvent>)
      requires !aborted && wakeCount == 0
      requires ManagerInvariant(events, count, false, delivered, pushed, fullDrainsOnly, refs, refs0)
      modifies this`events, this`refs, this`delivered
      ensures Valid()
      ensures |out| == |old(events)| && forall i :: 0 <= i < |old(events)| ==> out[i] == Converted(old(events)[i])
      ensures events == [] && refs == DecRefAll(old(refs), Completions(old(events)))
      ensures delivered == old(delivered) + old(events)
    {
      var evs := GetEvents(count);
      out := ConvertAll(evs);
    }

    /** `getPyCameraEvents`: under the lock, move every event specific to
        `camera` out of the queue, keeping the rest in place and in order;
        then convert what was taken. The eventfd is not read. */
    method GetPyCameraEvents(camera: CameraId) returns (out: seq<PyCameraEvent>)
      requires Valid()
      modifies this`events, this`refs, this`delivered, this`fullDrainsOnly
      ensures Valid()
      ensures events == OtherEvents(old(events), camera)
      ensures |out| == |CameraEventsOf(old(events), camera)|
      ensures forall i :: 0 <= i < |out| ==> out[i] == Converted(CameraEventsOf(old(events), camera)[i])
      ensures refs == DecRefAll(old(refs), Completions(CameraEventsOf(old(events), camera)))
      ensures delivered == old(delivered) + CameraEventsOf(old(events), camera)
    {
      var taken := TakeCameraEvents(camera);
      out := ConvertAll(taken);
    }

    /** The locked part of `getPyCameraEvents`: the camera's events leave the
        queue and are delivered; the invariant holds again once their
        completions have released their request references. */
    method TakeCameraEvents(camera: CameraId) returns (taken: seq<CameraEvent>)
      requires Valid()
      modifies this`events, this`delivered, this`fullDrainsOnly
      ensures taken == CameraEventsOf(old(events), camera)
      ensures events == OtherEvents(old(events), camera)
      ensures delivered == old(delivered) + taken && !fullDrainsOnly
      ensures ManagerInvariant(events, wakeCount, aborted, delivered, pushed, fullDrainsOnly,
                               DecRefAll(refs, Completions(taken)), refs0)
    {
      ghost var queued, before, inOrder := events, delivered, fullDrainsOnly;
      taken := ExtractCameraEvents(camera);
      delivered := delivered + taken;
      fullDrainsOnly := false;
      CameraDrainKeepsInvariant(queued, wakeCount, aborted, before, pushed, inOrder, refs, refs0, camera);
    }

    /** The locked loop of `getPyCameraEvents`: walk the queue, erasing each
        camera-specific event into the result and stepping over the rest. */
    method ExtractCameraEvents(camera: CameraId) returns (taken: seq<CameraEvent>)
      modifies this`events
      ensures taken == CameraEventsOf(old(events), camera)
      ensures events == OtherEvents(old(events), camera)
    {
      ghost var orig := events;
      ghost var k := 0;
      taken := [];
      var i := 0;
      while i < |events|
        invariant k <= |orig|
        invariant events == OtherEvents(orig[..k], camera) + orig[k..]
        invariant i == |OtherEvents(orig[..k], camera)|
        invariant taken == CameraEventsOf(orig[..k], camera)
        decreases |events| - i
      {
        ExtractionLoopStep(orig, k, camera, events, i);
        if IsCameraSpecificEvent(events[i], camera) {
          taken := taken + [events[i]];
          events := events[..i] + events[i + 1..];
        } else {
          i := i + 1;
        }
        k := k + 1;
      }
      assert orig[..|orig|] == orig;
    }

    /** `handleBufferCompleted`: queue one event carrying camera, request and
        framebuffer. */
    method HandleBufferCompleted(cam: CameraId, req: RequestId, fb: BufferId, written: int)
      requires Valid()
      modifies this`events, this`wakeCount, this`aborted, this`pushed
      ensures Valid()
      ensures events == old(events) + [CameraEvent(BufferCompleted, cam, Some(req), Some(fb))]
      ensures wakeCount == CounterAfterWrite(old(wakeCount), written)
      ensures aborted == (old(aborted) || WriteIsFatal(written))
      ensures pushed == old(pushed) + [CameraEvent(BufferCompleted, cam, Some(req), Some(fb))]
    {
      PushEvent(CameraEvent(BufferCompleted, cam, Some(req), Some(fb)), written);
    }

    /** `handleRequestCompleted`: queue one event carrying camera and request. */
    method HandleRequestCompleted(cam: CameraId, req: RequestId, written: int)
      requires Valid()
      modifies this`events, this`wakeCount, this`aborted, this`pushed
      ensures Valid()
      ensures events == old(events) + [CameraEvent(RequestCompleted, cam, Some(req), None)]
      ensures wakeCount == CounterAfterWrite(old(wakeCount), written)
      ensures aborted == (old(aborted) || WriteIsFatal(written))
      ensures pushed == old(pushed) + [CameraEvent(RequestCompleted, cam, Some(req), None)]
    {
      PushEvent(CameraEvent(RequestCompleted, cam, Some(req)), written);
    }

    /** `handleDisconnected`: queue one event carrying the camera only. */
    method HandleDisconnected(cam: CameraId, written: int)
      requires Valid()
      modifies this`events, this`wakeCount, this`aborted, this`pushed
      ensures Valid()
      ensures events == old(events) + [CameraEvent(Disconnect, cam, None, None)]
      ensures wakeCount == CounterAfterWrite(old(wakeCount), written)
      ensures aborted == (old(aborted) || WriteIsFatal(written))
      ensures pushed == old(pushed) + [CameraEvent(Disconnect, cam, None, None)]
    {
      PushEvent(CameraEvent(Disconnect, cam), written);
    }

    /** `handleCameraAdded`: queue one event carrying the camera only. */
    method HandleCameraAdded(cam: CameraId, written: int)
      requires Valid()
      modifies this`events, this`wakeCount, this`aborted, this`pushed
      ensures Valid()
      ensures events == old(events) + [CameraEvent(CameraAdded, cam, None, None)]
      ensures wakeCount == CounterAfterWrite(old(wakeCount), written)
      ensures aborted == (old(aborted) || WriteIsFatal(written))
      ensures pushed == old(pushed) + [CameraEvent(CameraAdded, cam, None, None)]
    {
      PushEvent(CameraEvent(CameraAdded, cam), written);
    }

    /** `handleCameraRemoved`: queue one event carrying the camera only. */
    method HandleCameraRemoved(cam: CameraId, written: int)
      requires Valid()
      modifies this`events, this`wakeCount, this`aborted, this`pushed
      ensures Valid()
      ensures events == old(events) + [CameraEvent(CameraRemoved, cam, None, None)]
      ensures wakeCount == CounterAfterWrite(old(wakeCount), written)
      ensures aborted == (old(aborted) || WriteIsFatal(written))
      ensures pushed == old(pushed) + [CameraEvent(CameraRemoved, cam, None, None)]
    {
      PushEvent(CameraEvent(CameraRemoved, cam), written);
    }
  }
}
