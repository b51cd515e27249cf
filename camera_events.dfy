/** The event records of the Python camera manager: the internal
    `CameraEvent` queued by the completion callbacks, the `PyCameraEvent`
    handed to Python, the per-camera selection predicate and the value part
    of the conversion between the two. */
module CameraEvents {
  import opened Common

  /** The five kinds of event; there are no others. */
  datatype CameraEventType =
    | CameraAdded
    | CameraRemoved
    | Disconnect
    | RequestCompleted
    | BufferCompleted

  /** The internal record. Request and framebuffer default to null (`None`)
      when the producer does not supply them. */
  datatype CameraEvent = CameraEvent(
    kind: CameraEventType,
    camera: CameraId,
    request: Option<RequestId> := None,
    fb: Option<BufferId> := None)

  /** The record passed to Python. */
  datatype PyCameraEvent = PyCameraEvent(
    kind: CameraEventType,
    camera: CameraId,
    request: Option<RequestId>,
    fb: Option<BufferId>)

  /** The `PyCameraEvent` constructor: it sets the type and the camera only;
      request and framebuffer stay empty until the converter fills them. */
  function NewPyCameraEvent(kind: CameraEventType, camera: CameraId): (e: PyCameraEvent)
    ensures e.kind == kind && e.camera == camera
    ensures e.request.None? && e.fb.None?
  {
    PyCameraEvent(kind, camera, None, None)
  }

  /** The shape every producer gives an event of each kind: a buffer
      completion names a request and a buffer, a request completion a request
      only, and the other three kinds neither. */
  predicate WellFormed(e: CameraEvent)
  {
    match e.kind
    case BufferCompleted => e.request.Some? && e.fb.Some?
    case RequestCompleted => e.request.Some? && e.fb.None?
    case _ => e.request.None? && e.fb.None?
  }

  /** `isCameraSpecificEvent`: the event belongs to `camera` and is one of the
      kinds a per-camera drain takes. Hot-plug events are never selected. */
  predicate IsCameraSpecificEvent(e: CameraEvent, camera: CameraId)
    ensures IsCameraSpecificEvent(e, camera) <==>
      e.camera == camera && e.kind != CameraAdded && e.kind != CameraRemoved
  {
    e.camera == camera &&
    (e.kind == RequestCompleted || e.kind == BufferCompleted || e.kind == Disconnect)
  }

  /** The value that `convertEvent` returns: it always carries the camera; a
      buffer completion also carries request and framebuffer, a request
      completion the request, and the other kinds nothing more. */
  function Converted(e: CameraEvent): (p: PyCameraEvent)
    ensures p.kind == e.kind && p.camera == e.camera
    ensures p.request == if e.kind == BufferCompleted || e.kind == RequestCompleted then e.request else None
    ensures p.fb == if e.kind == BufferCompleted then e.fb else None
  {
    var p := NewPyCameraEvent(e.kind, e.camera);
    match e.kind
    case CameraAdded => p
    case CameraRemoved => p
    case Disconnect => p
    case BufferCompleted => p.(request := e.request, fb := e.fb)
    case RequestCompleted => p.(request := e.request)
  }

  /** For every event a producer can queue, the Python event carries exactly
      the request and framebuffer of the internal one. */
  lemma ConvertedKeepsPayload(e: CameraEvent)
    requires WellFormed(e)
    ensures Converted(e) == PyCameraEvent(e.kind, e.camera, e.request, e.fb)
  {
  }

  /** The request whose Python reference `convertEvent` drops: the one of a
      request completion, and none for every other kind. */
  function Released(e: CameraEvent): (r: Option<RequestId>)
    ensures r.Some? <==> e.kind == RequestCompleted && e.request.Some?
    ensures r.Some? ==> e.request == r
  {
    if e.kind == RequestCompleted then e.request else None
  }

  /** The requests released by converting `evs` in order, one per request
      completion. */
  function Completions(evs: seq<CameraEvent>): (rs: seq<RequestId>)
    ensures |rs| <= |evs|
    decreases |evs|
  {
    if evs == [] then []
    else
      var init := Completions(evs[..|evs| - 1]);
      match Released(evs[|evs| - 1])
      case Some(r) => init + [r]
      case None => init
  }

  /** The number of request completions for `r` in `evs`. */
  function CompletedCount(evs: seq<CameraEvent>, r: RequestId): nat
    decreases |evs|
  {
    if evs == [] then 0
    else
      (if evs[|evs| - 1].kind == RequestCompleted && evs[|evs| - 1].request == Some(r) then 1 else 0)
      + CompletedCount(evs[..|evs| - 1], r)
  }

  /** Every request completion in `evs` releases its request once and no
      other event releases anything. */
  lemma {:induction false} CompletionsCount(evs: seq<CameraEvent>, r: RequestId)
    ensures multiset(Completions(evs))[r] == CompletedCount(evs, r)
    decreases |evs|
  {
    if evs != [] {
      CompletionsCount(evs[..|evs| - 1], r);
    }
  }

  /** The events a per-camera drain takes out, in queue order. */
  function CameraEventsOf(evs: seq<CameraEvent>, camera: CameraId): (r: seq<CameraEvent>)
    ensures forall i :: 0 <= i < |r| ==> IsCameraSpecificEvent(r[i], camera)
    decreases |evs|
  {
    if evs == [] then []
    else
      var init := CameraEventsOf(evs[..|evs| - 1], camera);
      if IsCameraSpecificEvent(evs[|evs| - 1], camera) then init + [evs[|evs| - 1]] else init
  }

  /** The events a per-camera drain leaves queued, in queue order. */
  function OtherEvents(evs: seq<CameraEvent>, camera: CameraId): (r: seq<CameraEvent>)
    ensures forall i :: 0 <= i < |r| ==> !IsCameraSpecificEvent(r[i], camera)
    decreases |evs|
  {
    if evs == [] then []
    else
      var init := OtherEvents(evs[..|evs| - 1], camera);
      if IsCameraSpecificEvent(evs[|evs| - 1], camera) then init else init + [evs[|evs| - 1]]
  }

  /** One element more of the queue decides one element of either the
      taken list or the remaining list, never both. */
  lemma ExtractionStep(evs: seq<CameraEvent>, k: nat, camera: CameraId)
    requires k < |evs|
    ensures IsCameraSpecificEvent(evs[k], camera) ==>
      CameraEventsOf(evs[..k + 1], camera) == CameraEventsOf(evs[..k], camera) + [evs[k]] &&
      OtherEvents(evs[..k + 1], camera) == OtherEvents(evs[..k], camera)
    ensures !IsCameraSpecificEvent(evs[k], camera) ==>
      CameraEventsOf(evs[..k + 1], camera) == CameraEventsOf(evs[..k], camera) &&
      OtherEvents(evs[..k + 1], camera) == OtherEvents(evs[..k], camera) + [evs[k]]
  {
    assert evs[..k + 1][..k] == evs[..k];
  }

  /** One pass of the in-place extraction loop: with `evs[..k]` already
      split, removing or skipping `evs[k]` at position `i` of the working
      queue `q` splits `evs[..k + 1]`. */
  lemma ExtractionLoopStep(evs: seq<CameraEvent>, k: nat, camera: CameraId, q: seq<CameraEvent>, i: nat)
    requires k < |evs|
    requires q == OtherEvents(evs[..k], camera) + evs[k..]
    requires i == |OtherEvents(evs[..k], camera)|
    ensures i < |q| && q[i] == evs[k]
    ensures IsCameraSpecificEvent(evs[k], camera) ==>
      q[..i] + q[i + 1..] == OtherEvents(evs[..k + 1], camera) + evs[k + 1..] &&
      i == |OtherEvents(evs[..k + 1], camera)| &&
      CameraEventsOf(evs[..k + 1], camera) == CameraEventsOf(evs[..k], camera) + [evs[k]]
    ensures !IsCameraSpecificEvent(evs[k], camera) ==>
      q == OtherEvents(evs[..k + 1], camera) + evs[k + 1..] &&
      i + 1 == |OtherEvents(evs[..k + 1], camera)| &&
      CameraEventsOf(evs[..k + 1], camera) == CameraEventsOf(evs[..k], camera)
  {
    ExtractionStep(evs, k, camera);
    var kept := OtherEvents(evs[..k], camera);
    assert evs[k..] == [evs[k]] + evs[k + 1..];
    assert q[..i] == kept && q[i + 1..] == evs[k + 1..];
  }

  /** `s` is an order-preserving merge of `a` and `b`: every element of `s`
      is taken from exactly one of them, and each keeps its own order. */
  ghost predicate Interleaving<T>(s: seq<T>, a: seq<T>, b: seq<T>)
    decreases |s|
  {
    if s == [] then a == [] && b == []
    else
      var x := s[|s| - 1];
      (a != [] && a[|a| - 1] == x && Interleaving(s[..|s| - 1], a[..|a| - 1], b)) ||
      (b != [] && b[|b| - 1] == x && Interleaving(s[..|s| - 1], a, b[..|b| - 1]))
  }

  /** A merge accounts for every element exactly once. */
  lemma {:induction false} InterleavingMultiset<T>(s: seq<T>, a: seq<T>, b: seq<T>)
    requires Interleaving(s, a, b)
    ensures multiset(a) + multiset(b) == multiset(s)
    ensures |a| + |b| == |s|
    decreases |s|
  {
    if s != [] {
      var n := |s| - 1;
      assert s == s[..n] + [s[n]];
      if a != [] && a[|a| - 1] == s[n] && Interleaving(s[..n], a[..|a| - 1], b) {
        InterleavingMultiset(s[..n], a[..|a| - 1], b);
        assert a == a[..|a| - 1] + [a[|a| - 1]];
      } else {
        InterleavingMultiset(s[..n], a, b[..|b| - 1]);
        assert b == b[..|b| - 1] + [b[|b| - 1]];
      }
    }
  }

  /** The queue is exactly the order-preserving merge of what a per-camera
      drain returns and what it leaves behind. */
  lemma {:induction false} ExtractionInterleaves(evs: seq<CameraEvent>, camera: CameraId)
    ensures Interleaving(evs, CameraEventsOf(evs, camera), OtherEvents(evs, camera))
    decreases |evs|
  {
    if evs != [] {
      var n := |evs| - 1;
      var x := evs[n];
      ExtractionInterleaves(evs[..n], camera);
      var a0, b0 := CameraEventsOf(evs[..n], camera), OtherEvents(evs[..n], camera);
      var a, b := CameraEventsOf(evs, camera), OtherEvents(evs, camera);
      if IsCameraSpecificEvent(x, camera) {
        assert a == a0 + [x] && b == b0;
        assert a[|a| - 1] == x && a[..|a| - 1] == a0;
      } else {
        assert a == a0 && b == b0 + [x];
        assert b[|b| - 1] == x && b[..|b| - 1] == b0;
      }
    }
  }

  /** The two parts of a per-camera drain hold every queued event once. */
  lemma ExtractionMultiset(evs: seq<CameraEvent>, camera: CameraId)
    ensures multiset(CameraEventsOf(evs, camera)) + multiset(OtherEvents(evs, camera)) == multiset(evs)
    ensures |CameraEventsOf(evs, camera)| + |OtherEvents(evs, camera)| == |evs|
  {
    ExtractionInterleaves(evs, camera);
    InterleavingMultiset(evs, CameraEventsOf(evs, camera), OtherEvents(evs, camera));
  }

  /** Consequently the two parts together hold every queued event exactly
      once: each event is returned as often as it was queued if it is
      camera-specific, and otherwise stays queued as often. */
  lemma ExtractionPartitions(evs: seq<CameraEvent>, camera: CameraId, e: CameraEvent)
    ensures multiset(CameraEventsOf(evs, camera)) + multiset(OtherEvents(evs, camera)) == multiset(evs)
    ensures |CameraEventsOf(evs, camera)| + |OtherEvents(evs, camera)| == |evs|
    ensures multiset(CameraEventsOf(evs, camera))[e] ==
      if IsCameraSpecificEvent(e, camera) then multiset(evs)[e] else 0
    ensures multiset(OtherEvents(evs, camera))[e] ==
      if IsCameraSpecificEvent(e, camera) then 0 else multiset(evs)[e]
  {
    ExtractionInterleaves(evs, camera);
    InterleavingMultiset(evs, CameraEventsOf(evs, camera), OtherEvents(evs, camera));
    var a, b := CameraEventsOf(evs, camera), OtherEvents(evs, camera);
    if IsCameraSpecificEvent(e, camera) {
      assert e !in b;
    } else {
      assert e !in a;
    }
  }

  /** A per-camera drain never takes a hot-plug event out of the queue. */
  lemma HotplugEventsStayQueued(evs: seq<CameraEvent>, camera: CameraId, e: CameraEvent)
    requires e.kind == CameraAdded || e.kind == CameraRemoved
    ensures e !in CameraEventsOf(evs, camera)
    ensures multiset(OtherEvents(evs, camera))[e] == multiset(evs)[e]
  {
    ExtractionPartitions(evs, camera, e);
  }

  /** Selection distributes over concatenation: drains of an appended queue
      see the camera's events of each part in order. */
  lemma {:induction false} CameraEventsOfAppend(a: seq<CameraEvent>, b: seq<CameraEvent>, camera: CameraId)
    ensures CameraEventsOf(a + b, camera) == CameraEventsOf(a, camera) + CameraEventsOf(b, camera)
    decreases |b|
  {
    if b != [] {
      var n := |b| - 1;
      CameraEventsOfAppend(a, b[..n], camera);
      assert (a + b)[..|a + b| - 1] == a + b[..n];
    } else {
      assert a + b == a;
    }
  }

  /** What a drain for `other` leaves behind still holds every event of
      `camera` when the cameras differ, and none when they are the same. */
  lemma {:induction false} CameraEventsOfRemaining(evs: seq<CameraEvent>, camera: CameraId, other: CameraId)
    ensures CameraEventsOf(OtherEvents(evs, other), camera) ==
      if camera == other then [] else CameraEventsOf(evs, camera)
    decreases |evs|
  {
    if evs != [] {
      var n := |evs| - 1;
      CameraEventsOfRemaining(evs[..n], camera, other);
      var rest := OtherEvents(evs[..n], other);
      if !IsCameraSpecificEvent(evs[n], other) {
        assert OtherEvents(evs, other)[..|rest|] == rest;
      }
    }
  }

  /** What a drain for `other` returns holds every event of `camera` when
      the cameras are the same, and none when they differ. */
  lemma {:induction false} CameraEventsOfTaken(evs: seq<CameraEvent>, camera: CameraId, other: CameraId)
    ensures CameraEventsOf(CameraEventsOf(evs, other), camera) ==
      if camera == other then CameraEventsOf(evs, camera) else []
    decreases |evs|
  {
    if evs != [] {
      var n := |evs| - 1;
      CameraEventsOfTaken(evs[..n], camera, other);
      var taken := CameraEventsOf(evs[..n], other);
      if IsCameraSpecificEvent(evs[n], other) {
        assert CameraEventsOf(evs, other)[..|taken|] == taken;
      }
    }
  }

  /** Releases of an appended queue are those of each part in order. */
  lemma {:induction false} CompletionsAppend(a: seq<CameraEvent>, b: seq<CameraEvent>)
    ensures Completions(a + b) == Completions(a) + Completions(b)
    decreases |b|
  {
    if b != [] {
      var n := |b| - 1;
      CompletionsAppend(a, b[..n]);
      assert (a + b)[..|a + b| - 1] == a + b[..n];
    } else {
      assert a + b == a;
    }
  }
}
