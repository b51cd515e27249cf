/** The KMS renderer of the capture test tool: a double-buffered page-flip
    scheduler that shows captured requests on a display in the order they
    were queued and reports each one as processed once the display has
    moved past it; the quadrant placement of up to four streams; and the
    setup pass that numbers the streams and maps every capture buffer to a
    DRM framebuffer. The DRM commits themselves are recorded as effects. */
module CamKms {
  import opened Common

  /** The `drmreq` dictionary: the capture context and the request. */
  datatype DrmReq = DrmReq(camctx: nat, camreq: RequestId)

  function Opt(o: Option<DrmReq>): (s: seq<DrmReq>)
    ensures |s| <= 1
    ensures o.Some? ==> s == [o.value]
    ensures o.None? ==> s == []
  {
    if o.Some? then [o.value] else []
  }

  /** What the scheduler holds, and the two effects it has on the outside:
      the requests applied to the display (`apply_request`) and the ones
      reported processed (the `request_prcessed` callback), in order. */
  datatype Schedule = Schedule(current: Option<DrmReq>, next: Option<DrmReq>, bufqueue: seq<DrmReq>,
                               applied: seq<DrmReq>, processed: seq<DrmReq>)

  /** `queue`: with no request pending for the next flip, the new one
      becomes `next` and is applied at once; otherwise it waits at the end
      of `bufqueue`. */
  function QueueStep(s: Schedule, d: DrmReq): (t: Schedule)
    ensures s.next.None? ==> t == s.(next := Some(d), applied := s.applied + [d])
    ensures s.next.Some? ==> t == s.(bufqueue := s.bufqueue + [d])
  {
    if s.next.None? then s.(next := Some(d), applied := s.applied + [d])
    else s.(bufqueue := s.bufqueue + [d])
  }

  /** `handle_page_flip`: the shown request moves from `next` to `current`,
      the head of `bufqueue` (if any) becomes `next` and is applied, and the
      request shown before is reported processed. */
  function PageFlipStep(s: Schedule): (t: Schedule)
    ensures t.current == s.next
    ensures s.bufqueue == [] ==> t.next == None && t.bufqueue == [] && t.applied == s.applied
    ensures s.bufqueue != [] ==>
      t.next == Some(s.bufqueue[0]) && t.bufqueue == s.bufqueue[1..] && t.applied == s.applied + [s.bufqueue[0]]
    ensures t.processed == s.processed + Opt(s.current)
  {
    var old_ := s.current;
    var current := s.next;
    var next := if |s.bufqueue| > 0 then Some(s.bufqueue[0]) else None;
    var bufqueue := if |s.bufqueue| > 0 then s.bufqueue[1..] else s.bufqueue;
    var applied := if next.Some? then s.applied + [next.value] else s.applied;
    var processed := if old_.Some? then s.processed + [old_.value] else s.processed;
    Schedule(current, next, bufqueue, applied, processed)
  }

  /** The scheduler's invariant against the requests `queued` so far:
      requests wait in `bufqueue` only behind a `next`; everything queued
      was applied or is waiting, in queue order; and everything applied
      was processed, is shown, or is about to be shown. */
  ghost predicate ScheduleInvariant(s: Schedule, queued: seq<DrmReq>)
  {
    (s.bufqueue != [] ==> s.next.Some?) &&
    queued == s.applied + s.bufqueue &&
    s.applied == s.processed + Opt(s.current) + Opt(s.next)
  }

  lemma QueueKeepsInvariant(s: Schedule, queued: seq<DrmReq>, d: DrmReq)
    requires ScheduleInvariant(s, queued)
    ensures ScheduleInvariant(QueueStep(s, d), queued + [d])
  {
  }

  lemma PageFlipKeepsInvariant(s: Schedule, queued: seq<DrmReq>)
    requires ScheduleInvariant(s, queued)
    ensures ScheduleInvariant(PageFlipStep(s), queued)
  {
    var t := PageFlipStep(s);
    if s.bufqueue != [] {
      assert s.bufqueue == [s.bufqueue[0]] + s.bufqueue[1..];
      assert t.processed + Opt(t.current) + Opt(t.next) == s.processed + Opt(s.current) + Opt(s.next) + [s.bufqueue[0]];
    } else {
      assert t.processed + Opt(t.current) + Opt(t.next) == s.processed + Opt(s.current) + Opt(s.next);
    }
  }

  /** Requests are applied, and reported processed, in exactly the order
      they were queued, each at most once. */
  lemma InQueueOrder(s: Schedule, queued: seq<DrmReq>)
    requires ScheduleInvariant(s, queued)
    ensures s.applied <= queued
    ensures s.processed <= s.applied
  {
    assert s.applied == s.processed + (Opt(s.current) + Opt(s.next));
  }

  /** Requests not yet processed: shown, about to be shown, or waiting. */
  function Pending(s: Schedule): nat
  {
    |Opt(s.current)| + |Opt(s.next)| + |s.bufqueue|
  }

  /** `n` page flips with no request queued in between. */
  function Flips(s: Schedule, n: nat): Schedule
    decreases n
  {
    if n == 0 then s else Flips(PageFlipStep(s), n - 1)
  }

  lemma {:induction false} FlipsKeepIdle(s: Schedule, queued: seq<DrmReq>, n: nat)
    requires ScheduleInvariant(s, queued) && Pending(s) == 0
    ensures Flips(s, n).processed == s.processed
    decreases n
  {
    if n > 0 {
      PageFlipKeepsInvariant(s, queued);
      FlipsKeepIdle(PageFlipStep(s), queued, n - 1);
    }
  }

  lemma {:induction false} FlipsDrainFrom(s: Schedule, queued: seq<DrmReq>, n: nat)
    requires ScheduleInvariant(s, queued)
    requires n >= Pending(s) + (if s.current.None? && Pending(s) > 0 then 1 else 0)
    ensures Flips(s, n).processed == queued
    decreases n
  {
    if Pending(s) == 0 {
      FlipsKeepIdle(s, queued, n);
    } else {
      PageFlipKeepsInvariant(s, queued);
      FlipsDrainFrom(PageFlipStep(s), queued, n - 1);
    }
  }

  /** Once capture stops, one page flip more than there are pending
      requests reports every queued request processed, in queue order. */
  lemma FlipsDrain(s: Schedule, queued: seq<DrmReq>, n: nat)
    requires ScheduleInvariant(s, queued)
    requires n >= Pending(s) + 1
    ensures Flips(s, n).processed == queued
  {
    FlipsDrainFrom(s, queued, n);
  }

  /** The pixel formats of `FMT_MAP`. */
  datatype PixelFormat = RGB888 | YUYV | ARGB8888 | XRGB8888

  /** `FMT_MAP[fmt]`; an unknown name is a `KeyError`. */
  function FmtMap(name: string): (f: Option<PixelFormat>)
    ensures f.Some? <==> name in {"RGB888", "YUYV", "ARGB8888", "XRGB8888"}
  {
    if name == "RGB888" then Some(RGB888)
    else if name == "YUYV" then Some(YUYV)
    else if name == "ARGB8888" then Some(ARGB8888)
    else if name == "XRGB8888" then Some(XRGB8888)
    else None
  }

  type StreamId = nat
  type PlaneId = nat

  /** A configured stream of a capture context: its format name, size,
      stride and allocated buffers. */
  datatype StreamConfig = StreamConfig(stream: StreamId, fmt: string, width: int, height: int, stride: int,
                                       buffers: seq<BufferId>)

  /** A capture context: a camera and its configured streams. */
  datatype CameraContext = CameraContext(camera: CameraId, streams: seq<StreamConfig>)

  /** An entry of `self.streams`. */
  datatype StreamEntry = StreamEntry(idx: nat, stream: StreamId, plane: PlaneId, fmt: PixelFormat,
                                     width: int, height: int)

  /** A `DmabufFramebuffer` over the first plane of a capture buffer. */
  datatype DrmFb = DrmFb(width: int, height: int, fmt: PixelFormat, fd: BufferId, stride: int)

  /** The streams of all contexts, context by context, in order. */
  function Flatten(cs: seq<CameraContext>): seq<StreamConfig>
    decreases |cs|
  {
    if cs == [] then [] else Flatten(cs[..|cs| - 1]) + cs[|cs| - 1].streams
  }

  /** The contexts before `i` contribute a prefix of all streams. */
  lemma {:induction false} FlattenPrefix(cs: seq<CameraContext>, i: nat)
    requires i <= |cs|
    ensures Flatten(cs[..i]) <= Flatten(cs)
    decreases |cs|
  {
    if i < |cs| {
      assert cs[..|cs| - 1][..i] == cs[..i];
      FlattenPrefix(cs[..|cs| - 1], i);
    } else {
      assert cs[..i] == cs;
    }
  }

  /** The plane `reserve_generic_plane` hands out for the `k`-th stream. */
  function PlaneFor(planes: seq<Option<PlaneId>>, k: nat): Option<PlaneId>
  {
    if k < |planes| then planes[k] else None
  }

  /** The `k`-th stream can be set up: its format is known and a plane is
      available for it. */
  predicate Ready(cfg: StreamConfig, planes: seq<Option<PlaneId>>, k: nat)
  {
    FmtMap(cfg.fmt).Some? && PlaneFor(planes, k).Some?
  }

  predicate AllReady(cfgs: seq<StreamConfig>, planes: seq<Option<PlaneId>>)
  {
    forall k :: 0 <= k < |cfgs| ==> Ready(cfgs[k], planes, k)
  }

  /** The entries `setup` records: the `k`-th stream overall gets index
      `k`, its plane and its format. */
  function Entries(cfgs: seq<StreamConfig>, planes: seq<Option<PlaneId>>): (es: seq<StreamEntry>)
    requires AllReady(cfgs, planes)
    ensures |es| == |cfgs|
  {
    seq(|cfgs|, k requires 0 <= k < |cfgs| && Ready(cfgs[k], planes, k) =>
      StreamEntry(k, cfgs[k].stream, PlaneFor(planes, k).value, FmtMap(cfgs[k].fmt).value,
                  cfgs[k].width, cfgs[k].height))
  }

  /** The framebuffer made for buffer `b` of stream `cfg`. */
  function FbFor(cfg: StreamConfig, b: BufferId): DrmFb
    requires FmtMap(cfg.fmt).Some?
  {
    DrmFb(cfg.width, cfg.height, FmtMap(cfg.fmt).value, b, cfg.stride)
  }

  /** `cam_2_drm` after mapping the buffers `bufs` of stream `cfg`. */
  function BufMap(m: map<BufferId, DrmFb>, cfg: StreamConfig, bufs: seq<BufferId>): (m': map<BufferId, DrmFb>)
    requires FmtMap(cfg.fmt).Some?
    ensures m'.Keys == m.Keys + set b | b in bufs
    decreases |bufs|
  {
    if bufs == [] then m else BufMap(m, cfg, bufs[..|bufs| - 1])[bufs[|bufs| - 1] := FbFor(cfg, bufs[|bufs| - 1])]
  }

  /** `cam_2_drm` after mapping every buffer of the streams `cfgs`. */
  function FbMap(m: map<BufferId, DrmFb>, cfgs: seq<StreamConfig>): map<BufferId, DrmFb>
    requires forall k :: 0 <= k < |cfgs| ==> FmtMap(cfgs[k].fmt).Some?
    decreases |cfgs|
  {
    if cfgs == [] then m else BufMap(FbMap(m, cfgs[..|cfgs| - 1]), cfgs[|cfgs| - 1], cfgs[|cfgs| - 1].buffers)
  }

  /** Every allocated buffer of every stream is mapped. */
  lemma {:induction false} FbMapCoversBuffers(m: map<BufferId, DrmFb>, cfgs: seq<StreamConfig>, k: nat, b: BufferId)
    requires forall j :: 0 <= j < |cfgs| ==> FmtMap(cfgs[j].fmt).Some?
    requires k < |cfgs| && b in cfgs[k].buffers
    ensures b in FbMap(m, cfgs)
    decreases |cfgs|
  {
    if k < |cfgs| - 1 {
      FbMapCoversBuffers(m, cfgs[..|cfgs| - 1], k, b);
    }
  }

  /** A buffer of the last stream that holds it maps to that stream's
      framebuffer over it. */
  lemma {:induction false} BufMapValue(m: map<BufferId, DrmFb>, cfg: StreamConfig, bufs: seq<BufferId>, b: BufferId)
    requires FmtMap(cfg.fmt).Some? && b in bufs
    ensures BufMap(m, cfg, bufs)[b] == FbFor(cfg, b)
    decreases |bufs|
  {
    if bufs[|bufs| - 1] != b {
      BufMapValue(m, cfg, bufs[..|bufs| - 1], b);
    }
  }

  /** A value on the display: which plane shows which framebuffer where. */
  datatype PlaneCmd = PlaneCmd(plane: PlaneId, fb: DrmFb, x: int, y: int, w: int, h: int)

  /** The position of the stream with index `idx`: even indices on the left
      edge, odd on the right; indices 0 and 1 on the top edge, the others
      on the bottom. */
  function Placement(idx: nat, hdisplay: int, vdisplay: int, w: int, h: int): (p: (int, int))
    ensures p.0 == if idx % 2 == 0 then 0 else hdisplay - w
    ensures p.1 == if idx / 2 == 0 then 0 else vdisplay - h
  {
    var x := if idx % 2 == 0 then 0 else hdisplay - w;
    var y := if idx / 2 == 0 then 0 else vdisplay - h;
    (x, y)
  }

  /** A framebuffer no larger than the display is placed inside it. */
  lemma PlacementInDisplay(idx: nat, hdisplay: int, vdisplay: int, w: int, h: int)
    requires 0 <= w <= hdisplay && 0 <= h <= vdisplay
    ensures 0 <= Placement(idx, hdisplay, vdisplay, w, h).0
    ensures Placement(idx, hdisplay, vdisplay, w, h).0 + w <= hdisplay
    ensures 0 <= Placement(idx, hdisplay, vdisplay, w, h).1
    ensures Placement(idx, hdisplay, vdisplay, w, h).1 + h <= vdisplay
  {
  }

  predicate Overlap(x1: int, y1: int, w1: int, h1: int, x2: int, y2: int, w2: int, h2: int)
  {
    x1 < x2 + w2 && x2 < x1 + w1 && y1 < y2 + h2 && y2 < y1 + h1
  }

  /** Four streams of at most a quarter of the display each land in four
      non-overlapping corners. */
  lemma PlacementsDisjoint(i: nat, j: nat, hdisplay: int, vdisplay: int,
                           w1: int, h1: int, w2: int, h2: int)
    requires i < 4 && j < 4 && i != j
    requires 0 <= w1 && 0 <= w2 && w1 + w2 <= hdisplay
    requires 0 <= h1 && 0 <= h2 && h1 + h2 <= vdisplay
    ensures !Overlap(Placement(i, hdisplay, vdisplay, w1, h1).0, Placement(i, hdisplay, vdisplay, w1, h1).1, w1, h1,
                     Placement(j, hdisplay, vdisplay, w2, h2).0, Placement(j, hdisplay, vdisplay, w2, h2).1, w2, h2)
  {
  }

  /** From the fifth stream on the corners repeat: index `i + 2` is placed
      like index `i` for every `i` from 2. */
  lemma PlacementRepeats(i: nat, hdisplay: int, vdisplay: int, w: int, h: int)
    requires i >= 2
    ensures Placement(i + 2, hdisplay, vdisplay, w, h) == Placement(i, hdisplay, vdisplay, w, h)
  {
  }

  /** The key `add_plane`'s `next(...)` compares: the entry's stream. */
  function EntryStream(e: StreamEntry): StreamId
  {
    e.stream
  }

  /** `add_plane`: place framebuffer `fb` of `stream` on the stream's plane
      in its corner. An unknown stream (`StopIteration`) or a missing
      framebuffer (`cam_2_drm.get` gave None) yields no command. */
  function AddPlane(streams: seq<StreamEntry>, stream: StreamId, fb: Option<DrmFb>,
                    hdisplay: int, vdisplay: int): (c: Option<PlaneCmd>)
    ensures c.Some? <==> FindFirst(streams, EntryStream, stream).Some? && fb.Some?
    ensures c.Some? ==>
      var s := streams[FindFirst(streams, EntryStream, stream).value];
      var p := Placement(s.idx, hdisplay, vdisplay, fb.value.width, fb.value.height);
      c.value == PlaneCmd(s.plane, fb.value, p.0, p.1, fb.value.width, fb.value.height)
  {
    var k := FindFirst(streams, EntryStream, stream);
    if k.None? || fb.None? then None
    else
      var s := streams[k.value];
      var p := Placement(s.idx, hdisplay, vdisplay, fb.value.width, fb.value.height);
      Some(PlaneCmd(s.plane, fb.value, p.0, p.1, fb.value.width, fb.value.height))
  }

  /** After `setup`, a stream whose id is not repeated is placed by its
      position `k` among all streams. */
  lemma SetupPlacesByPosition(cfgs: seq<StreamConfig>, planes: seq<Option<PlaneId>>, k: nat, fb: DrmFb,
                              hdisplay: int, vdisplay: int)
    requires AllReady(cfgs, planes) && k < |cfgs|
    requires forall j :: 0 <= j < |cfgs| && j != k ==> cfgs[j].stream != cfgs[k].stream
    ensures AddPlane(Entries(cfgs, planes), cfgs[k].stream, Some(fb), hdisplay, vdisplay) ==
      Some(PlaneCmd(PlaneFor(planes, k).value, fb, Placement(k, hdisplay, vdisplay, fb.width, fb.height).0,
                    Placement(k, hdisplay, vdisplay, fb.width, fb.height).1, fb.width, fb.height))
  {
    var es := Entries(cfgs, planes);
    assert es[k].stream == cfgs[k].stream;
    var f := FindFirst(es, EntryStream, cfgs[k].stream);
    assert f.Some? && f.value <= k;
    assert es[f.value].stream == cfgs[f.value].stream;
  }

  /** The streams of context `i` follow those of the contexts before it. */
  lemma NextContext(cs: seq<CameraContext>, i: nat)
    requires i < |cs|
    ensures Flatten(cs[..i + 1]) == Flatten(cs[..i]) + cs[i].streams
    ensures Flatten(cs[..i + 1]) <= Flatten(cs)
    ensures |Flatten(cs[..i + 1])| <= |Flatten(cs)|
    ensures Flatten(cs)[..|Flatten(cs[..i + 1])|] == Flatten(cs[..i + 1])
  {
    assert cs[..i + 1][..i] == cs[..i];
    FlattenPrefix(cs, i + 1);
  }

  /** Stream `j` of context `i` is stream number |Flatten(cs[..i])| + j
      overall. */
  lemma NextStream(cs: seq<CameraContext>, i: nat, j: nat)
    requires i < |cs| && j < |cs[i].streams|
    ensures |Flatten(cs[..i])| + j < |Flatten(cs)|
    ensures Flatten(cs)[|Flatten(cs[..i])| + j] == cs[i].streams[j]
    ensures Flatten(cs)[..|Flatten(cs[..i])| + j] == Flatten(cs[..i]) + cs[i].streams[..j]
  {
    NextContext(cs, i);
    var p := Flatten(cs[..i + 1]);
    var n := |Flatten(cs[..i])| + j;
    assert p[n] == cs[i].streams[j];
    assert Flatten(cs)[..n] == p[..n];
    assert p[..n] == Flatten(cs[..i]) + cs[i].streams[..j];
  }

  /** One more ready stream extends the recorded entries by its own entry
      and the buffer map by its buffers. */
  lemma SetupStep(done: seq<StreamConfig>, ss: seq<StreamConfig>, j: nat, planes: seq<Option<PlaneId>>,
                  m0: map<BufferId, DrmFb>)
    requires j < |ss|
    requires AllReady(done + ss[..j], planes) && Ready(ss[j], planes, |done| + j)
    ensures AllReady(done + ss[..j + 1], planes)
    ensures Entries(done + ss[..j + 1], planes) ==
      Entries(done + ss[..j], planes) +
      [StreamEntry(|done| + j, ss[j].stream, PlaneFor(planes, |done| + j).value, FmtMap(ss[j].fmt).value,
                   ss[j].width, ss[j].height)]
    ensures FbMap(m0, done + ss[..j + 1]) == BufMap(FbMap(m0, done + ss[..j]), ss[j], ss[j].buffers)
  {
    var pre := done + ss[..j];
    assert done + ss[..j + 1] == pre + [ss[j]];
    assert (pre + [ss[j]])[..|pre|] == pre;
  }

  /** `setup` stopped at the `k`-th stream overall, the first one it could
      not set up, with the streams before it set up. */
  ghost predicate StoppedAt(all: seq<StreamConfig>, planes: seq<Option<PlaneId>>, streams: seq<StreamEntry>,
                            cam2drm: map<BufferId, DrmFb>, m0: map<BufferId, DrmFb>)
  {
    exists k :: 0 <= k < |all| && !Ready(all[k], planes, k) && AllReady(all[..k], planes) &&
                streams == Entries(all[..k], planes) && cam2drm == FbMap(m0, all[..k])
  }

  /** A stop inside context `i` is a stop of the whole walk. */
  lemma ContextStopped(cs: seq<CameraContext>, i: nat, j: nat, planes: seq<Option<PlaneId>>, streams: seq<StreamEntry>,
                       cam2drm: map<BufferId, DrmFb>, m0: map<BufferId, DrmFb>)
    requires i < |cs| && j < |cs[i].streams|
    requires !Ready(cs[i].streams[j], planes, |Flatten(cs[..i])| + j)
    requires AllReady(Flatten(cs[..i]) + cs[i].streams[..j], planes)
    requires streams == Entries(Flatten(cs[..i]) + cs[i].streams[..j], planes)
    requires cam2drm == FbMap(m0, Flatten(cs[..i]) + cs[i].streams[..j])
    ensures StoppedAt(Flatten(cs), planes, streams, cam2drm, m0)
  {
    NextStream(cs, i, j);
    var all := Flatten(cs);
    var k := |Flatten(cs[..i])| + j;
    assert all[..k] == Flatten(cs[..i]) + cs[i].streams[..j];
    assert !Ready(all[k], planes, k);
  }

  /** The renderer object. */
  class KMSRenderer {
    const contexts: seq<CameraContext>
    /** The display mode's size. */
    const hdisplay: int
    const vdisplay: int

    var streams: seq<StreamEntry>
    var cam2drm: map<BufferId, DrmFb>
    var current: Option<DrmReq>
    var next: Option<DrmReq>
    var bufqueue: seq<DrmReq>
    /** Requests applied to the display, and reported processed, in order. */
    var applied: seq<DrmReq>
    var processed: seq<DrmReq>

    /** Every request queued so far. */
    ghost var queued: seq<DrmReq>

    function State(): Schedule
      reads this
    {
      Schedule(current, next, bufqueue, applied, processed)
    }

    ghost predicate Valid()
      reads this
    {
      ScheduleInvariant(State(), queued)
    }

    constructor (contexts: seq<CameraContext>, hdisplay: int, vdisplay: int)
      ensures Valid()
      ensures this.contexts == contexts && this.hdisplay == hdisplay && this.vdisplay == vdisplay
      ensures State() == Schedule(None, None, [], [], []) && cam2drm == map[] && queued == []
    {
      this.contexts := contexts;
      this.hdisplay := hdisplay;
      this.vdisplay := vdisplay;
      streams := [];
      cam2drm := map[];
      current := None;
      next := None;
      bufqueue := [];
      applied := [];
      processed := [];
      queued := [];
    }

    method Queue(d: DrmReq)
      requires Valid()
      modifies this`next, this`bufqueue, this`applied, this`queued
      ensures Valid()
      ensures State() == QueueStep(old(State()), d)
      ensures queued == old(queued) + [d]
    {
      QueueKeepsInvariant(State(), queued, d);
      if next.None? {
        next := Some(d);
        applied := applied + [d];
      } else {
        bufqueue := bufqueue + [d];
      }
      queued := queued + [d];
    }

    method HandlePageFlip()
      requires Valid()
      modifies this`current, this`next, this`bufqueue, this`applied, this`processed
      ensures Valid()
      ensures State() == PageFlipStep(old(State()))
    {
      PageFlipKeepsInvariant(State(), queued);
      var old_ := current;
      current := next;
      if |bufqueue| > 0 {
        next := Some(bufqueue[0]);
        bufqueue := bufqueue[1..];
      } else {
        next := None;
      }
      if next.Some? {
        applied := applied + [next.value];
      }
      if old_.Some? {
        processed := processed + [old_.value];
      }
    }

    /** `request_handler`: wrap the completed request and queue it. */
    method RequestHandler(ctx: nat, req: RequestId)
      requires Valid()
      modifies this`next, this`bufqueue, this`applied, this`queued
      ensures Valid()
      ensures State() == QueueStep(old(State()), DrmReq(ctx, req))
      ensures queued == old(queued) + [DrmReq(ctx, req)]
    {
      Queue(DrmReq(ctx, req));
    }

    /** `setup`: walk the streams of every context in order, numbering them
        0, 1, 2, ...; each gets a plane (`planes[k]` for the `k`-th, None
        when none is left) and every buffer of it a framebuffer. An unknown
        format or a missing plane stops the walk with the streams before it
        set up. */
    method Setup(planes: seq<Option<PlaneId>>) returns (ok: bool)
      modifies this`streams, this`cam2drm
      ensures var all := Flatten(contexts);
        ok <==> AllReady(all, planes)
      ensures var all := Flatten(contexts);
        ok ==> streams == Entries(all, planes) && cam2drm == FbMap(old(cam2drm), all)
      ensures !ok ==> StoppedAt(Flatten(contexts), planes, streams, cam2drm, old(cam2drm))
    {
      ghost var m0 := cam2drm;
      streams := [];
      var idx: nat := 0;
      for i := 0 to |contexts|
        invariant idx == |Flatten(contexts[..i])|
        invariant AllReady(Flatten(contexts[..i]), planes)
        invariant streams == Entries(Flatten(contexts[..i]), planes)
        invariant cam2drm == FbMap(m0, Flatten(contexts[..i]))
      {
        ghost var done := Flatten(contexts[..i]);
        var ctxOk, idx', j := SetupContext(contexts[i], idx, planes, done, m0);
        if !ctxOk {
          ContextStopped(contexts, i, j, planes, streams, cam2drm, m0);
          return false;
        }
        NextContext(contexts, i);
        assert Flatten(contexts[..i + 1]) == done + contexts[i].streams[..j];
        idx := idx';
      }
      assert contexts[..|contexts|] == contexts;
      return true;
    }

    /** The inner loop of `setup` over the streams of one context `ctx`,
        numbering them from `start` on, after the streams `done`. */
    method SetupContext(ctx: CameraContext, start: nat, planes: seq<Option<PlaneId>>,
                        ghost done: seq<StreamConfig>, ghost m0: map<BufferId, DrmFb>)
      returns (ok: bool, idx: nat, ghost n: nat)
      requires |done| == start && AllReady(done, planes)
      requires streams == Entries(done, planes) && cam2drm == FbMap(m0, done)
      modifies this`streams, this`cam2drm
      ensures n <= |ctx.streams| && idx == start + n && (ok <==> n == |ctx.streams|)
      ensures !ok ==> !Ready(ctx.streams[n], planes, start + n)
      ensures AllReady(done + ctx.streams[..n], planes)
      ensures streams == Entries(done + ctx.streams[..n], planes)
      ensures cam2drm == FbMap(m0, done + ctx.streams[..n])
    {
      idx := start;
      assert done + ctx.streams[..0] == done;
      for j := 0 to |ctx.streams|
        invariant idx == start + j
        invariant AllReady(done + ctx.streams[..j], planes)
        invariant streams == Entries(done + ctx.streams[..j], planes)
        invariant cam2drm == FbMap(m0, done + ctx.streams[..j])
      {
        var cfg := ctx.streams[j];
        var fmt := FmtMap(cfg.fmt);
        var plane := PlaneFor(planes, idx);
        if fmt.None? || plane.None? {
          return false, idx, j;
        }
        SetupStep(done, ctx.streams, j, planes, m0);
        streams := streams + [StreamEntry(idx, cfg.stream, plane.value, fmt.value, cfg.width, cfg.height)];
        MapBuffers(cfg, fmt.value);
        idx := idx + 1;
      }
      return true, idx, |ctx.streams|;
    }

    /** The innermost loop of `setup`: one framebuffer per buffer of `cfg`. */
    method MapBuffers(cfg: StreamConfig, fmt: PixelFormat)
      requires FmtMap(cfg.fmt) == Some(fmt)
      modifies this`cam2drm
      ensures cam2drm == BufMap(old(cam2drm), cfg, cfg.buffers)
    {
      for b := 0 to |cfg.buffers|
        invariant cam2drm == BufMap(old(cam2drm), cfg, cfg.buffers[..b])
      {
        assert cfg.buffers[..b + 1][..b] == cfg.buffers[..b];
        cam2drm := cam2drm[cfg.buffers[b] := DrmFb(cfg.width, cfg.height, fmt, cfg.buffers[b], cfg.stride)];
      }
      assert cfg.buffers[..|cfg.buffers|] == cfg.buffers;
    }
  }
}
