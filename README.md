# libcamera Python bindings: event broker, legacy binding and KMS renderer

A Dafny model of three sequential cores of libcamera's Python support, with
proofs about each.

- **`PyCameraManager`** (`src/py/libcamera`). libcamera's completion
  thread calls the `handle*` callbacks. Each callback builds one
  `CameraEvent` and pushes it onto the manager's single queue `events_`,
  then signals an eventfd. Python drains the queue in one of two ways:
  - `getPyEvents` reads the eventfd, swaps the whole queue out and converts
    it;
  - `getPyCameraEvents` erases one camera's events from the queue, keeps
    the rest in place, and converts what it took.

  Converting a request completion drops the Python reference that
  `queue_request` took on the request.

  The model treats each mutex-guarded section as one atomic step on a
  `seq`. The eventfd is its 64-bit counter, under Linux's non-blocking read
  semantics. Ghost logs of everything pushed and everything delivered carry
  the invariant: exactly-once delivery, per-camera order, global order
  while only full drains happen, no lost wake-up, and reference balance.
- **The legacy `pycamera` binding** (`src/py/pycamera/pymain.cpp`). It
  covers:
  - the globals `g_camera_manager`, `g_eventfd` and `g_reqlist`;
  - `singleton`;
  - the completion handler and `getReadyRequests`;
  - reference pairing in `queueRequest`;
  - the conditional connection of the handler in `Camera.start` and `stop`;
  - the case-insensitive `find`;
  - the two `ControlValue` switches and `Request.set_control`.
- **`KMSRenderer`** (`src/py/test/cam_kms.py`). It covers:
  - the `current`/`next`/`bufqueue` page-flip scheduler;
  - the quadrant arithmetic of `add_plane`;
  - the numbering and buffer-mapping loops of `setup`.

  Calls into `pykms` are recorded as effects: the requests applied to the
  display and the requests reported processed.

Results of system calls and of calls into libcamera are parameters of the
methods. These are the bytes a `write` wrote, the result of
`Camera::start`, the fd `eventfd` returned, and the plane that
`reserve_generic_plane` hands out.

`getPyEvents` tests the `readFd` result against positive `EAGAIN`. `readFd`
only ever returns 0 or a negated errno, so that branch can never be taken.
The model follows the code as written:
- with an empty counter, `GetPyEvents` fails with `-EAGAIN`
  (`LibcameraPy.EmptyCounterRaises`);
- the "no events" branch is unreachable
  (`LibcameraPy.NoEventsUnreachable`).

The comparison against `-EAGAIN` is stated beside it as
`PyEventsVerdictIntended`, together with what it would give
(`IntendedVerdictOnEventFd`). Nothing else in the model uses it.

Files:
- `common.dfy` (module `Common`): option and result types, identities,
  and Python reference counts.
- `camera_events.dfy` (module `CameraEvents`): the event records, the
  selection predicate, conversion, and the partition lemmas.
- `py_camera_manager.dfy` (module `LibcameraPy`): the manager class and
  its eventfd.
- `pycamera.dfy` (module `PyCamera`): the legacy globals, `Camera`, and
  `find`.
- `pycamera_controls.dfy` (module `PyControls`): the control conversions
  and `set_control`.
- `cam_kms.dfy` (module `CamKms`): the renderer.

## Model

| member | source | states |
|---|---|---|
| Common.IncRef | src/py/pycamera/pymain.cpp:219-221 | `inc_ref` raises the count of that request by one; no other count moves |
| Common.DecRef | src/py/pycamera/pymain.cpp:146-148 | `dec_ref` lowers the count of that request by one; no other count moves |
| Common.IncDecCancel | src/py/pycamera/pymain.cpp:221-225 | raising and then lowering a live request's count restores the table exactly |
| Common.DecRefAllCount | src/py/pycamera/pymain.cpp:145-149 | one decrement per handed-back request lowers each count by the number of times that request occurs, and no other count |
| Common.IncRefAllCount | src/py/pycamera/pymain.cpp:218-228 | one increment per queued request raises each count by the number of times that request occurs |
| Common.RefBalance | src/py/pycamera/pymain.cpp:145-149 | after a set of queued requests is handed back exactly once each, in any order, every count is back at its start value |
| CameraEvents.NewPyCameraEvent | src/py/libcamera/py_camera_manager.h:46-56 | the Python event constructor sets type and camera, and leaves request and framebuffer empty |
| CameraEvents.IsCameraSpecificEvent | src/py/libcamera/py_camera_manager.cpp:133-139 | selected iff the camera matches and the kind is neither CameraAdded nor CameraRemoved |
| CameraEvents.Converted | src/py/libcamera/py_camera_manager.cpp:80-101 | the Python event keeps kind and camera; BufferCompleted also carries request and framebuffer, RequestCompleted the request only, the other kinds nothing more |
| CameraEvents.ConvertedKeepsPayload | src/py/libcamera/py_camera_manager.cpp:82-101 | for every event shaped as a producer builds it, the Python event carries exactly its request and framebuffer |
| CameraEvents.Released | src/py/libcamera/py_camera_manager.cpp:94-98 | a reference is dropped iff the event is a request completion naming a request, and it is that request's reference |
| CameraEvents.CompletionsCount | src/py/libcamera/py_camera_manager.cpp:94-100 | converting a batch drops, for each request, as many references as the batch has completions of that request |
| CameraEvents.CameraEventsOf | src/py/libcamera/py_camera_manager.cpp:154-162 | every event a per-camera drain takes is specific to that camera |
| CameraEvents.OtherEvents | src/py/libcamera/py_camera_manager.cpp:154-162 | no event a per-camera drain leaves queued is specific to that camera |
| CameraEvents.ExtractionStep | src/py/libcamera/py_camera_manager.cpp:155-161 | each further queue element joins either the taken list or the remaining list, never both |
| CameraEvents.ExtractionLoopStep | src/py/libcamera/py_camera_manager.cpp:154-162 | erasing a selected element at the iterator, or stepping over one that is not selected, extends the partition by one element |
| CameraEvents.InterleavingMultiset | src/py/libcamera/py_camera_manager.cpp:141-165 | an order-preserving merge of two lists holds each element of both exactly once |
| CameraEvents.ExtractionInterleaves | src/py/libcamera/py_camera_manager.cpp:141-165 | the queue is an order-preserving merge of what a per-camera drain returns and what it leaves, so both keep their relative order |
| CameraEvents.ExtractionMultiset | src/py/libcamera/py_camera_manager.cpp:141-165 | the returned and the remaining events together are the original queue, as a multiset and in length |
| CameraEvents.ExtractionPartitions | src/py/libcamera/py_camera_manager.cpp:141-165 | each event is returned as often as it was queued when it is camera-specific, and otherwise it stays queued just as often |
| CameraEvents.HotplugEventsStayQueued | src/py/libcamera/py_camera_manager.cpp:133-139 | a per-camera drain never takes a CameraAdded or CameraRemoved event, and it leaves every such event queued |
| CameraEvents.CameraEventsOfAppend | src/py/libcamera/py_camera_manager.cpp:249-256 | the camera's events of an appended queue are those of each part, in order |
| CameraEvents.CameraEventsOfRemaining | src/py/libcamera/py_camera_manager.cpp:154-162 | a drain for one camera leaves every event of another camera queued, and none of its own |
| CameraEvents.CameraEventsOfTaken | src/py/libcamera/py_camera_manager.cpp:154-162 | a drain for one camera returns all of its own events and none of another camera's |
| CameraEvents.CompletionsAppend | src/py/libcamera/py_camera_manager.cpp:169-174 | converting two batches one after the other releases the references of each batch, in order |
| LibcameraPy.ReadFdResult | src/py/libcamera/py_camera_manager.cpp:235-247 | the result is 0 iff 8 bytes were read, -errno on a failed read, -EIO on a short read, and never positive |
| LibcameraPy.EventFdRead | src/py/libcamera/py_camera_manager.cpp:28-28 | the non-blocking eventfd yields 8 bytes iff its counter is non-zero; an empty counter makes it fail with -1 and errno EAGAIN (positive 11) |
| LibcameraPy.CounterAfterWrite | src/py/libcamera/py_camera_manager.cpp:222-233 | the counter goes up by one iff the write is not fatal, and a fatal write leaves it unchanged |
| LibcameraPy.PyEventsVerdict | src/py/libcamera/py_camera_manager.cpp:108-118 | as written, `getPyEvents` gives no events iff `readFd` returned the positive EAGAIN, drains iff it returned 0, and raises with the returned code for every other value |
| LibcameraPy.NoEventsUnreachable | src/py/libcamera/py_camera_manager.cpp:106-116 | whatever `read` returned, the "No events" branch is never taken |
| LibcameraPy.EmptyCounterRaises | src/py/libcamera/py_camera_manager.cpp:106-116 | with nothing signalled, `getPyEvents` raises -EAGAIN instead of returning an empty list |
| LibcameraPy.PyEventsVerdictIntended | src/py/libcamera/py_camera_manager.cpp:110-116 | with the comparison against -EAGAIN: no events iff `readFd` returned -EAGAIN, drain iff it returned 0, and raise with the returned code otherwise |
| LibcameraPy.IntendedVerdictOnEventFd | src/py/libcamera/py_camera_manager.cpp:106-116 | with the comparison against -EAGAIN, an empty counter means "no events" and a signalled one means a drain |
| LibcameraPy.PushKeepsDelivery | src/py/libcamera/py_camera_manager.cpp:249-256 | a push keeps exactly-once accounting and per-camera order between the pushed log, the delivered log and the queue |
| LibcameraPy.FullDrainKeepsDelivery | src/py/libcamera/py_camera_manager.cpp:261-268 | swapping the whole queue out delivers it with nothing lost or duplicated, and keeps the global push order |
| LibcameraPy.CameraDrainKeepsOwnOrder | src/py/libcamera/py_camera_manager.cpp:141-165 | after a per-camera drain, all of that camera's events have been delivered, in production order |
| LibcameraPy.CameraDrainKeepsOthersOrder | src/py/libcamera/py_camera_manager.cpp:141-165 | a per-camera drain leaves every other camera's delivered and queued events in production order |
| LibcameraPy.CameraDrainKeepsDelivery | src/py/libcamera/py_camera_manager.cpp:141-165 | a per-camera drain keeps exactly-once accounting and per-camera order; the global order across cameras is given up |
| LibcameraPy.DeliveryKeepsRefs | src/py/libcamera/py_camera_manager.cpp:94-98 | converting delivered events keeps every count equal to its start value minus the completions of that request delivered so far |
| LibcameraPy.RemainingWellFormed | src/py/libcamera/py_camera_manager.cpp:154-162 | every event a per-camera drain leaves queued keeps the shape its producer gave it |
| LibcameraPy.PushKeepsInvariant | src/py/libcamera/py_camera_manager.cpp:249-256 | a push, followed by a full or a short eventfd write, keeps the manager invariant, including no lost wake-up while the process runs |
| LibcameraPy.FullDrainKeepsInvariant | src/py/libcamera/py_camera_manager.cpp:106-131 | reading the counter, draining everything and converting it keeps the invariant |
| LibcameraPy.CameraDrainKeepsInvariant | src/py/libcamera/py_camera_manager.cpp:141-180 | a per-camera drain with its conversion keeps the invariant and leaves the wake counter untouched |
| LibcameraPy.PyCameraManager.constructor | src/py/libcamera/py_camera_manager.h:80-88 | the queue is empty, the counter is 0, `bufferCompletedEventActive_` is false, nothing has been pushed or delivered, the starting reference counts are recorded, and the invariant holds |
| LibcameraPy.PyCameraManager.WriteFd | src/py/libcamera/py_camera_manager.cpp:222-233 | a full write adds one to the counter; anything else is fatal |
| LibcameraPy.PyCameraManager.ReadFd | src/py/libcamera/py_camera_manager.cpp:235-247 | returns 0 iff the counter was non-zero, otherwise -EAGAIN; the read resets the counter |
| LibcameraPy.PyCameraManager.PushEvent | src/py/libcamera/py_camera_manager.cpp:249-256 | appends the event at the end, leaves earlier events unchanged, signals once, and keeps the invariant |
| LibcameraPy.PyCameraManager.GetEvents | src/py/libcamera/py_camera_manager.cpp:261-268 | returns exactly the queued events in push order, leaves the queue empty and delivers them |
| LibcameraPy.PyCameraManager.ConvertEvent | src/py/libcamera/py_camera_manager.cpp:70-104 | returns the converted event; only a request completion drops a reference, exactly one, of its own request |
| LibcameraPy.PyCameraManager.ConvertAll | src/py/libcamera/py_camera_manager.cpp:118-130 | converts one for one and in order, dropping one reference per request completion, and restores the invariant |
| LibcameraPy.PyCameraManager.GetPyEvents | src/py/libcamera/py_camera_manager.cpp:106-131 | with an empty counter, raises -EAGAIN and the queue is empty; otherwise it drains and converts every queued event in order, the output as long as the drained queue; the invariant is kept |
| LibcameraPy.PyCameraManager.DrainAndConvert | src/py/libcamera/py_camera_manager.cpp:118-130 | the drain of a successful `getPyEvents`: everything queued is delivered and converted in order |
| LibcameraPy.PyCameraManager.GetPyCameraEvents | src/py/libcamera/py_camera_manager.cpp:141-180 | returns the conversions of exactly the camera's events in queue order, leaves the others queued in order, drops their completions' references, and keeps the invariant |
| LibcameraPy.PyCameraManager.TakeCameraEvents | src/py/libcamera/py_camera_manager.cpp:146-165 | the locked part: the camera's events leave the queue and are delivered; the rest stay in order |
| LibcameraPy.PyCameraManager.ExtractCameraEvents | src/py/libcamera/py_camera_manager.cpp:154-162 | the erase loop returns exactly the selected events and leaves exactly the others, both in queue order |
| LibcameraPy.PyCameraManager.HandleBufferCompleted | src/py/libcamera/py_camera_manager.cpp:183-188 | pushes one BufferCompleted event carrying camera, request and framebuffer, and records it in the log of pushed events |
| LibcameraPy.PyCameraManager.HandleRequestCompleted | src/py/libcamera/py_camera_manager.cpp:191-196 | pushes one RequestCompleted event carrying camera and request, and no framebuffer, and records it in the log of pushed events |
| LibcameraPy.PyCameraManager.HandleDisconnected | src/py/libcamera/py_camera_manager.cpp:199-204 | pushes one Disconnect event carrying the camera only, and records it in the log of pushed events |
| LibcameraPy.PyCameraManager.HandleCameraAdded | src/py/libcamera/py_camera_manager.cpp:207-212 | pushes one CameraAdded event carrying the camera only, and records it in the log of pushed events |
| LibcameraPy.PyCameraManager.HandleCameraRemoved | src/py/libcamera/py_camera_manager.cpp:215-220 | pushes one CameraRemoved event carrying the camera only, and records it in the log of pushed events |
| PyCamera.CompletionKeepsInvariant | src/py/pycamera/pymain.cpp:88-97 | appending a completion keeps "handed back, then pending, equals all completions, in order" |
| PyCamera.DrainKeepsInvariant | src/py/pycamera/pymain.cpp:135-153 | handing back the whole list keeps completion order and drops one reference per handed-back request |
| PyCamera.QueueKeepsInvariant | src/py/pycamera/pymain.cpp:218-228 | a successful queue adds one reference that the books account for |
| PyCamera.BalancedWhenAllReturned | src/py/pycamera/pymain.cpp:145-149 | once every queued request has been handed back exactly once, every count is back at its start value |
| PyCamera.Bindings.constructor | src/py/pycamera/pymain.cpp:83-86 | no manager, `g_eventfd` 0, empty request list, nothing completed, returned or queued yet, the starting reference counts are recorded, and the invariant holds |
| PyCamera.Bindings.Singleton | src/py/pycamera/pymain.cpp:104-127 | returns the live manager unchanged if there is one; otherwise fails with errno when eventfd fails; when the start fails, fails with -ret and the manager has expired with `g_eventfd` -1; otherwise returns the new manager on the new fd |
| PyCamera.Bindings.ReleaseManager | src/py/pycamera/pymain.cpp:113-117 | the deleter closes the eventfd, sets `g_eventfd` to -1, and the weak global expires |
| PyCamera.Bindings.HandleRequestCompleted | src/py/pycamera/pymain.cpp:88-97 | appends the request to `g_reqlist` and signals once when the write succeeds; keeps the invariant |
| PyCamera.Bindings.GetReadyRequests | src/py/pycamera/pymain.cpp:135-153 | returns all completed requests in completion order, empties the list, drops one reference each, and keeps the invariant |
| PyCamera.Bindings.QueueRequest | src/py/pycamera/pymain.cpp:218-228 | returns the camera's result; on success there is one more reference, and on failure the counts are unchanged |
| PyCamera.AfterStart | src/py/pycamera/pymain.cpp:190-198 | after `start`, the handler is connected iff the camera started |
| PyCamera.AfterStop | src/py/pycamera/pymain.cpp:200-206 | after `stop`, the handler is disconnected when the stop succeeded, and unchanged otherwise |
| PyCamera.ConnectedOnlyAfterStart | src/py/pycamera/pymain.cpp:190-206 | a connected handler means the last successful call was a `start` |
| PyCamera.FailedRestartDisconnects | src/py/pycamera/pymain.cpp:190-198 | the converse fails: a failing `start` after a successful one disconnects the handler of the running camera |
| PyCamera.SuccessDecidesConnection | src/py/pycamera/pymain.cpp:190-206 | a successful call decides the connection whatever came before: connected iff it was a `start` |
| PyCamera.Camera.Start | src/py/pycamera/pymain.cpp:190-198 | connected iff the start succeeded; returns the camera's result; keeps connection equal to the history's |
| PyCamera.Camera.Stop | src/py/pycamera/pymain.cpp:200-206 | disconnected on success, unchanged on failure; returns the camera's result |
| PyCamera.LowerChar | src/py/pycamera/pymain.cpp:158-158 | `tolower` in the C locale: 'A'..'Z' move to lower case, and every other character is kept |
| PyCamera.Lower | src/py/pycamera/pymain.cpp:163-163 | lowering keeps the length and lowers each character |
| PyCamera.LowerIdempotent | src/py/pycamera/pymain.cpp:158-163 | lowering twice is lowering once |
| PyCamera.MatchesIgnoresCase | src/py/pycamera/pymain.cpp:157-166 | the match does not change when either side is lowered first |
| PyCamera.EmptyQueryMatches | src/py/pycamera/pymain.cpp:165-165 | an empty query matches every id |
| PyCamera.Find | src/py/pycamera/pymain.cpp:157-170 | returns the first camera in enumeration order whose lower-cased id contains the lower-cased query, or none when no camera matches |
| PyControls.ControlValueToPy | src/py/pycamera/pymain.cpp:28-58 | fails with "Unsupported ControlValue type" iff the value is of type None; a rectangle becomes (x, y, width, height) and a size (width, height) |
| PyControls.CastInt | src/py/pycamera/pymain.cpp:65-70 | an integer cast succeeds iff the object is an int within the type's range, and keeps its value |
| PyControls.PyToControlValue | src/py/pycamera/pymain.cpp:60-81 | Rectangle, Size and None fail with "Control type not implemented"; a success has the requested type and a value that type can hold |
| PyControls.ControlValueRoundTrip | src/py/pycamera/pymain.cpp:28-81 | every representable value of a settable type comes back unchanged through Python |
| PyControls.GeometryIsReadOnly | src/py/pycamera/pymain.cpp:75-79 | rectangles and sizes convert to Python but cannot be converted back |
| PyControls.IntegerCastExact | src/py/pycamera/pymain.cpp:65-70 | for an integer type, the accepted objects are exactly the ints that type can hold |
| Common.FindFirst | src/py/pycamera/pymain.cpp:380-381 | the linear search both `set_control`'s `find_if` and `add_plane`'s `next(...)` (src/py/test/cam_kms.py:53) perform: the first index whose key matches, or none exactly when no element's key matches |
| PyControls.Request.SetControl | src/py/pycamera/pymain.cpp:377-389 | fails with "Control not found" when no control has that name; otherwise stores the converted value under the first such control's id, or fails with the conversion error and leaves the list unchanged |
| CamKms.QueueStep | src/py/test/cam_kms.py:99-104 | with `next` empty, the request becomes `next` and is applied; otherwise it is appended to `bufqueue` and not applied |
| CamKms.PageFlipStep | src/py/test/cam_kms.py:80-97 | `current` takes the old `next`; `next` takes the popped head of `bufqueue`, or None, and is applied; the old `current`, if any, is reported processed once |
| CamKms.QueueKeepsInvariant | src/py/test/cam_kms.py:99-104 | `queue` keeps "`bufqueue` non-empty implies `next` set", and the accounting of queued, applied and processed requests |
| CamKms.PageFlipKeepsInvariant | src/py/test/cam_kms.py:80-97 | a page flip keeps the same invariant |
| CamKms.InQueueOrder | src/py/test/cam_kms.py:84-104 | requests are applied, and reported processed, in exactly the order they were queued |
| CamKms.FlipsKeepIdle | src/py/test/cam_kms.py:80-97 | flips with nothing pending report nothing |
| CamKms.FlipsDrainFrom | src/py/test/cam_kms.py:80-97 | enough flips report every queued request processed, in queue order |
| CamKms.FlipsDrain | src/py/test/cam_kms.py:80-97 | once queueing stops, one flip more than the number of pending requests reports each queued request processed exactly once, in queue order |
| CamKms.FmtMap | src/py/test/cam_kms.py:5-10 | a format is known iff it is one of the four names in `FMT_MAP` |
| CamKms.Entries | src/py/test/cam_kms.py:124-130 | one entry per stream that was set up |
| CamKms.BufMap | src/py/test/cam_kms.py:132-138 | mapping a stream's buffers adds exactly those buffers as keys |
| CamKms.FbMapCoversBuffers | src/py/test/cam_kms.py:132-138 | every allocated buffer of every stream is mapped in `cam_2_drm` |
| CamKms.BufMapValue | src/py/test/cam_kms.py:132-138 | a buffer maps to the framebuffer made over it, with its stream's size, format and stride |
| CamKms.SetupStep | src/py/test/cam_kms.py:115-140 | one more stream with a known format and a plane adds its own entry, with the next index, and maps its buffers |
| CamKms.ContextStopped | src/py/test/cam_kms.py:112-123 | a stream that cannot be set up stops the whole walk, with every earlier stream set up |
| CamKms.Placement | src/py/test/cam_kms.py:57-65 | x is 0 for an even index and hdisplay - width for an odd one; y is 0 when idx // 2 is 0 and vdisplay - height otherwise |
| CamKms.PlacementInDisplay | src/py/test/cam_kms.py:57-67 | a framebuffer no larger than the display is placed inside it |
| CamKms.PlacementsDisjoint | src/py/test/cam_kms.py:57-65 | two distinct indices below 4, whose widths together and heights together fit in the display, give non-overlapping rectangles |
| CamKms.PlacementRepeats | src/py/test/cam_kms.py:57-65 | for every index i from 2, index i + 2 is placed like index i, so streams from the fifth on reuse a corner |
| CamKms.AddPlane | src/py/test/cam_kms.py:52-67 | places the framebuffer on the stream's plane, at its corner and its own size; no command for an unknown stream or a missing framebuffer |
| CamKms.SetupPlacesByPosition | src/py/test/cam_kms.py:53-65 | after `setup`, a stream is placed by its position among all streams |
| CamKms.KMSRenderer.constructor | src/py/test/cam_kms.py:39-42 | empty `bufqueue`, no `current` or `next`, an empty `cam_2_drm`, and the invariant holds |
| CamKms.KMSRenderer.Queue | src/py/test/cam_kms.py:99-104 | the new state is `QueueStep` of the old one, and the invariant is kept |
| CamKms.KMSRenderer.HandlePageFlip | src/py/test/cam_kms.py:80-97 | the new state is `PageFlipStep` of the old one, and the invariant is kept |
| CamKms.KMSRenderer.RequestHandler | src/py/test/cam_kms.py:175-182 | wraps the context and the request and queues them |
| CamKms.KMSRenderer.Setup | src/py/test/cam_kms.py:108-140 | succeeds iff every stream has a known format and a plane; streams then get indices 0, 1, 2, ... across contexts in order, and every buffer is mapped; otherwise the walk stopped at the first failing stream |
| CamKms.KMSRenderer.SetupContext | src/py/test/cam_kms.py:115-140 | the streams of one context, numbered on from the running index, up to the first failing stream |
| CamKms.KMSRenderer.MapBuffers | src/py/test/cam_kms.py:132-138 | one framebuffer per buffer of the stream, over that buffer |

## Left out

- Threads, `eventsMutex_`, `g_reqlist_mutex` and the GIL. Each locked section is one atomic step, so interleavings between the completion thread and Python are not modelled.
- pybind11 glue: `py::cast`, `keep_alive_impl`, return-value policies and object lifetimes. A Python reference is one integer per request, and what happens when a count reaches zero is not modelled.
- Identities: cameras, requests, framebuffers and managers are natural numbers compared for equality (`shared_ptr` and pointer identity).
- LibcameraPy.PyCameraManager.constructor: the two throwing paths (eventfd creation fails, `CameraManager::start` fails) and the hot-plug signal connections are not modelled; it states only the initial state.
- LibcameraPy.PyCameraManager.WriteFd: does not model the eventfd counter's 64-bit ceiling, because the counter is an unbounded `nat`; a fatal write is recorded in `aborted` instead of ending the process.
- LibcameraPy.PyCameraManager.ReadFd: the eventfd read has only its two outcomes here (8 bytes, or EAGAIN). `ReadFdResult` covers every other `read` result.
- `cameras()`, `get`, `version` and `eventFd()` of the manager are pass-through accessors with no logic of their own.
- `dispatch_events` and `discard_events` are not part of this model, because their implementation is not among the sources.
- PyControls.PyToControlValue: pybind11's casts are approximated. A bool is accepted only from a Python bool, an integer type only from an int in range, and a float from a float or an int. Conversions through `__bool__`, `__index__` or numpy scalars are not modelled. In particular pybind11 accepts Python True and False for the Byte, Int32, Int64 and Float casts (bool is a subclass of int), and with conversion enabled turns None into False for the Bool cast; the model refuses both.
- PyCamera.LowerChar: works on Dafny characters (Unicode code points), while the source lowercases the bytes of a `std::string` in the C locale; the two agree on ASCII text only, and `Lower` inherits this.
- PyControls.Request.SetControl: `find_if` runs over the camera's `ControlInfoMap`, an unordered map, so which control is "first" depends on an order the source leaves undefined; the model takes the order of the given sequence. Control names are unique in practice, so the choice does not matter there.
- PyControls.ControlValueToPy: array control values are not modelled (the source only comments out its checks for them). Floats are reals, with no 32-bit rounding, and strings are not marshalled.
- The `metadata`, `controls` and `properties` properties and the remaining wrappers of `src/py/pycamera/pymain.cpp` (streams, configurations, buffers, allocator) have no logic beyond the conversions that are modelled.
- PyCamera.Camera.Start: the connection of `handle_request_completed` to libcamera's `Signal` is a boolean. How many times a slot is connected, and disconnecting one that is not connected, are not modelled.
- PyCamera.ConnectedOnlyAfterStart: the invariant "connected iff the last successful call was `start`" holds only in one direction. `FailedRestartDisconnects` is the input for which the other direction fails.
- PyCamera.Bindings.ReleaseManager: the deleter does not clear `g_reqlist`, so requests completed under an expired manager stay pending. The model keeps them, as the source does.
- The `efd` property of the legacy binding returns `g_eventfd` and nothing more.
- `KMSRenderer.__init__`'s DRM setup, `close`, `readdrm`, `readcam`, `readkey` and the `selectors` loop in `run` are I/O and are not modelled.
- `apply_request` is recorded as the request appended to `applied`. Its per-buffer loop of atomic commits is not modelled; the placement each commit uses is `AddPlane`.
- `reserve_generic_plane` is the parameter `planes`, whose `k`-th entry is the answer to the `k`-th call. The `KeyError` of `FMT_MAP` and the failed `assert` in `setup` stop the walk, leaving the state reached so far.
- `src/libcamera/pipeline/vivid/vivid.cpp` consists of stubs that return constants. The older `py/pycamera/pymain.cpp`, the `__init__.py` wrappers, `cam_qt.py` and the test and example scripts are not modelled.
