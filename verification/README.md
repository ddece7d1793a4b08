# Open Image Denoise core: image geometry and the public C boundary

This project models two parts of Open Image Denoise (OIDN) and proves
properties about them:

- **Images.** `ImageDesc` validates an image's dimensions and works out its
  pixel and row byte strides. The `Image` constructors then check that the
  view fits its backing: caller-owned memory, a region of a buffer, or a
  buffer the engine allocates. `updatePtr` re-derives the data pointer after
  the buffer's storage moves. `overlaps` tests two images for aliasing. The
  conversion to the CPU kernels' image accessor maps the data type to a tag.
- **The public C interface.** It covers handle checks and the `OIDN_CATCH`
  translation of exceptions into latched `(code, message)` errors. Those
  errors go to the object's device, or to the global slot when there is no
  object. It also covers the intrusive retain/release protocol, device
  creation and backend selection, buffer creation and external memory
  import, binding an image to a filter, the error query, and SYCL execution
  with dependent and done events.

Modules:
- `Common`: error codes and the C integer conversions.
- `Errors`: thrown failures, `Result` and the catch chain.
- `Objects`: the reference count, devices and buffers.
- `Images`: formats, descriptors and the `Image` class.
- `Api`: the runtime with its global error slot, filters and every entry point.

Pointers are natural-number addresses, and 0 is null. Calls into code outside
the model are recorded in order in a ghost trace of the runtime. These are
taking the device lock, waiting, destroying, the engine's buffer calls,
`Filter::setImage` and `Filter::execute`.

Some of that code can throw, and each exception it may throw is an input of
type `Option<Failure>`. This covers the backend constructors, the engine's
buffer calls, `Filter::setImage`, `Filter::execute` and `Device::getError`.
Taking the lock, waiting and destroying are assumed not to throw.

The values such calls return are parameters too: the engine's address for a
new allocation, the support probes of the GPU backends, the device's
supported external memory types and its done events.

Several helpers live in headers that are not part of this model. They are
given these definitions:
- `maxDim` = 65536.
- `getByteSize()` = height × row stride.
- `getFormatSize` = channels × data-type size, and `getC()` = channels.
- `begin()`/`end()` = `ptr` and `ptr + getByteSize()`.
- `decRefKeep` returns the count after decrementing.
- `checkCommitted` throws InvalidOperation "changes to the device are not committed".
- `Device::setError` overwrites the slot.
- `Device::getError` returns the slot's code and message and clears the slot.
- The OIDNDeviceType values: DEFAULT 0, CPU 1, SYCL 2, CUDA 3, HIP 4.

Four consequences of the code that a caller might not expect:
- Releasing a null handle is not a silent no-op. `releaseObject` runs
  `checkHandle` on null (core/api.cpp:84-87), so it records InvalidArgument
  "invalid handle" in the global slot.
- An uncommitted device reports InvalidOperation, a state error, and not an
  argument error. This rests on the assumed `checkCommitted` above.
- Images over caller memory can alias each other. `overlaps` compares the
  buffers first (core/image.cpp:128). Two buffer-less images both have a null
  buffer, so they pass that test, and they overlap whenever their byte ranges
  intersect (core/image.cpp:122-138; Images.OverlapsWithoutBuffer).
- A buffer-backed image holds a reference to its buffer
  (core/image.cpp:49-50, 59-60). A buffer bound to a filter therefore outlives
  the caller's last release.

## Model

| member | source | states |
|---|---|---|
| Common.ToInt32 | core/image.cpp:104-105 | `int(n)` gives a value in the 32-bit range, equal to n whenever n < 2^31 |
| Common.ToSize | core/api.cpp:489 | converting an int back to size_t yields a value below 2^64, unchanged for values already in range |
| Common.ThroughIntKeepsSmall | core/api.cpp:489 | a width or height below 2^31 survives the `(int)` cast and the conversion back unchanged |
| Common.ThroughIntTruncates | core/api.cpp:489 | larger values lose their high bits: 2^32+4 becomes 4, and 2^31 becomes 2^64 − 2^31 |
| Errors.CheckHandle | core/api.cpp:60-64 | fails exactly for a null handle, with InvalidArgument "invalid handle" |
| Errors.TranslateKeepsException | core/api.cpp:27-28 | a library exception is recorded with its own code and message |
| Errors.TranslateOutOfMemory | core/api.cpp:16-30 | OutOfMemory is recorded exactly for bad_alloc, a DNNL out-of-memory error in a DNNL build, or a library exception carrying that code |
| Errors.TranslateForeignCodes | core/api.cpp:16-36 | other failures become Unknown or OutOfMemory: a std::exception keeps its `what()`, a non-OOM DNNL error keeps its message, anything else gives "unknown exception caught" |
| Errors.Query | core/api.cpp:252 | the error query leaves the slot holding no error |
| Errors.QueryClears | core/api.cpp:252 | a second query right after a first one reports NoError |
| Objects.RefCount.IncRef | core/api.cpp:69-72 | the count grows by exactly one |
| Objects.RefCount.DecRefKeep | core/api.cpp:84 | the count drops by one and the value returned is the new count |
| Objects.ReleasesDown | core/api.cpp:82-93 | n releases from count c+n leave count c and destroy nothing |
| Objects.BalancedKeepsAlive | core/api.cpp:66-93 | retaining n times and then releasing n times returns to the original count without destroying the object |
| Objects.BalancedFrom | core/api.cpp:66-93 | the induction behind BalancedKeepsAlive: k retains then n releases from count c+n−k end at c |
| Objects.OneReleaseTooMany | core/api.cpp:82-93 | one release more than the retains destroys the object |
| Objects.RunOpsAppend | core/api.cpp:66-93 | running two sequences of retains and releases one after the other is running their concatenation |
| Images.PixelStride | core/image.cpp:16-24 | stride 0 means the pixel size; a nonzero stride below the pixel size fails with "pixel stride smaller than pixel size"; otherwise the given stride, which is never below the pixel size |
| Images.RowStride | core/image.cpp:26-33 | stride 0 means width × pixel stride; a nonzero stride below that fails; otherwise the given stride, which is never below width × pixel stride |
| Images.NewImageDesc | core/image.cpp:8-34 | succeeds exactly when the size is not too large and both strides are accepted; "image size too large" when a dimension exceeds 65536 or width·height·channels exceeds INT_MAX; every failure is InvalidArgument; the result keeps the inputs and satisfies the stride invariants |
| Images.DefaultStridesArePacked | core/image.cpp:16-33 | with both strides defaulted, the image spans exactly width·height pixels |
| Images.BufferView | core/image.cpp:53-56 | a buffer-backed view exists exactly when offset + byte size fits the buffer, starts at data + offset and lies inside the buffer |
| Images.BufferViewAsWritten | core/image.cpp:53-56 | the same check with both sums wrapping at 2^64 (see Findings) |
| Images.RegionCheckWraps | core/image.cpp:53-56 | a 16-byte image at offset 2^64−8 in a 100-byte buffer passes the wrapping check and starts before the buffer, while BufferView rejects it |
| Images.RowStrideAsWritten | core/image.cpp:28-33 | the row-stride check with `width * wByteStride` wrapping at 2^64 (see Findings) |
| Images.RowStrideCheckWraps | core/image.cpp:28-33 | width 2 with pixel stride 2^63 accepts a 1-byte row stride under the wrapping check, while RowStride rejects it |
| Images.PointerView | core/image.cpp:43-46 | a null pointer is refused exactly when offset + byte size is nonzero; otherwise the view starts at ptr + offset |
| Images.Image.UpdatePtr | core/image.cpp:111-120 | without a buffer nothing changes; if the region no longer fits, a range error leaves ptr unchanged; otherwise ptr becomes data + offset, inside the buffer, and a second update changes nothing |
| Images.Image.ToAccessor | core/image.cpp:77-108 | copies the pointer and strides; W and H are `int(width)` and `int(height)`; Undefined gives the Float32 tag; each data type maps to the tag of the same size; only the void type fails, with a logic error |
| Images.AccessorKeepsDimensions | core/image.cpp:104-105 | for a validated image the accessor's W and H equal the width and height |
| Images.OverlapsSymmetric | core/image.cpp:122-138 | a overlaps b exactly when b overlaps a |
| Images.OverlapsNeedsSameBuffer | core/image.cpp:124-129 | overlapping images both have a non-null pointer and the same buffer |
| Images.OverlapsWithoutBuffer | core/image.cpp:124-137 | two buffer-less images with non-null pointers overlap exactly when their byte intervals intersect, since both null buffers count as the same |
| Images.AdjacentImagesDoNotOverlap | core/image.cpp:137 | an image ending where another begins does not overlap it, in either order |
| Images.OverlapsIffSharedByte | core/image.cpp:131-137 | on one buffer, a shared byte means overlap, and overlap of two non-empty images means a shared byte |
| Images.IntervalExamples | core/image.cpp:137 | [0,100) and [50,150) intersect; [0,100) and [100,200) do not |
| Images.NewEmptyImage | core/image.cpp:36-38 | an undefined 0×0 image with no buffer and a null pointer |
| Images.NewPointerImage | core/image.cpp:40-47 | descriptor failures pass through; a null pointer with a nonempty region fails with "buffer region out of range"; otherwise ptr = base + offset, with no buffer and a stored offset of 0 |
| Images.NewBufferImage | core/image.cpp:49-57 | fails exactly when the region does not fit the buffer; otherwise ptr = data + offset, and the pointer is already what updatePtr would compute; the buffer gains one reference exactly when construction succeeds |
| Images.NewBufferImageWithFormat | core/image.cpp:59-67 | descriptor failures first, then the region check, then ptr = data + offset; the buffer gains one reference exactly when construction succeeds |
| Images.NewAllocatedImage | core/image.cpp:69-74 | the engine allocates first, so its failure wins; then the size check; on success a fresh device-storage buffer of exactly width·height pixels, which the image fills from offset 0 and whose only reference the image holds |
| Api.Catch | core/api.cpp:26-36 | the translated error goes to the device when there is one and leaves the global slot alone; otherwise it goes to the global slot |
| Api.RetainObject | core/api.cpp:66-79 | a live object gains exactly one reference, the step `Retain` of the protocol RunOps; null records "invalid handle" globally |
| Api.ReleaseObject | core/api.cpp:81-93 | drops one reference; only when it reaches zero are lock, wait and destroy recorded, in that order; the object is destroyed at most once, and exactly when the step `Release` of the protocol RunOps ends the object; null records "invalid handle" globally |
| Api.ReleaseDevice | core/api.cpp:95-107 | as ReleaseObject, but the last release records wait then destroy and never takes the device lock |
| Api.RetainDevice | core/api.cpp:184-188 | oidnRetainDevice adds one reference, or records "invalid handle" |
| Api.RetainBuffer | core/api.cpp:355-359 | oidnRetainBuffer adds one reference, or records "invalid handle" |
| Api.ReleaseBuffer | core/api.cpp:361-365 | oidnReleaseBuffer drops one reference and leaves the global slot alone; the last release locks and drains the buffer's device, then destroys the buffer; null records "invalid handle" |
| Api.RetainFilter | core/api.cpp:463-467 | oidnRetainFilter adds one reference, or records "invalid handle" |
| Api.ReleaseFilter | core/api.cpp:469-473 | oidnReleaseFilter drops one reference and leaves the global slot alone; the last release locks and drains the filter's device, then destroys the filter; null records "invalid handle" |
| Api.SelectBackendIsFirstEligible | core/api.cpp:110-137 | the chosen backend is compiled in and requested (or, for DEFAULT, supported), and no backend earlier in CUDA, HIP, SYCL, CPU order qualifies; no backend is chosen exactly when none qualifies |
| Api.ExplicitRequestSelectsIt | core/api.cpp:110-137 | an explicit type yields that backend if it is compiled in, and no device otherwise |
| Api.DefaultFallsBackToCpu | core/api.cpp:128-131 | with the CPU backend built, DEFAULT always yields a device, and the CPU when no GPU backend reports support |
| Api.DeviceTypeOf | core/api.cpp:110 | the integers 0 to 4 name the five device types; any other integer is OtherType, carrying that integer |
| Api.OtherTypeUnsupported | core/api.cpp:133-134 | an integer outside the enumeration never yields a device |
| Api.MakeDevice | core/api.cpp:110-182 | a rejected stream or queue count, or a throwing backend constructor, records the error globally and returns null; otherwise a fresh, uncommitted device with one reference and no error |
| Api.NewDevice | core/api.cpp:110-137 | the integer type code is read as an OIDNDeviceType; no eligible backend gives "unsupported device type" in the global slot and null; a throwing constructor gives its translated failure there and null; otherwise a fresh, uncommitted, error-free device of the selected backend with one reference and the given external memory types |
| Api.SelectStreams | core/api.cpp:157-162 | accepts exactly 0 or 1 streams, yielding none or the given one; any other count gives "unsupported number of streams" |
| Api.SelectQueues | core/api.cpp:144-146 | accepts exactly non-negative counts, yielding the first numQueues queues; a negative count gives "invalid number of queues" |
| Api.NewCUDADevice | core/api.cpp:152-166 | returns null exactly for a bad stream count or a throwing constructor; the count error or the constructor's translated failure goes to the global slot; otherwise a CUDA device on the selected stream: fresh, uncommitted, one reference, no error, global slot untouched |
| Api.NewHIPDevice | core/api.cpp:168-182 | returns null exactly for a bad stream count or a throwing constructor; the count error or the constructor's translated failure goes to the global slot; otherwise a HIP device on the selected stream: fresh, uncommitted, one reference, no error, global slot untouched |
| Api.NewSYCLDevice | core/api.cpp:139-150 | returns null exactly for a negative queue count or a throwing constructor; the count error or the constructor's translated failure goes to the global slot; otherwise a SYCL device on the first numQueues queues: fresh, uncommitted, one reference, no error, global slot untouched |
| Api.GetDeviceError | core/api.cpp:248-256 | returns the device's (or, for null, the global) code, writes its message only through a non-null out pointer, and clears that slot, touching nothing else of the device and, for a device, not the global slot; if the query throws, its translated failure is recorded the same way, the message is "" and the code Unknown |
| Api.MemoryTypeCheck | core/api.cpp:326-327 | the import is refused exactly when the flag shares no bit with the device's supported external memory types |
| Api.Win32ImportCheck | core/api.cpp:344-347 | accepted exactly for a supported flag with exactly one of handle and name non-null; the flag is checked first |
| Api.Win32NeedsExactlyOne | core/api.cpp:346-347 | both null, or both non-null, is always refused |
| Api.CreateBuffer | core/api.cpp:278-353 | handle check first (global error); then the device lock; an uncommitted device fails before any argument check or engine call; the engine is called only when every check passed; on success a fresh buffer with one reference on that device |
| Api.NewBuffer | core/api.cpp:278-289 | null device: global "invalid handle"; uncommitted device: InvalidOperation and no engine call; otherwise a host allocation is requested, and an engine failure is recorded on the device, while success gives a fresh buffer with one reference; the global slot is untouched for a device |
| Api.NewBufferWithStorage | core/api.cpp:291-302 | as NewBuffer with the requested storage kind |
| Api.NewSharedBuffer | core/api.cpp:304-315 | as NewBuffer, wrapping caller memory at devPtr |
| Api.NewSharedBufferFromFD | core/api.cpp:317-333 | as NewBuffer, but the engine import happens exactly for a committed device supporting the flag; an unsupported flag fails with "external memory type not supported by the device"; engine failure and success as for NewBuffer |
| Api.NewSharedBufferFromWin32Handle | core/api.cpp:335-353 | as NewSharedBufferFromFD, but the import also needs exactly one of handle and name; each failed check records its own message in source order; engine failure and success as for NewBuffer |
| Api.SetFilterImage | core/api.cpp:475-492 | null filter goes to the global slot; null buffer goes to the filter's device; buffers of another device are refused with "the specified objects are bound to different devices"; width and height pass through `(int)`; the filter receives the image only when the descriptor is valid and the region fits; the buffer gains one reference exactly when the filter keeps the image; a throwing setImage is recorded on the device |
| Api.SetSharedFilterImage | core/api.cpp:494-507 | as SetFilterImage over caller memory: the filter receives a buffer-less image at devPtr + offset only when the descriptor is valid and the pointer check passes; a throwing setImage is recorded on the device |
| Api.CastTruncatesWidth | core/api.cpp:489 | a width of 2^32+4 reaches the image constructor as 4 |
| Api.DoneEvent | core/api.cpp:680-688 | one done event is handed out, none gives an empty event, and more than one is a logic error "missing barrier after filter kernels" |
| Api.MissingBarrierIsUnknown | core/api.cpp:687 | the missing-barrier error is recorded as Unknown with its message |
| Api.ExecuteSYCLFilterAsync | core/api.cpp:654-690 | a negative event count fails before the lock; a non-SYCL device fails after it; otherwise the device gets the first numDepEvents events, the filter executes, and the done event is written only when asked for; the device's dependent events change only on that path, and its committed state never does |

## Left out

- Locking is recorded only as a `Lock` event; mutual exclusion and concurrency are not modelled.
- Asynchronous execution is not modelled. `Device::wait`, `SyncMode::Async` and SYCL events are trace events or opaque tokens.
- `wait()` and `destroy()` are assumed not to throw. The model records no error for them.
- Buffer mapping, reading and writing are not part of this model. Neither are the device and filter parameter setters and getters, commit, sync, the error callback, filter removal and the shared filter data. Only the entry points named above are modelled.
- `oidnNewFilter`, `oidnExecuteFilter` and `oidnExecuteFilterAsync` are not part of this model. Filters are created directly with one reference.
- The benign default results of the getters (0 or false) are not modelled, because the getters are not.
- core/cuda/cuda_external_buffer.h is not part of this model. It declares a foreign CUDA import with no visible logic.
- The engine, the backends and `Filter::setImage` are not modelled. Their exceptions are `Option<Failure>` inputs, and their results are parameters.
- Api.SetFilterImage: an image the filter already held under the same name is released inside `Filter::setImage`. That release, and its effect on the old image's buffer, is not modelled.
- Images.BufferView: the region check is exact here. The code's size_t sum wraps; see "## Findings".
- Images.RowStride: the minimum row stride is exact here. The code's size_t product wraps; see "## Findings".
- Images.PointerView: `byteOffset + getByteSize() > 0` (core/image.cpp:43) is exact here. In size_t the sum can wrap to 0, which would let a null pointer through with a huge offset.
- Images.NewAllocatedImage: the allocation size `width * height * getFormatSize(format)` (core/image.cpp:70) is exact here. In size_t it can wrap, so a buffer of the wrapped size is requested before the descriptor's size check throws "image size too large".
- Api.NewDevice: the device's supported external memory types are a parameter. The backend decides them in code outside this model.
- Api.ReleaseFilter: the references a filter's images hold on their buffers are never released. Destroying a filter therefore does not lower those buffers' counts, and a buffer bound to a filter is never destroyed in the model, although the code releases it with the filter's images. The filter's image table is in code outside this model.
- Api.CreateBuffer: the reference a buffer holds on its device is not modelled, and neither is the one a filter holds. Api.ReleaseDevice can therefore destroy a device that still owns live buffers or filters, and a later release of such an object locks and waits on the destroyed device. In the code those references keep the device alive until its last object is gone. The buffer and filter classes that hold them are not part of this model.
- Api.ReleaseDevice: see the line above; the device's count counts only the caller's handle references.
- Images.Image.ToAccessor: only the pointer value is copied. The float and half data behind it are not modelled.
- DNNL status codes are split only into out-of-memory and other.
- Only the reference count is modelled for filters. Filter parameters and float-valued settings are not.
- The headers that define `getByteSize`, `getFormatSize`, `getC`, `maxDim`, `begin`/`end`, `decRefKeep`, `checkCommitted`, `setError` and `getError` are not part of this model. The definitions listed above are assumed for them.

## Findings

| source | as written | input that shows it | evidently intended | confidence | as-written member | corrected member |
|---|---|---|---|---|---|---|
| core/image.cpp:53 (also :63, :115) | `byteOffset + getByteSize() > buffer->getByteSize()` is computed in size_t and wraps | a 16-byte image at byteOffset 2^64−8 in a 100-byte buffer at address 1000: the sum wraps to 8, the check passes, and ptr becomes 992, before the buffer | the region [byteOffset, byteOffset + size) lies within the buffer | not executed | Images.BufferViewAsWritten, Images.RegionCheckWraps | Images.BufferView |
| core/image.cpp:28 (also :33) | `rowByteStride < width * wByteStride` is computed in size_t and wraps | width 2, pixel stride 2^63, row stride 1: the product wraps to 0 and the 1-byte row stride is accepted | the row stride is at least width × pixel stride | not executed | Images.RowStrideAsWritten, Images.RowStrideCheckWraps | Images.RowStride |
