/**
 * The public C interface: handle checks, the error boundary, the
 * retain/release protocol, device creation, buffer creation and import,
 * binding an image to a filter, the latched-error query and the SYCL
 * execution with external events.
 *
 * Each entry point is a method over the library's state (a Runtime holding
 * the global error slot, plus the Device, Buffer and Filter objects).
 * Exceptions thrown by code outside this model (backend constructors, the
 * engine, the filter) are inputs of type Option<Failure>. What the model
 * observes of the calls it cannot see (locking, waiting, destroying, engine
 * calls, filter calls) is recorded, in order, in a ghost trace.
 */
module Api {
  import opened Common
  import opened Errors
  import opened Objects
  import opened Images

  /** The backends (and DNNL) compiled into the library. */
  datatype BuildConfig = BuildConfig(cuda: bool, hip: bool, sycl: bool, cpu: bool, dnnl: bool)

  /** A filter: only its reference count and its device are visible here. */
  class Filter {
    const rc: RefCount
    const device: Device

    constructor (device: Device)
      ensures fresh(rc) && rc.count == 1 && this.device == device
    {
      rc := new RefCount();
      this.device := device;
    }
  }

  /** Observable calls into code outside the model. */
  datatype Event =
    | Lock(device: Device)                                // OIDN_LOCK: the device's mutex is taken
    | Wait(device: Device)                                // Device::wait
    | Destroy(obj: RefCount)                              // RefCount::destroy
    | NewBufferCall(device: Device, origin: Origin)       // Engine::newBuffer / newExternalBuffer
    | SetImage(filter: Filter, name: string, image: Image) // Filter::setImage
    | Execute(filter: Filter)                             // Filter::execute(SyncMode::Async)

  /** The library as a whole: its build, the global error slot and the trace. */
  class Runtime {
    const build: BuildConfig
    var globalError: ErrorState
    ghost var trace: seq<Event>

    constructor (build: BuildConfig)
      ensures this.build == build && globalError == NoErrorState && trace == []
    {
      this.build := build;
      globalError := NoErrorState;
      trace := [];
    }
  }

  const InvalidHandleState := ErrorState(InvalidArgument, "invalid handle")

  /**
   * OIDN_CATCH(obj): a failure caught in an entry point is recorded on
   * obj's device, or in the global slot when there is no object.
   */
  method Catch(rt: Runtime, device: Device?, f: Failure)
    modifies rt`globalError, (if device == null then {} else {device})`error
    ensures device == null ==> rt.globalError == Translate(f, rt.build.dnnl)
    ensures device != null ==> device.error == Translate(f, rt.build.dnnl) && rt.globalError == old(rt.globalError)
    ensures device != null ==> device.committed == old(device.committed) && device.depEvents == old(device.depEvents)
  {
    if device == null {
      rt.globalError := Translate(f, rt.build.dnnl);
    } else {
      device.error := Translate(f, rt.build.dnnl);
    }
  }

  // ---------------------------------------------------------------------------
  // Retain and release

  /**
   * retainObject: a live object gains exactly one reference; a null handle
   * is an "invalid handle" error in the global slot.
   */
  method RetainObject(rt: Runtime, obj: RefCount?)
    requires obj != null ==> obj.Live()
    modifies rt`globalError, if obj == null then {} else {obj}
    ensures obj != null ==> obj.count == old(obj.count) + 1 && rt.globalError == old(rt.globalError)
    ensures obj != null ==> RunOps(old(obj.count), [Retain]) == Some(obj.count)
    ensures obj == null ==> rt.globalError == InvalidHandleState
  {
    if obj != null {
      obj.IncRef();
    } else {
      var checked := CheckHandle(obj == null);
      Catch(rt, null, checked.failure);
    }
  }

  /**
   * releaseObject: drops one reference; the release that brings the count
   * to zero locks the object's device, waits for it and destroys the object,
   * in that order. An object is destroyed at most once. A null handle is an
   * "invalid handle" error in the global slot.
   */
  method ReleaseObject(rt: Runtime, obj: RefCount?, device: Device?)
    requires (obj == null) == (device == null)
    requires obj != null ==> obj.Live() && Destroy(obj) !in rt.trace
    modifies rt, if obj == null then {} else {obj}
    ensures obj == null ==> rt.globalError == InvalidHandleState && rt.trace == old(rt.trace)
    ensures obj != null ==> obj.count == old(obj.count) - 1 && rt.globalError == old(rt.globalError)
    ensures obj != null ==>
      rt.trace == old(rt.trace) + (if obj.count == 0 then [Lock(device), Wait(device), Destroy(obj)] else [])
    ensures obj != null ==> (Destroy(obj) in rt.trace <==> obj.count == 0)
    ensures obj != null ==> (Destroy(obj) in rt.trace <==> RunOps(old(obj.count), [Release]).None?)
    ensures obj != null && obj.count > 0 ==> RunOps(old(obj.count), [Release]) == Some(obj.count)
    ensures obj != null ==> multiset(rt.trace)[Destroy(obj)] <= 1
  {
    var last := false;
    if obj != null {
      var remaining := obj.DecRefKeep();
      last := remaining == 0;
    }
    if obj == null || last {
      var checked := CheckHandle(obj == null);
      if checked.Err? {
        Catch(rt, null, checked.failure);
        return;
      }
      rt.trace := rt.trace + [Lock(device)];
      rt.trace := rt.trace + [Wait(device)];
      rt.trace := rt.trace + [Destroy(obj)];
    }
    assert multiset(old(rt.trace))[Destroy(obj)] == 0;
  }

  /**
   * releaseObject<Device>: as ReleaseObject, but the device waits on itself
   * and destroys itself without ever taking its own mutex.
   */
  method ReleaseDevice(rt: Runtime, device: Device?)
    requires device != null ==> device.rc.Live() && Destroy(device.rc) !in rt.trace
    modifies rt, if device == null then {} else {device.rc}
    ensures device == null ==> rt.globalError == InvalidHandleState && rt.trace == old(rt.trace)
    ensures device != null ==> device.rc.count == old(device.rc.count) - 1 && rt.globalError == old(rt.globalError)
    ensures device != null ==>
      rt.trace == old(rt.trace) + (if device.rc.count == 0 then [Wait(device), Destroy(device.rc)] else [])
    ensures device != null ==> Lock(device) !in rt.trace[|old(rt.trace)|..]
    ensures device != null ==> multiset(rt.trace)[Destroy(device.rc)] <= 1
  {
    var last := false;
    if device != null {
      var remaining := device.rc.DecRefKeep();
      last := remaining == 0;
    }
    if device == null || last {
      var checked := CheckHandle(device == null);
      if checked.Err? {
        Catch(rt, null, checked.failure);
        return;
      }
      rt.trace := rt.trace + [Wait(device)];
      rt.trace := rt.trace + [Destroy(device.rc)];
    }
    assert multiset(old(rt.trace))[Destroy(device.rc)] == 0;
  }

  /** oidnRetainDevice */
  method RetainDevice(rt: Runtime, device: Device?)
    requires device != null ==> device.rc.Live()
    modifies rt`globalError, if device == null then {} else {device.rc}
    ensures device != null ==> device.rc.count == old(device.rc.count) + 1 && rt.globalError == old(rt.globalError)
    ensures device == null ==> rt.globalError == InvalidHandleState
  {
    RetainObject(rt, if device == null then null else device.rc);
  }

  /** oidnRetainBuffer */
  method RetainBuffer(rt: Runtime, buffer: Buffer?)
    requires buffer != null ==> buffer.rc.Live()
    modifies rt`globalError, if buffer == null then {} else {buffer.rc}
    ensures buffer != null ==> buffer.rc.count == old(buffer.rc.count) + 1 && rt.globalError == old(rt.globalError)
    ensures buffer == null ==> rt.globalError == InvalidHandleState
  {
    RetainObject(rt, if buffer == null then null else buffer.rc);
  }

  /** oidnReleaseBuffer: the last release locks and drains the buffer's device. */
  method ReleaseBuffer(rt: Runtime, buffer: Buffer?)
    requires buffer != null ==> buffer.rc.Live() && Destroy(buffer.rc) !in rt.trace
    modifies rt, if buffer == null then {} else {buffer.rc}
    ensures buffer == null ==> rt.globalError == InvalidHandleState && rt.trace == old(rt.trace)
    ensures buffer != null ==> buffer.rc.count == old(buffer.rc.count) - 1 && rt.globalError == old(rt.globalError)
    ensures buffer != null ==>
      rt.trace == old(rt.trace) +
        (if buffer.rc.count == 0 then [Lock(buffer.device), Wait(buffer.device), Destroy(buffer.rc)] else [])
  {
    if buffer == null {
      ReleaseObject(rt, null, null);
    } else {
      ReleaseObject(rt, buffer.rc, buffer.device);
    }
  }

  /** oidnRetainFilter */
  method RetainFilter(rt: Runtime, filter: Filter?)
    requires filter != null ==> filter.rc.Live()
    modifies rt`globalError, if filter == null then {} else {filter.rc}
    ensures filter != null ==> filter.rc.count == old(filter.rc.count) + 1 && rt.globalError == old(rt.globalError)
    ensures filter == null ==> rt.globalError == InvalidHandleState
  {
    RetainObject(rt, if filter == null then null else filter.rc);
  }

  /** oidnReleaseFilter: the last release locks and drains the filter's device. */
  method ReleaseFilter(rt: Runtime, filter: Filter?)
    requires filter != null ==> filter.rc.Live() && Destroy(filter.rc) !in rt.trace
    modifies rt, if filter == null then {} else {filter.rc}
    ensures filter == null ==> rt.globalError == InvalidHandleState && rt.trace == old(rt.trace)
    ensures filter != null ==> filter.rc.count == old(filter.rc.count) - 1 && rt.globalError == old(rt.globalError)
    ensures filter != null ==>
      rt.trace == old(rt.trace) +
        (if filter.rc.count == 0 then [Lock(filter.device), Wait(filter.device), Destroy(filter.rc)] else [])
  {
    if filter == null {
      ReleaseObject(rt, null, null);
    } else {
      ReleaseObject(rt, filter.rc, filter.device);
    }
  }

  // ---------------------------------------------------------------------------
  // Device creation

  /** OIDNDeviceType; an integer naming none of the enumerators is OtherType. */
  datatype DeviceType = DefaultType | CPUType | SYCLType | CUDAType | HIPType | OtherType(code: int)

  /** An OtherType carries a code that none of the enumerators (0 to 4) uses. */
  predicate ValidDeviceType(t: DeviceType)
  {
    t.OtherType? ==> t.code < 0 || t.code > 4
  }

  /** The device type an integer passed as OIDNDeviceType stands for. */
  function DeviceTypeOf(code: int): (t: DeviceType)
    ensures ValidDeviceType(t)
    ensures t.OtherType? <==> code < 0 || code > 4
    ensures t.OtherType? ==> t.code == code
  {
    if code == 0 then DefaultType
    else if code == 1 then CPUType
    else if code == 2 then SYCLType
    else if code == 3 then CUDAType
    else if code == 4 then HIPType
    else OtherType(code)
  }

  /** The answers of CUDADevice, HIPDevice and SYCLDevice::isSupported(). */
  datatype Support = Support(cuda: bool, hip: bool, sycl: bool)

  function TypeOf(b: Backend): DeviceType
  {
    match b
    case CPU => CPUType
    case SYCL => SYCLType
    case CUDA => CUDAType
    case HIP => HIPType
  }

  function Built(build: BuildConfig, b: Backend): bool
  {
    match b
    case CPU => build.cpu
    case SYCL => build.sycl
    case CUDA => build.cuda
    case HIP => build.hip
  }

  /** The CPU is always acceptable by default; a GPU backend only when supported. */
  function SupportedByDefault(support: Support, b: Backend): bool
  {
    match b
    case CPU => true
    case SYCL => support.sycl
    case CUDA => support.cuda
    case HIP => support.hip
  }

  /** Backend b is compiled in and either requested or, for DEFAULT, supported. */
  predicate Eligible(t: DeviceType, build: BuildConfig, support: Support, b: Backend)
  {
    Built(build, b) && (t == TypeOf(b) || (t == DefaultType && SupportedByDefault(support, b)))
  }

  /** The order in which oidnNewDevice tries the backends. */
  function Rank(b: Backend): nat
  {
    match b
    case CUDA => 0
    case HIP => 1
    case SYCL => 2
    case CPU => 3
  }

  /** The backend oidnNewDevice creates, or None for "unsupported device type". */
  function SelectBackend(t: DeviceType, build: BuildConfig, support: Support): Option<Backend>
  {
    if Eligible(t, build, support, CUDA) then Some(CUDA)
    else if Eligible(t, build, support, HIP) then Some(HIP)
    else if Eligible(t, build, support, SYCL) then Some(SYCL)
    else if Eligible(t, build, support, CPU) then Some(CPU)
    else None
  }

  /** The chosen backend is eligible and no backend tried before it is. */
  lemma SelectBackendIsFirstEligible(t: DeviceType, build: BuildConfig, support: Support)
    ensures SelectBackend(t, build, support).Some? ==>
      var b := SelectBackend(t, build, support).value;
      && Eligible(t, build, support, b)
      && forall b' :: Rank(b') < Rank(b) ==> !Eligible(t, build, support, b')
    ensures SelectBackend(t, build, support).None? <==> forall b :: !Eligible(t, build, support, b)
  {
    if SelectBackend(t, build, support).None? {
      forall b ensures !Eligible(t, build, support, b) {
        match b
        case CPU =>
        case SYCL =>
        case CUDA =>
        case HIP =>
      }
    }
  }

  /** An explicit request yields exactly that backend when it is compiled in, and nothing otherwise. */
  lemma ExplicitRequestSelectsIt(b: Backend, build: BuildConfig, support: Support)
    ensures SelectBackend(TypeOf(b), build, support) ==
      if Built(build, b) then Some(b) else None
  {
  }

  /** DEFAULT always finds a device in a build with the CPU backend. */
  lemma DefaultFallsBackToCpu(build: BuildConfig, support: Support)
    requires build.cpu
    ensures SelectBackend(DefaultType, build, support).Some?
    ensures !support.cuda && !support.hip && !support.sycl ==> SelectBackend(DefaultType, build, support) == Some(CPU)
  {
  }

  /** Integers outside the enumeration are always unsupported. */
  lemma OtherTypeUnsupported(code: int, build: BuildConfig, support: Support)
    requires code < 0 || code > 4
    ensures SelectBackend(DeviceTypeOf(code), build, support).None?
  {
  }

  /**
   * Creates a device of `backend` on the streams or queues `queues` has
   * selected; a failed selection or a throwing backend constructor
   * (`fault`) records the error in the global slot and returns null.
   */
  method MakeDevice(rt: Runtime, backend: Backend, queues: Result<seq<nat>>, fault: Option<Failure>,
                    externalMemoryTypes: MemoryTypeFlags)
    returns (d: Device?)
    modifies rt`globalError
    ensures queues.Err? ==> d == null && rt.globalError == Translate(queues.failure, rt.build.dnnl)
    ensures queues.Ok? && fault.Some? ==> d == null && rt.globalError == Translate(fault.value, rt.build.dnnl)
    ensures queues.Ok? && fault.None? ==>
      && d != null && fresh(d) && fresh(d.rc) && d.rc.count == 1
      && d.backend == backend && d.queues == queues.value && d.externalMemoryTypes == externalMemoryTypes
      && !d.committed && d.error == NoErrorState
      && rt.globalError == old(rt.globalError)
  {
    if queues.Err? {
      Catch(rt, null, queues.failure);
      return null;
    }
    if fault.Some? {
      Catch(rt, null, fault.value);
      return null;
    }
    d := new Device(backend, queues.value, externalMemoryTypes);
  }

  /**
   * oidnNewDevice, called with the integer value of its OIDNDeviceType
   * argument.
   */
  method NewDevice(rt: Runtime, code: int, support: Support, fault: Option<Failure>,
                   externalMemoryTypes: MemoryTypeFlags)
    returns (d: Device?)
    modifies rt`globalError
    ensures SelectBackend(DeviceTypeOf(code), rt.build, support).None? ==>
      d == null && rt.globalError == ErrorState(InvalidArgument, "unsupported device type")
    ensures SelectBackend(DeviceTypeOf(code), rt.build, support).Some? && fault.Some? ==>
      d == null && rt.globalError == Translate(fault.value, rt.build.dnnl)
    ensures SelectBackend(DeviceTypeOf(code), rt.build, support).Some? && fault.None? ==>
      && d != null && fresh(d) && fresh(d.rc) && d.rc.count == 1
      && d.backend == SelectBackend(DeviceTypeOf(code), rt.build, support).value && d.queues == []
      && d.externalMemoryTypes == externalMemoryTypes
      && !d.committed && d.error == NoErrorState
      && rt.globalError == old(rt.globalError)
  {
    var choice := SelectBackend(DeviceTypeOf(code), rt.build, support);
    if choice.None? {
      Catch(rt, null, Invalid("unsupported device type"));
      return null;
    }
    d := MakeDevice(rt, choice.value, Ok([]), fault, externalMemoryTypes);
  }

  /**
   * The stream list of a CUDA or HIP device: none (the default stream) or
   * the one given; any other count is an error.
   */
  function SelectStreams(streams: seq<nat>, numStreams: int): (r: Result<seq<nat>>)
    requires numStreams == 1 ==> |streams| >= 1
    ensures r.Ok? <==> numStreams == 0 || numStreams == 1
    ensures r.Ok? ==> |r.value| == numStreams && r.value == streams[..numStreams]
    ensures r.Err? ==> r.failure == Invalid("unsupported number of streams")
  {
    if numStreams == 1 then Ok([streams[0]])
    else if numStreams == 0 then Ok([])
    else Err(Invalid("unsupported number of streams"))
  }

  /** The queue list of a SYCL device: the first numQueues queues; a negative count is an error. */
  function SelectQueues(queues: seq<nat>, numQueues: int): (r: Result<seq<nat>>)
    requires numQueues >= 0 ==> numQueues <= |queues|
    ensures r.Ok? <==> numQueues >= 0
    ensures r.Ok? ==> |r.value| == numQueues && r.value == queues[..numQueues]
    ensures r.Err? ==> r.failure == Invalid("invalid number of queues")
  {
    if numQueues < 0 then Err(Invalid("invalid number of queues"))
    else Ok(queues[..numQueues])
  }

  /** oidnNewCUDADevice */
  method NewCUDADevice(rt: Runtime, streams: seq<nat>, numStreams: int, fault: Option<Failure>,
                       externalMemoryTypes: MemoryTypeFlags)
    returns (d: Device?)
    requires rt.build.cuda
    requires numStreams == 1 ==> |streams| >= 1
    modifies rt`globalError
    ensures numStreams != 0 && numStreams != 1 ==>
      d == null && rt.globalError == ErrorState(InvalidArgument, "unsupported number of streams")
    ensures (numStreams == 0 || numStreams == 1) && fault.Some? ==>
      d == null && rt.globalError == Translate(fault.value, rt.build.dnnl)
    ensures (numStreams == 0 || numStreams == 1) && fault.None? ==>
      && d != null && fresh(d) && fresh(d.rc) && d.rc.count == 1
      && d.backend == CUDA && d.queues == streams[..numStreams] && d.externalMemoryTypes == externalMemoryTypes
      && !d.committed && d.error == NoErrorState
      && rt.globalError == old(rt.globalError)
    ensures d == null <==> (numStreams != 0 && numStreams != 1) || fault.Some?
  {
    d := MakeDevice(rt, CUDA, SelectStreams(streams, numStreams), fault, externalMemoryTypes);
  }

  /** oidnNewHIPDevice */
  method NewHIPDevice(rt: Runtime, streams: seq<nat>, numStreams: int, fault: Option<Failure>,
                      externalMemoryTypes: MemoryTypeFlags)
    returns (d: Device?)
    requires rt.build.hip
    requires numStreams == 1 ==> |streams| >= 1
    modifies rt`globalError
    ensures numStreams != 0 && numStreams != 1 ==>
      d == null && rt.globalError == ErrorState(InvalidArgument, "unsupported number of streams")
    ensures (numStreams == 0 || numStreams == 1) && fault.Some? ==>
      d == null && rt.globalError == Translate(fault.value, rt.build.dnnl)
    ensures (numStreams == 0 || numStreams == 1) && fault.None? ==>
      && d != null && fresh(d) && fresh(d.rc) && d.rc.count == 1
      && d.backend == HIP && d.queues == streams[..numStreams] && d.externalMemoryTypes == externalMemoryTypes
      && !d.committed && d.error == NoErrorState
      && rt.globalError == old(rt.globalError)
    ensures d == null <==> (numStreams != 0 && numStreams != 1) || fault.Some?
  {
    d := MakeDevice(rt, HIP, SelectStreams(streams, numStreams), fault, externalMemoryTypes);
  }

  /** oidnNewSYCLDevice */
  method NewSYCLDevice(rt: Runtime, queues: seq<nat>, numQueues: int, fault: Option<Failure>,
                       externalMemoryTypes: MemoryTypeFlags)
    returns (d: Device?)
    requires rt.build.sycl
    requires numQueues >= 0 ==> numQueues <= |queues|
    modifies rt`globalError
    ensures numQueues < 0 ==>
      d == null && rt.globalError == ErrorState(InvalidArgument, "invalid number of queues")
    ensures numQueues >= 0 && fault.Some? ==>
      d == null && rt.globalError == Translate(fault.value, rt.build.dnnl)
    ensures numQueues >= 0 && fault.None? ==>
      && d != null && fresh(d) && fresh(d.rc) && d.rc.count == 1
      && d.backend == SYCL && d.queues == queues[..numQueues] && d.externalMemoryTypes == externalMemoryTypes
      && !d.committed && d.error == NoErrorState
      && rt.globalError == old(rt.globalError)
    ensures d == null <==> numQueues < 0 || fault.Some?
  {
    d := MakeDevice(rt, SYCL, SelectQueues(queues, numQueues), fault, externalMemoryTypes);
  }

  // ---------------------------------------------------------------------------
  // The latched error

  /**
   * oidnGetDeviceError: returns and clears the error of the device, or of
   * the global slot for a null device; the message is written only through
   * a non-null out pointer. If the query itself throws (`fault`), the
   * failure is recorded, the message is "" and the code Unknown.
   */
  method GetDeviceError(rt: Runtime, device: Device?, hasOutMessage: bool, fault: Option<Failure>)
    returns (code: ErrorCode, outMessage: Option<string>)
    modifies rt`globalError, (if device == null then {} else {device})`error
    ensures outMessage.Some? <==> hasOutMessage
    ensures device != null ==> device.committed == old(device.committed) && device.depEvents == old(device.depEvents)
    ensures fault.None? ==>
      var s := if device == null then old(rt.globalError) else old(device.error);
      && code == s.code
      && (hasOutMessage ==> outMessage == Some(s.message))
      && (device == null ==> rt.globalError == NoErrorState)
      && (device != null ==> device.error == NoErrorState && rt.globalError == old(rt.globalError))
    ensures fault.Some? ==>
      && code == Unknown && (hasOutMessage ==> outMessage == Some(""))
      && (device == null ==> rt.globalError == Translate(fault.value, rt.build.dnnl))
      && (device != null ==>
            device.error == Translate(fault.value, rt.build.dnnl) && rt.globalError == old(rt.globalError))
  {
    if fault.None? {
      var message: string;
      if device == null {
        var q := Query(rt.globalError);
        code, message, rt.globalError := q.0, q.1, q.2;
      } else {
        var q := Query(device.error);
        code, message, device.error := q.0, q.1, q.2;
      }
      outMessage := if hasOutMessage then Some(message) else None;
      return;
    }
    Catch(rt, device, fault.value);
    outMessage := if hasOutMessage then Some("") else None;
    code := Unknown;
  }

  // ---------------------------------------------------------------------------
  // Buffers

  /** Device::checkCommitted's failure. */
  const NotCommitted: Failure := OidnException(InvalidOperation, "changes to the device are not committed")

  const UnsupportedMemoryType := "external memory type not supported by the device"
  const NotExactlyOne := "exactly one of the external memory handle and name must be non-null"

  /** The import flag must share a bit with the device's supported external memory types. */
  function MemoryTypeCheck(flag: MemoryTypeFlags, supported: MemoryTypeFlags): (r: Option<Failure>)
    ensures r.None? <==> flag & supported != 0
    ensures r.Some? ==> r.value == Invalid(UnsupportedMemoryType)
  {
    if flag & supported == 0 then Some(Invalid(UnsupportedMemoryType)) else None
  }

  /**
   * The Win32 import checks: a supported flag first, then exactly one of the
   * handle and the name non-null.
   */
  function Win32ImportCheck(flag: MemoryTypeFlags, supported: MemoryTypeFlags, handle: nat, name: nat)
    : (r: Option<Failure>)
    ensures r.None? <==> flag & supported != 0 && (handle == 0) != (name == 0)
    ensures flag & supported == 0 ==> r == Some(Invalid(UnsupportedMemoryType))
    ensures flag & supported != 0 && r.Some? ==> r == Some(Invalid(NotExactlyOne))
  {
    if MemoryTypeCheck(flag, supported).Some? then MemoryTypeCheck(flag, supported)
    else if (handle == 0 && name == 0) || (handle != 0 && name != 0) then Some(Invalid(NotExactlyOne))
    else None
  }

  /** Both or neither of handle and name is rejected whatever the flag. */
  lemma Win32NeedsExactlyOne(flag: MemoryTypeFlags, supported: MemoryTypeFlags, p: nat)
    ensures Win32ImportCheck(flag, supported, 0, 0).Some?
    ensures p != 0 ==> Win32ImportCheck(flag, supported, p, p).Some?
    ensures Win32ImportCheck(flag, supported, p, 0).Some? ==> p == 0 || flag & supported == 0
  {
  }

  /** A buffer the engine has just made for `device`: one reference, the requested origin and size. */
  predicate NewlyMade(b: Buffer?, device: Device, origin: Origin, byteSize: nat, addr: nat)
    reads b, if b == null then {} else {b.rc}
  {
    && b != null && b.rc.count == 1
    && b.device == device && b.origin == origin && b.byteSize == byteSize
    && b.data == (if origin.Shared? then origin.devPtr else addr)
  }

  const NotCommittedState := ErrorState(InvalidOperation, "changes to the device are not committed")

  /**
   * The common body of the buffer entry points: check the handle, lock the
   * device, check it is committed, run the entry point's argument checks,
   * then call the engine. `engineFault` is what the engine throws, if
   * anything; `addr` is where it places allocated memory.
   */
  method CreateBuffer(rt: Runtime, device: Device?, origin: Origin, argCheck: Option<Failure>,
                      byteSize: nat, engineFault: Option<Failure>, addr: nat)
    returns (b: Buffer?)
    modifies rt, (if device == null then {} else {device})`error
    ensures device == null ==> b == null && rt.globalError == InvalidHandleState && rt.trace == old(rt.trace)
    ensures device != null ==> rt.globalError == old(rt.globalError) && device.committed == old(device.committed)
    ensures device != null ==>
      rt.trace == old(rt.trace) + [Lock(device)] +
        (if device.committed && argCheck.None? then [NewBufferCall(device, origin)] else [])
    ensures device != null ==>
      var failure := if !device.committed then Some(NotCommitted) else if argCheck.Some? then argCheck else engineFault;
      && (failure.Some? ==> b == null && device.error == Translate(failure.value, rt.build.dnnl))
      && (failure.None? ==>
            NewlyMade(b, device, origin, byteSize, addr) && fresh(b) && fresh(b.rc) && device.error == old(device.error))
  {
    var checked := CheckHandle(device == null);
    if checked.Err? {
      Catch(rt, null, checked.failure);
      return null;
    }
    rt.trace := rt.trace + [Lock(device)];
    if !device.committed {
      Catch(rt, device, NotCommitted);
      return null;
    }
    if argCheck.Some? {
      Catch(rt, device, argCheck.value);
      return null;
    }
    rt.trace := rt.trace + [NewBufferCall(device, origin)];
    if engineFault.Some? {
      Catch(rt, device, engineFault.value);
      return null;
    }
    b := new Buffer(device, origin, if origin.Shared? then origin.devPtr else addr, byteSize);
  }

  /** oidnNewBuffer: host storage. */
  method NewBuffer(rt: Runtime, device: Device?, byteSize: nat, engineFault: Option<Failure>, addr: nat)
    returns (b: Buffer?)
    modifies rt, (if device == null then {} else {device})`error
    ensures device == null ==> b == null && rt.globalError == InvalidHandleState && rt.trace == old(rt.trace)
    ensures device != null ==> rt.globalError == old(rt.globalError)
    ensures device != null ==>
      rt.trace == old(rt.trace) + [Lock(device)] +
        (if device.committed then [NewBufferCall(device, Allocated(Host))] else [])
    ensures device != null && !device.committed ==> b == null && device.error == NotCommittedState
    ensures device != null && device.committed && engineFault.Some? ==>
      b == null && device.error == Translate(engineFault.value, rt.build.dnnl)
    ensures device != null && device.committed && engineFault.None? ==>
      NewlyMade(b, device, Allocated(Host), byteSize, addr) && fresh(b) && fresh(b.rc) && device.error == old(device.error)
  {
    b := CreateBuffer(rt, device, Allocated(Host), None, byteSize, engineFault, addr);
  }

  /** oidnNewBufferWithStorage */
  method NewBufferWithStorage(rt: Runtime, device: Device?, byteSize: nat, storage: Storage,
                              engineFault: Option<Failure>, addr: nat)
    returns (b: Buffer?)
    modifies rt, (if device == null then {} else {device})`error
    ensures device == null ==> b == null && rt.globalError == InvalidHandleState && rt.trace == old(rt.trace)
    ensures device != null ==> rt.globalError == old(rt.globalError)
    ensures device != null ==>
      rt.trace == old(rt.trace) + [Lock(device)] +
        (if device.committed then [NewBufferCall(device, Allocated(storage))] else [])
    ensures device != null && !device.committed ==> b == null && device.error == NotCommittedState
    ensures device != null && device.committed && engineFault.Some? ==>
      b == null && device.error == Translate(engineFault.value, rt.build.dnnl)
    ensures device != null && device.committed && engineFault.None? ==>
      NewlyMade(b, device, Allocated(storage), byteSize, addr) && fresh(b) && fresh(b.rc) && device.error == old(device.error)
  {
    b := CreateBuffer(rt, device, Allocated(storage), None, byteSize, engineFault, addr);
  }

  /** oidnNewSharedBuffer: wraps caller-owned memory at devPtr. */
  method NewSharedBuffer(rt: Runtime, device: Device?, devPtr: nat, byteSize: nat, engineFault: Option<Failure>)
    returns (b: Buffer?)
    modifies rt, (if device == null then {} else {device})`error
    ensures device == null ==> b == null && rt.globalError == InvalidHandleState && rt.trace == old(rt.trace)
    ensures device != null ==> rt.globalError == old(rt.globalError)
    ensures device != null ==>
      rt.trace == old(rt.trace) + [Lock(device)] +
        (if device.committed then [NewBufferCall(device, Shared(devPtr))] else [])
    ensures device != null && !device.committed ==> b == null && device.error == NotCommittedState
    ensures device != null && device.committed && engineFault.Some? ==>
      b == null && device.error == Translate(engineFault.value, rt.build.dnnl)
    ensures device != null && device.committed && engineFault.None? ==>
      && NewlyMade(b, device, Shared(devPtr), byteSize, devPtr) && fresh(b) && fresh(b.rc)
      && b.data == devPtr && device.error == old(device.error)
  {
    b := CreateBuffer(rt, device, Shared(devPtr), None, byteSize, engineFault, devPtr);
  }

  /**
   * oidnNewSharedBufferFromFD: an unsupported memory type is rejected before
   * the engine is asked to import anything.
   */
  method NewSharedBufferFromFD(rt: Runtime, device: Device?, fdType: MemoryTypeFlags, fd: int, byteSize: nat,
                               engineFault: Option<Failure>, addr: nat)
    returns (b: Buffer?)
    modifies rt, (if device == null then {} else {device})`error
    ensures device == null ==> b == null && rt.globalError == InvalidHandleState && rt.trace == old(rt.trace)
    ensures device != null ==> rt.globalError == old(rt.globalError)
    ensures device != null ==>
      rt.trace == old(rt.trace) + [Lock(device)] +
        (if device.committed && fdType & device.externalMemoryTypes != 0
         then [NewBufferCall(device, ImportedFd(fdType, fd))] else [])
    ensures device != null && !device.committed ==> b == null && device.error == NotCommittedState
    ensures device != null && device.committed && fdType & device.externalMemoryTypes == 0 ==>
      b == null && device.error == ErrorState(InvalidArgument, UnsupportedMemoryType)
    ensures device != null && device.committed && fdType & device.externalMemoryTypes != 0 && engineFault.Some? ==>
      b == null && device.error == Translate(engineFault.value, rt.build.dnnl)
    ensures device != null && device.committed && fdType & device.externalMemoryTypes != 0 && engineFault.None? ==>
      NewlyMade(b, device, ImportedFd(fdType, fd), byteSize, addr) && fresh(b) && fresh(b.rc) &&
      device.error == old(device.error)
  {
    var check := if device == null then None else MemoryTypeCheck(fdType, device.externalMemoryTypes);
    b := CreateBuffer(rt, device, ImportedFd(fdType, fd), check, byteSize, engineFault, addr);
  }

  /**
   * oidnNewSharedBufferFromWin32Handle: the memory type must be supported and
   * exactly one of handle and name non-null, both checked before importing.
   */
  method NewSharedBufferFromWin32Handle(rt: Runtime, device: Device?, handleType: MemoryTypeFlags,
                                        handle: nat, name: nat, byteSize: nat,
                                        engineFault: Option<Failure>, addr: nat)
    returns (b: Buffer?)
    modifies rt, (if device == null then {} else {device})`error
    ensures device == null ==> b == null && rt.globalError == InvalidHandleState && rt.trace == old(rt.trace)
    ensures device != null ==> rt.globalError == old(rt.globalError)
    ensures device != null ==>
      rt.trace == old(rt.trace) + [Lock(device)] +
        (if device.committed && Win32ImportCheck(handleType, device.externalMemoryTypes, handle, name).None?
         then [NewBufferCall(device, ImportedHandle(handleType, handle, name))] else [])
    ensures device != null && !device.committed ==> b == null && device.error == NotCommittedState
    ensures device != null && device.committed && handleType & device.externalMemoryTypes == 0 ==>
      b == null && device.error == ErrorState(InvalidArgument, UnsupportedMemoryType)
    ensures device != null && device.committed && handleType & device.externalMemoryTypes != 0 &&
            (handle == 0) == (name == 0) ==>
      b == null && device.error == ErrorState(InvalidArgument, NotExactlyOne)
    ensures device != null && device.committed && handleType & device.externalMemoryTypes != 0 &&
            (handle == 0) != (name == 0) && engineFault.Some? ==>
      b == null && device.error == Translate(engineFault.value, rt.build.dnnl)
    ensures device != null && device.committed && handleType & device.externalMemoryTypes != 0 &&
            (handle == 0) != (name == 0) && engineFault.None? ==>
      NewlyMade(b, device, ImportedHandle(handleType, handle, name), byteSize, addr) && fresh(b) && fresh(b.rc) &&
      device.error == old(device.error)
  {
    var check := if device == null then None else Win32ImportCheck(handleType, device.externalMemoryTypes, handle, name);
    b := CreateBuffer(rt, device, ImportedHandle(handleType, handle, name), check, byteSize, engineFault, addr);
  }

  // ---------------------------------------------------------------------------
  // Filters

  const DifferentDevices := "the specified objects are bound to different devices"

  /**
   * oidnSetFilterImage: both handles are checked, the filter's device is
   * locked, the buffer must belong to the same device, and the image (with
   * width and height passed through `(int)`) must be valid and fit in the
   * buffer before the filter receives it. The image holds a reference to
   * the buffer for as long as the filter keeps it; `setImageFault` is what
   * Filter::setImage throws, if anything, in which case the image and its
   * reference are dropped again.
   */
  method SetFilterImage(rt: Runtime, filter: Filter?, name: string, buffer: Buffer?, format: Format,
                        width: nat, height: nat, byteOffset: nat, pixelByteStride: nat, rowByteStride: nat,
                        setImageFault: Option<Failure>)
    requires buffer != null ==> buffer.rc.Live()
    modifies rt, (if filter == null then {} else {filter.device})`error, if buffer == null then {} else {buffer.rc}
    ensures filter == null ==> rt.globalError == InvalidHandleState && rt.trace == old(rt.trace)
    ensures filter != null ==> rt.globalError == old(rt.globalError)
    ensures filter != null && buffer == null ==>
      filter.device.error == InvalidHandleState && rt.trace == old(rt.trace)
    ensures filter != null && buffer != null && buffer.device != filter.device ==>
      filter.device.error == ErrorState(InvalidArgument, DifferentDevices) &&
      rt.trace == old(rt.trace) + [Lock(filter.device)]
    ensures buffer != null ==>
      var d := NewImageDesc(format, ToSize(ToInt32(width)), ToSize(ToInt32(height)), pixelByteStride, rowByteStride);
      var bound := filter != null && buffer.device == filter.device && d.Ok? &&
                   RegionFits(byteOffset, ByteSize(d.value), buffer.byteSize) && setImageFault.None?;
      buffer.rc.count == old(buffer.rc.count) + (if bound then 1 else 0)
    ensures filter != null && buffer != null && buffer.device == filter.device ==>
      var d := NewImageDesc(format, ToSize(ToInt32(width)), ToSize(ToInt32(height)), pixelByteStride, rowByteStride);
      && (d.Err? ==>
            filter.device.error == Translate(d.failure, rt.build.dnnl) &&
            rt.trace == old(rt.trace) + [Lock(filter.device)])
      && (d.Ok? && !RegionFits(byteOffset, ByteSize(d.value), buffer.byteSize) ==>
            filter.device.error == ErrorState(InvalidArgument, RegionOutOfRange) &&
            rt.trace == old(rt.trace) + [Lock(filter.device)])
      && (d.Ok? && RegionFits(byteOffset, ByteSize(d.value), buffer.byteSize) ==>
            && |rt.trace| == |old(rt.trace)| + 2
            && rt.trace[..|old(rt.trace)| + 1] == old(rt.trace) + [Lock(filter.device)]
            && (var e := rt.trace[|old(rt.trace)| + 1];
                && e.SetImage? && e.filter == filter && e.name == name && fresh(e.image)
                && e.image.desc == d.value && e.image.buffer == buffer && e.image.byteOffset == byteOffset
                && e.image.ptr == buffer.data + byteOffset)
            && (setImageFault.None? ==> filter.device.error == old(filter.device.error))
            && (setImageFault.Some? ==> filter.device.error == Translate(setImageFault.value, rt.build.dnnl)))
  {
    if filter == null {
      Catch(rt, null, InvalidHandle);
      return;
    }
    if buffer == null {
      Catch(rt, filter.device, InvalidHandle);
      return;
    }
    rt.trace := rt.trace + [Lock(filter.device)];
    if buffer.device != filter.device {
      Catch(rt, filter.device, Invalid(DifferentDevices));
      return;
    }
    var image := NewBufferImageWithFormat(buffer, format, ToSize(ToInt32(width)), ToSize(ToInt32(height)),
                                          byteOffset, pixelByteStride, rowByteStride);
    if image.Err? {
      Catch(rt, filter.device, image.failure);
      return;
    }
    rt.trace := rt.trace + [SetImage(filter, name, image.value)];
    if setImageFault.Some? {
      // the filter did not keep the image, so its reference on the buffer goes away with it
      var remaining := buffer.rc.DecRefKeep();
      Catch(rt, filter.device, setImageFault.value);
    }
  }

  /**
   * oidnSetSharedFilterImage: as SetFilterImage over caller-owned memory at
   * devPtr, so there is no buffer and no device check.
   */
  method SetSharedFilterImage(rt: Runtime, filter: Filter?, name: string, devPtr: nat, format: Format,
                              width: nat, height: nat, byteOffset: nat, pixelByteStride: nat, rowByteStride: nat,
                              setImageFault: Option<Failure>)
    modifies rt, (if filter == null then {} else {filter.device})`error
    ensures filter == null ==> rt.globalError == InvalidHandleState && rt.trace == old(rt.trace)
    ensures filter != null ==>
      var d := NewImageDesc(format, ToSize(ToInt32(width)), ToSize(ToInt32(height)), pixelByteStride, rowByteStride);
      && rt.globalError == old(rt.globalError)
      && (d.Err? ==>
            filter.device.error == Translate(d.failure, rt.build.dnnl) &&
            rt.trace == old(rt.trace) + [Lock(filter.device)])
      && (d.Ok? && PointerView(devPtr, d.value, byteOffset).None? ==>
            filter.device.error == ErrorState(InvalidArgument, RegionOutOfRange) &&
            rt.trace == old(rt.trace) + [Lock(filter.device)])
      && (d.Ok? && PointerView(devPtr, d.value, byteOffset).Some? ==>
            && |rt.trace| == |old(rt.trace)| + 2
            && rt.trace[..|old(rt.trace)| + 1] == old(rt.trace) + [Lock(filter.device)]
            && (var e := rt.trace[|old(rt.trace)| + 1];
                && e.SetImage? && e.filter == filter && e.name == name && fresh(e.image)
                && e.image.desc == d.value && e.image.buffer == null && e.image.ptr == devPtr + byteOffset)
            && (setImageFault.None? ==> filter.device.error == old(filter.device.error))
            && (setImageFault.Some? ==> filter.device.error == Translate(setImageFault.value, rt.build.dnnl)))
  {
    if filter == null {
      Catch(rt, null, InvalidHandle);
      return;
    }
    rt.trace := rt.trace + [Lock(filter.device)];
    var image := NewPointerImage(devPtr, format, ToSize(ToInt32(width)), ToSize(ToInt32(height)),
                                 byteOffset, pixelByteStride, rowByteStride);
    if image.Err? {
      Catch(rt, filter.device, image.failure);
      return;
    }
    rt.trace := rt.trace + [SetImage(filter, name, image.value)];
    if setImageFault.Some? {
      Catch(rt, filter.device, setImageFault.value);
    }
  }

  /** Large widths reach the image constructor truncated by the `(int)` cast: 2^32 + 4 columns become 4. */
  lemma CastTruncatesWidth(format: Format, height: nat, pixelByteStride: nat, rowByteStride: nat)
    ensures NewImageDesc(format, ToSize(ToInt32(0x1_0000_0004)), height, pixelByteStride, rowByteStride) ==
            NewImageDesc(format, 4, height, pixelByteStride, rowByteStride)
  {
    ThroughIntTruncates();
  }

  /** A SYCL event handed back to the caller: an empty one, or one of the device's. */
  datatype SyclEvent = EmptyEvent | EventOf(token: nat)

  const MissingBarrier := "missing barrier after filter kernels"

  /**
   * The done event of an execution: none issued gives an empty event, one
   * gives that event, more than one means a barrier is missing.
   */
  function DoneEvent(doneEvents: seq<nat>): (r: Result<SyclEvent>)
    ensures r.Ok? <==> |doneEvents| <= 1
    ensures |doneEvents| == 0 ==> r == Ok(EmptyEvent)
    ensures |doneEvents| == 1 ==> r == Ok(EventOf(doneEvents[0]))
    ensures r.Err? ==> r.failure == StdException(LogicError, MissingBarrier)
  {
    if |doneEvents| == 1 then Ok(EventOf(doneEvents[0]))
    else if |doneEvents| == 0 then Ok(EmptyEvent)
    else Err(StdException(LogicError, MissingBarrier))
  }

  /** A missing barrier reaches the caller as Unknown, with its message. */
  lemma MissingBarrierIsUnknown(doneEvents: seq<nat>, dnnl: bool)
    requires |doneEvents| > 1
    ensures Translate(DoneEvent(doneEvents).failure, dnnl) == ErrorState(Unknown, MissingBarrier)
  {
  }

  /**
   * oidnExecuteSYCLFilterAsync: checks the handle and the event count, locks
   * the device, requires a SYCL device, hands it the dependent events,
   * executes asynchronously and, if asked, writes out the single done event.
   * `execFault` is what the execution throws; `doneEvents` is what the
   * device reports afterwards.
   */
  method ExecuteSYCLFilterAsync(rt: Runtime, filter: Filter?, depEvents: seq<nat>, numDepEvents: int,
                                wantDoneEvent: bool, execFault: Option<Failure>, doneEvents: seq<nat>)
    returns (doneEvent: Option<SyclEvent>)
    requires rt.build.sycl
    requires numDepEvents >= 0 ==> numDepEvents <= |depEvents|
    modifies rt, (if filter == null then {} else {filter.device})`error
    modifies (if filter == null then {} else {filter.device})`depEvents
    ensures doneEvent.Some? ==> wantDoneEvent
    ensures filter != null ==> filter.device.committed == old(filter.device.committed)
    ensures filter != null && (numDepEvents < 0 || filter.device.backend != SYCL) ==>
      filter.device.depEvents == old(filter.device.depEvents)
    ensures filter == null ==> rt.globalError == InvalidHandleState && rt.trace == old(rt.trace) && doneEvent.None?
    ensures filter != null ==> rt.globalError == old(rt.globalError)
    ensures filter != null && numDepEvents < 0 ==>
      && filter.device.error == ErrorState(InvalidArgument, "invalid number of dependent events")
      && rt.trace == old(rt.trace) && doneEvent.None?
    ensures filter != null && numDepEvents >= 0 && filter.device.backend != SYCL ==>
      && filter.device.error == ErrorState(InvalidArgument, "filter does not belong to a SYCL device")
      && rt.trace == old(rt.trace) + [Lock(filter.device)] && doneEvent.None?
    ensures filter != null && numDepEvents >= 0 && filter.device.backend == SYCL ==>
      && filter.device.depEvents == depEvents[..numDepEvents]
      && rt.trace == old(rt.trace) + [Lock(filter.device), Execute(filter)]
      && (execFault.Some? ==> filter.device.error == Translate(execFault.value, rt.build.dnnl) && doneEvent.None?)
      && (execFault.None? && wantDoneEvent && DoneEvent(doneEvents).Ok? ==>
            doneEvent == Some(DoneEvent(doneEvents).value) && filter.device.error == old(filter.device.error))
      && (execFault.None? && wantDoneEvent && DoneEvent(doneEvents).Err? ==>
            doneEvent.None? && filter.device.error == ErrorState(Unknown, MissingBarrier))
      && (execFault.None? && !wantDoneEvent ==>
            doneEvent.None? && filter.device.error == old(filter.device.error))
  {
    doneEvent := None;
    if filter == null {
      Catch(rt, null, InvalidHandle);
      return;
    }
    if numDepEvents < 0 {
      Catch(rt, filter.device, Invalid("invalid number of dependent events"));
      return;
    }
    rt.trace := rt.trace + [Lock(filter.device)];
    if filter.device.backend != SYCL {
      Catch(rt, filter.device, Invalid("filter does not belong to a SYCL device"));
      return;
    }
    filter.device.depEvents := depEvents[..numDepEvents];
    rt.trace := rt.trace + [Execute(filter)];
    if execFault.Some? {
      Catch(rt, filter.device, execFault.value);
      return;
    }
    if wantDoneEvent {
      var done := DoneEvent(doneEvents);
      if done.Err? {
        Catch(rt, filter.device, done.failure);
        return;
      }
      doneEvent := Some(done.value);
    }
  }
}
