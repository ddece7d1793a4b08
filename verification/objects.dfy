/**
 * The reference-counted objects bound to a device: the device itself and its
 * buffers. Addresses are natural numbers; 0 is the null pointer.
 */
module Objects {
  import opened Common
  import opened Errors

  /** The compute backends a device can be created for. */
  datatype Backend = CPU | SYCL | CUDA | HIP

  /** Where a buffer's bytes live (Storage). */
  datatype Storage = UndefinedStorage | Host | DeviceStorage | Managed

  /** A bitmask of external memory kinds (OIDNExternalMemoryTypeFlag). */
  type MemoryTypeFlags = bv32

  /** How a buffer came to be. */
  datatype Origin =
    | Allocated(storage: Storage)                                     // engine allocation
    | Shared(devPtr: nat)                                             // caller-owned memory, no ownership transfer
    | ImportedFd(fdType: MemoryTypeFlags, fd: int)                    // external memory by file descriptor
    | ImportedHandle(handleType: MemoryTypeFlags, handle: nat, name: nat) // external memory by Win32 handle or name

  /**
   * The intrusive reference count shared by every device-bound object
   * (the RefCount base class). A live object has a positive count.
   */
  class RefCount {
    var count: nat

    constructor ()
      ensures count == 1
    {
      count := 1;
    }

    predicate Live()
      reads this
    {
      count > 0
    }

    method IncRef()
      modifies this
      ensures count == old(count) + 1
    {
      count := count + 1;
    }

    /** Decrements the count and returns the value it now has. */
    method DecRefKeep() returns (r: nat)
      requires Live()
      modifies this
      ensures count == old(count) - 1 && r == count
    {
      count := count - 1;
      r := count;
    }
  }

  /** The state of a device that the public interface reads and writes. */
  class Device {
    const rc: RefCount
    const backend: Backend
    /** The streams or queues the device was created on (empty: the backend's default). */
    const queues: seq<nat>
    /** The external memory kinds the device can import (getExternalMemoryTypes). */
    const externalMemoryTypes: MemoryTypeFlags
    var committed: bool
    /** The latched error of this device. */
    var error: ErrorState
    /** The SYCL events the next execution must wait for (setDepEvents). */
    var depEvents: seq<nat>

    constructor (backend: Backend, queues: seq<nat>, externalMemoryTypes: MemoryTypeFlags)
      ensures fresh(rc) && rc.count == 1
      ensures this.backend == backend && this.queues == queues
      ensures this.externalMemoryTypes == externalMemoryTypes
      ensures !committed && error == NoErrorState && depEvents == []
    {
      rc := new RefCount();
      this.backend := backend;
      this.queues := queues;
      this.externalMemoryTypes := externalMemoryTypes;
      committed := false;
      error := NoErrorState;
      depEvents := [];
    }
  }

  /**
   * A contiguous span of device-addressable memory. Its data pointer and size
   * are fields because the engine may relocate the storage.
   */
  class Buffer {
    const rc: RefCount
    const device: Device
    const origin: Origin
    var data: nat
    var byteSize: nat

    constructor (device: Device, origin: Origin, data: nat, byteSize: nat)
      ensures fresh(rc) && rc.count == 1
      ensures this.device == device && this.origin == origin
      ensures this.data == data && this.byteSize == byteSize
    {
      rc := new RefCount();
      this.device := device;
      this.origin := origin;
      this.data := data;
      this.byteSize := byteSize;
    }
  }

  /** One operation of the retain/release protocol. */
  datatype RcOp = Retain | Release

  /**
   * The protocol on a live object of count `count`: the count left after
   * `ops`, or None once a release has brought it to zero and destroyed it.
   */
  function RunOps(count: nat, ops: seq<RcOp>): Option<nat>
    requires count > 0
    decreases |ops|
  {
    if ops == [] then Some(count)
    else match ops[0]
      case Retain => RunOps(count + 1, ops[1..])
      case Release => if count == 1 then None else RunOps(count - 1, ops[1..])
  }

  function Repeat(op: RcOp, n: nat): (r: seq<RcOp>)
    ensures |r| == n && forall i :: 0 <= i < n ==> r[i] == op
  {
    if n == 0 then [] else [op] + Repeat(op, n - 1)
  }

  /** n releases from count c + n leave c behind. */
  lemma {:induction false} ReleasesDown(c: nat, n: nat)
    requires c > 0
    ensures RunOps(c + n, Repeat(Release, n)) == Some(c)
  {
    if n > 0 {
      assert Repeat(Release, n)[1..] == Repeat(Release, n - 1);
      ReleasesDown(c, n - 1);
    }
  }

  /** Retaining and then releasing the same number of times destroys nothing. */
  lemma {:induction false} BalancedKeepsAlive(c: nat, n: nat)
    requires c > 0
    ensures RunOps(c, Repeat(Retain, n) + Repeat(Release, n)) == Some(c)
  {
    BalancedFrom(c, n, n);
  }

  lemma {:induction false} BalancedFrom(c: nat, k: nat, n: nat)
    requires c > 0 && k <= n
    ensures RunOps(c + n - k, Repeat(Retain, k) + Repeat(Release, n)) == Some(c)
  {
    if k == 0 {
      assert Repeat(Retain, 0) + Repeat(Release, n) == Repeat(Release, n);
      ReleasesDown(c, n);
    } else {
      var ops := Repeat(Retain, k) + Repeat(Release, n);
      assert ops[0] == Retain;
      assert ops[1..] == Repeat(Retain, k - 1) + Repeat(Release, n);
      BalancedFrom(c, k - 1, n);
    }
  }

  /** Releasing one more time than retained destroys the object. */
  lemma {:induction false} OneReleaseTooMany(n: nat)
    ensures RunOps(1, Repeat(Retain, n) + Repeat(Release, n + 1)) == None
  {
    var ops := Repeat(Retain, n) + Repeat(Release, n + 1);
    assert ops == (Repeat(Retain, n) + Repeat(Release, n)) + [Release];
    RunOpsAppend(1, Repeat(Retain, n) + Repeat(Release, n), [Release]);
    BalancedKeepsAlive(1, n);
  }

  /** Running a concatenation runs its parts one after the other. */
  lemma {:induction false} RunOpsAppend(c: nat, a: seq<RcOp>, b: seq<RcOp>)
    requires c > 0
    ensures RunOps(c, a + b) ==
      match RunOps(c, a)
      case None => None
      case Some(m) => if m > 0 then RunOps(m, b) else None
    decreases |a|
  {
    if a == [] {
      assert a + b == b;
    } else {
      assert (a + b)[0] == a[0];
      assert (a + b)[1..] == a[1..] + b;
      match a[0]
      case Retain => RunOpsAppend(c + 1, a[1..], b);
      case Release => if c > 1 { RunOpsAppend(c - 1, a[1..], b); }
    }
  }
}
